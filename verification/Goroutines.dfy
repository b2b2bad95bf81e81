/**
  The goroutines of one enqueue call as a step system: the loop that takes a slot and
  launches a goroutine per queue, the sends with their retries, the two maps the
  goroutines fill, and the join.  Any scheduler may pick any enabled move.
 */
module Goroutines {
  import opened Entities

  const SLOTS: nat := 10
  const MAX_TRIES: nat := 3

  /** What one SendMessage call comes to: an error does not say whether the broker kept the record. */
  datatype Try = Acked | LostAck | NotKept

  datatype Outcome =
    | NotCreated
    | NotSent(traceId: Id, tries: seq<Try>)
    | NotEncoded(traceId: Id, tries: seq<Try>)
    | Delivered(traceId: Id, tries: seq<Try>)

  datatype Goroutine =
    | Idle
    | Creating
    | Trying(traceId: Id, tries: seq<Try>)
    | Encoding(traceId: Id, tries: seq<Try>)
    | Storing(traceId: Id, tries: seq<Try>)
    | Leaving(outcome: Outcome)
    | Signalling(outcome: Outcome)
    | Finished(outcome: Outcome)

  /** The launching loop: about to add to the wait group, to take a slot, to wait; or past the join. */
  datatype MainPc = Adding | Acquiring | Waiting | Joined

  datatype FanOut = FanOut(
    topic: Topic, queues: seq<QueueRef>, pc: MainPc, next: nat, gs: seq<Goroutine>,
    sem: int, wg: int, successes: map<Id, Id>, traceIds: map<Id, Id>)

  datatype Choice = Proceed | Fail | Create(traceId: Id) | Send(result: Try)

  datatype Move = Main | Go(i: nat, choice: Choice)

  function Start(topic: Topic, queues: seq<QueueRef>): FanOut {
    FanOut(topic, queues, Adding, 0, seq(|queues|, i => Idle), 0, 0, map[], map[])
  }

  /******* Moves *******/

  predicate CanGo(g: Goroutine, c: Choice) {
    match g
    case Creating => c.Create? || c.Fail?
    case Trying(_, tries) => (c.Send? && |tries| < MAX_TRIES) || (c.Fail? && |tries| >= 1)
    case Encoding(_, _) => c.Proceed? || c.Fail?
    case Storing(_, _) => c.Proceed?
    case Leaving(_) => c.Proceed?
    case Signalling(_) => c.Proceed?
    case _ => false
  }

  function AfterTry(t: Id, tries: seq<Try>, result: Try): Goroutine {
    if result == Acked then Encoding(t, tries + [result]) else Trying(t, tries + [result])
  }

  function Advance(g: Goroutine, c: Choice): Goroutine
    requires CanGo(g, c)
  {
    match g
    case Creating => if c.Create? then Trying(c.traceId, []) else Leaving(NotCreated)
    case Trying(t, tries) =>
      if c.Fail? then Leaving(NotSent(t, tries))
      else AfterTry(t, tries, c.result)
    case Encoding(t, tries) => if c.Proceed? then Storing(t, tries) else Leaving(NotEncoded(t, tries))
    case Storing(t, tries) => Leaving(Delivered(t, tries))
    case Leaving(o) => Signalling(o)
    case Signalling(o) => Finished(o)
  }

  predicate CanMove(f: FanOut, mv: Move) {
    match mv
    case Main =>
      (match f.pc
       case Adding => true
       case Acquiring => f.sem < SLOTS && f.next < |f.gs|
       case Waiting => f.wg == 0
       case Joined => false)
    case Go(i, c) => i < |f.gs| && i < |f.queues| && CanGo(f.gs[i], c)
  }

  function DoMain(f: FanOut): FanOut
    requires CanMove(f, Main)
  {
    match f.pc
    case Adding => if f.next < |f.queues| then f.(wg := f.wg + 1, pc := Acquiring) else f.(pc := Waiting)
    case Acquiring => f.(sem := f.sem + 1, gs := f.gs[f.next := Creating], next := f.next + 1, pc := Adding)
    case Waiting => f.(pc := Joined)
  }

  function DoGo(f: FanOut, i: nat, c: Choice): FanOut
    requires CanMove(f, Go(i, c))
  {
    var q, g := f.queues[i], f.gs[i];
    f.(gs := f.gs[i := Advance(g, c)],
       successes := if g.Encoding? && c.Proceed? then f.successes[q.id := q.messageId] else f.successes,
       traceIds := if g.Storing? then f.traceIds[q.id := g.traceId] else f.traceIds,
       sem := if g.Leaving? then f.sem - 1 else f.sem,
       wg := if g.Signalling? then f.wg - 1 else f.wg)
  }

  function DoMove(f: FanOut, mv: Move): FanOut
    requires CanMove(f, mv)
  {
    match mv
    case Main => DoMain(f)
    case Go(i, c) => DoGo(f, i, c)
  }

  /** The records a move appends to the log. */
  function Emitted(f: FanOut, mv: Move): seq<Record>
    requires CanMove(f, mv)
  {
    if mv.Go? && f.gs[mv.i].Trying? && mv.choice.Send? && mv.choice.result != NotKept
    then [Record(f.topic, f.queues[mv.i].id, f.gs[mv.i].traceId)] else []
  }

  /** The state and log after a schedule; a move that is not enabled is skipped. */
  function Schedule(f: FanOut, moves: seq<Move>): (FanOut, seq<Record>)
  {
    if moves == [] then (f, [])
    else
      var (g, log) := Schedule(f, moves[..|moves| - 1]);
      var mv := moves[|moves| - 1];
      if CanMove(g, mv) then (DoMove(g, mv), log + Emitted(g, mv)) else (g, log)
  }

  /******* What the goroutines hold *******/

  predicate Holding(g: Goroutine) {
    g.Creating? || g.Trying? || g.Encoding? || g.Storing? || g.Leaving?
  }

  predicate Unsignalled(g: Goroutine) { Holding(g) || g.Signalling? }

  predicate Over(g: Goroutine) { g.Leaving? || g.Signalling? || g.Finished? }

  predicate HasTries(g: Goroutine) {
    g.Trying? || g.Encoding? || g.Storing? || (Over(g) && !g.outcome.NotCreated?)
  }

  function TriesOf(g: Goroutine): seq<Try> {
    if g.Trying? || g.Encoding? || g.Storing? then g.tries
    else if Over(g) && !g.outcome.NotCreated? then g.outcome.tries
    else []
  }

  function TraceOf(g: Goroutine): Id
    requires HasTries(g)
  {
    if Over(g) then g.outcome.traceId else g.traceId
  }

  /** At most three calls, and none after an ack. */
  predicate WithinRetry(tries: seq<Try>) {
    |tries| <= MAX_TRIES && forall i :: 0 <= i < |tries| - 1 ==> tries[i] != Acked
  }

  predicate WasAcked(tries: seq<Try>) { tries != [] && tries[|tries| - 1] == Acked }

  predicate GoodOutcome(o: Outcome) {
    match o
    case NotCreated => true
    case NotSent(_, tries) => WithinRetry(tries) && tries != [] && !WasAcked(tries)
    case NotEncoded(_, tries) => WithinRetry(tries) && WasAcked(tries)
    case Delivered(_, tries) => WithinRetry(tries) && WasAcked(tries)
  }

  predicate GoodGoroutine(g: Goroutine) {
    match g
    case Idle => true
    case Creating => true
    case Trying(_, tries) => WithinRetry(tries) && !WasAcked(tries)
    case Encoding(_, tries) => WithinRetry(tries) && WasAcked(tries)
    case Storing(_, tries) => WithinRetry(tries) && WasAcked(tries)
    case _ => GoodOutcome(g.outcome)
  }

  predicate InSuccesses(g: Goroutine) { g.Storing? || (Over(g) && g.outcome.Delivered?) }

  predicate InTraces(g: Goroutine) { Over(g) && g.outcome.Delivered? }

  function Count(gs: seq<Goroutine>, p: Goroutine -> bool): nat {
    if gs == [] then 0 else Count(gs[..|gs| - 1], p) + if p(gs[|gs| - 1]) then 1 else 0
  }

  function Ids(queues: seq<QueueRef>): set<Id> { set i | 0 <= i < |queues| :: queues[i].id }

  function MessageIds(queues: seq<QueueRef>): set<Id> { set i | 0 <= i < |queues| :: queues[i].messageId }

  predicate DistinctIds(queues: seq<QueueRef>) {
    forall i, j :: 0 <= i < j < |queues| ==> queues[i].id != queues[j].id
  }

  /******* The invariant *******/

  ghost predicate Shape(f: FanOut) {
    && DistinctIds(f.queues)
    && |f.gs| == |f.queues|
    && f.next <= |f.gs|
    && (forall i :: 0 <= i < |f.gs| ==> (f.gs[i].Idle? <==> i >= f.next))
    && (forall i :: 0 <= i < |f.gs| ==> GoodGoroutine(f.gs[i]))
    && (f.pc.Acquiring? ==> f.next < |f.gs|)
    && (f.pc.Waiting? || f.pc.Joined? ==> f.next == |f.gs|)
    && (f.pc.Joined? ==> forall i :: 0 <= i < |f.gs| ==> f.gs[i].Finished?)
  }

  ghost predicate Counted(f: FanOut) {
    && f.sem == Count(f.gs, Holding) <= SLOTS
    && f.wg == Count(f.gs, Unsignalled) + if f.pc.Acquiring? then 1 else 0
  }

  /** `successes` holds exactly the queues whose goroutine has stored there, with their message ids. */
  ghost predicate SuccessesStored(queues: seq<QueueRef>, gs: seq<Goroutine>, m: map<Id, Id>)
    requires |gs| == |queues|
  {
    && m.Keys <= Ids(queues)
    && (forall i :: 0 <= i < |gs| ==> (queues[i].id in m <==> InSuccesses(gs[i])))
    && (forall i :: 0 <= i < |gs| && queues[i].id in m ==> m[queues[i].id] == queues[i].messageId)
  }

  ghost predicate TracesStored(queues: seq<QueueRef>, gs: seq<Goroutine>, m: map<Id, Id>)
    requires |gs| == |queues|
  {
    && m.Keys <= Ids(queues)
    && (forall i :: 0 <= i < |gs| ==> (queues[i].id in m <==> InTraces(gs[i])))
    && (forall i :: 0 <= i < |gs| && queues[i].id in m ==> InTraces(gs[i]) && m[queues[i].id] == TraceOf(gs[i]))
  }

  ghost predicate Consistent(f: FanOut) {
    && Shape(f) && Counted(f)
    && SuccessesStored(f.queues, f.gs, f.successes) && TracesStored(f.queues, f.gs, f.traceIds)
  }

  lemma {:induction false} CountUpdate(gs: seq<Goroutine>, i: nat, g: Goroutine, p: Goroutine -> bool)
    requires i < |gs|
    ensures Count(gs[i := g], p) ==
            Count(gs, p) - (if p(gs[i]) then 1 else 0) + if p(g) then 1 else 0
  {
    var n := |gs| - 1;
    if i == n {
      assert gs[i := g][..n] == gs[..n];
    } else {
      assert gs[i := g][..n] == gs[..n][i := g];
      CountUpdate(gs[..n], i, g, p);
    }
  }

  /** A positive count has a witness, a zero count has none. */
  lemma {:induction false} CountWitness(gs: seq<Goroutine>, p: Goroutine -> bool)
    ensures Count(gs, p) > 0 <==> exists i :: 0 <= i < |gs| && p(gs[i])
  {
    if gs != [] {
      var n := |gs| - 1;
      CountWitness(gs[..n], p);
      if Count(gs[..n], p) > 0 {
        var i :| 0 <= i < n && p(gs[..n][i]);
        assert p(gs[i]);
      } else {
        forall i | 0 <= i < n ensures !p(gs[i]) { assert gs[..n][i] == gs[i]; }
      }
    }
  }

  lemma StartConsistent(topic: Topic, queues: seq<QueueRef>)
    requires DistinctIds(queues)
    ensures Consistent(Start(topic, queues))
  {
    var gs := Start(topic, queues).gs;
    CountWitness(gs, Holding);
    CountWitness(gs, Unsignalled);
  }

  /** One goroutine's own step keeps its tries within the retry budget. */
  lemma AdvanceGood(g: Goroutine, c: Choice)
    requires GoodGoroutine(g) && CanGo(g, c)
    ensures GoodGoroutine(Advance(g, c)) && !Advance(g, c).Idle? && !g.Idle? && !g.Finished?
    ensures InSuccesses(Advance(g, c)) <==> InSuccesses(g) || (g.Encoding? && c.Proceed?)
    ensures InTraces(Advance(g, c)) <==> InTraces(g) || g.Storing?
    ensures HasTries(g) ==> HasTries(Advance(g, c)) && TraceOf(Advance(g, c)) == TraceOf(g)
    ensures TriesOf(Advance(g, c)) == TriesOf(g) + if g.Trying? && c.Send? then [c.result] else []
  {
  }

  lemma MainShape(f: FanOut)
    requires Shape(f) && Counted(f) && CanMove(f, Main)
    ensures Shape(DoMain(f))
  {
    if f.pc.Waiting? {
      CountWitness(f.gs, Unsignalled);
      forall i | 0 <= i < |f.gs| ensures f.gs[i].Finished? {
        assert !Unsignalled(f.gs[i]) && !f.gs[i].Idle?;
      }
    }
  }

  lemma MainCounted(f: FanOut)
    requires Shape(f) && Counted(f) && CanMove(f, Main)
    ensures Counted(DoMain(f))
  {
    if f.pc.Acquiring? {
      CountUpdate(f.gs, f.next, Creating, Holding);
      CountUpdate(f.gs, f.next, Creating, Unsignalled);
    }
  }

  lemma SuccessesReplace(queues: seq<QueueRef>, gs: seq<Goroutine>, m: map<Id, Id>, i: nat, g: Goroutine)
    requires |gs| == |queues| && i < |gs| && DistinctIds(queues)
    requires SuccessesStored(queues, gs, m) && (InSuccesses(gs[i]) ==> InSuccesses(g))
    ensures InSuccesses(g) ==> SuccessesStored(queues, gs[i := g], m[queues[i].id := queues[i].messageId])
    ensures InSuccesses(g) == InSuccesses(gs[i]) ==> SuccessesStored(queues, gs[i := g], m)
  {
  }

  lemma TracesReplace(queues: seq<QueueRef>, gs: seq<Goroutine>, m: map<Id, Id>, i: nat, g: Goroutine)
    requires |gs| == |queues| && i < |gs| && DistinctIds(queues)
    requires TracesStored(queues, gs, m)
    requires InTraces(gs[i]) ==> InTraces(g) && TraceOf(g) == TraceOf(gs[i])
    ensures InTraces(g) ==> TracesStored(queues, gs[i := g], m[queues[i].id := TraceOf(g)])
    ensures InTraces(g) == InTraces(gs[i]) ==> TracesStored(queues, gs[i := g], m)
  {
  }

  lemma GoShape(f: FanOut, i: nat, c: Choice)
    requires Shape(f) && CanMove(f, Go(i, c))
    ensures Shape(DoGo(f, i, c))
  {
  }

  lemma GoCounted(f: FanOut, i: nat, c: Choice)
    requires Counted(f) && CanMove(f, Go(i, c))
    ensures Counted(DoGo(f, i, c))
  {
    CountUpdate(f.gs, i, Advance(f.gs[i], c), Holding);
    CountUpdate(f.gs, i, Advance(f.gs[i], c), Unsignalled);
  }

  lemma GoStored(f: FanOut, i: nat, c: Choice)
    requires Consistent(f) && CanMove(f, Go(i, c))
    ensures var f' := DoGo(f, i, c);
            SuccessesStored(f'.queues, f'.gs, f'.successes) && TracesStored(f'.queues, f'.gs, f'.traceIds)
  {
    AdvanceGood(f.gs[i], c);
    SuccessesReplace(f.queues, f.gs, f.successes, i, Advance(f.gs[i], c));
    TracesReplace(f.queues, f.gs, f.traceIds, i, Advance(f.gs[i], c));
  }

  lemma MoveConsistent(f: FanOut, mv: Move)
    requires Consistent(f) && CanMove(f, mv)
    ensures Consistent(DoMove(f, mv))
  {
    match mv
    case Main =>
      MainShape(f);
      MainCounted(f);
      if f.pc.Acquiring? {
        SuccessesReplace(f.queues, f.gs, f.successes, f.next, Creating);
        TracesReplace(f.queues, f.gs, f.traceIds, f.next, Creating);
      }
    case Go(i, c) =>
      GoShape(f, i, c);
      GoCounted(f, i, c);
      GoStored(f, i, c);
  }
}
