/**
  What every schedule of the goroutines has in common: it is never stuck before the
  join, it is short, and it ends where a plain loop over the queues ends.
 */
module FanOutRefinement {
  import opened Entities
  import opened Tables
  import opened Goroutines

  /******* Progress *******/

  function GoRank(g: Goroutine): nat
    requires GoodGoroutine(g)
  {
    match g
    case Idle => 10
    case Creating => 9
    case Trying(_, tries) => 8 - |tries|
    case Encoding(_, _) => 4
    case Storing(_, _) => 3
    case Leaving(_) => 2
    case Signalling(_) => 1
    case Finished(_) => 0
  }

  function GoRanks(gs: seq<Goroutine>): nat
    requires forall i :: 0 <= i < |gs| ==> GoodGoroutine(gs[i])
  {
    if gs == [] then 0 else GoRanks(gs[..|gs| - 1]) + GoRank(gs[|gs| - 1])
  }

  function MainRank(f: FanOut): int {
    match f.pc
    case Adding => 2 * (|f.gs| - f.next) + 2
    case Acquiring => 2 * (|f.gs| - f.next) + 1
    case Waiting => 1
    case Joined => 0
  }

  function Rank(f: FanOut): int
    requires forall i :: 0 <= i < |f.gs| ==> GoodGoroutine(f.gs[i])
  {
    GoRanks(f.gs) + MainRank(f)
  }

  lemma {:induction false} RanksUpdate(gs: seq<Goroutine>, i: nat, g: Goroutine)
    requires i < |gs| && GoodGoroutine(g)
    requires forall k :: 0 <= k < |gs| ==> GoodGoroutine(gs[k])
    ensures GoRanks(gs[i := g]) == GoRanks(gs) - GoRank(gs[i]) + GoRank(g)
  {
    var n := |gs| - 1;
    if i == n {
      assert gs[i := g][..n] == gs[..n];
    } else {
      assert gs[i := g][..n] == gs[..n][i := g];
      RanksUpdate(gs[..n], i, g);
    }
  }

  lemma {:induction false} IdleRanks(gs: seq<Goroutine>)
    requires forall k :: 0 <= k < |gs| ==> gs[k] == Idle
    ensures GoRanks(gs) == 10 * |gs|
  {
    if gs != [] { IdleRanks(gs[..|gs| - 1]); }
  }

  lemma MoveRank(f: FanOut, mv: Move)
    requires Consistent(f) && CanMove(f, mv)
    ensures Consistent(DoMove(f, mv)) && Rank(DoMove(f, mv)) < Rank(f)
  {
    MoveConsistent(f, mv);
    match mv
    case Main =>
      if f.pc.Acquiring? { RanksUpdate(f.gs, f.next, Creating); }
    case Go(i, c) =>
      AdvanceGood(f.gs[i], c);
      RanksUpdate(f.gs, i, Advance(f.gs[i], c));
  }

  /** No state short of the join is stuck: the main loop can move, or a goroutine it waits for can. */
  lemma NeverStuck(f: FanOut)
    requires Consistent(f) && f.pc != Joined
    ensures exists mv :: CanMove(f, mv)
  {
    if !CanMove(f, Main) {
      CountWitness(f.gs, Holding);
      CountWitness(f.gs, Unsignalled);
      var i :| 0 <= i < |f.gs| && Unsignalled(f.gs[i]);
      var c := if f.gs[i].Creating? then Create(0)
               else if f.gs[i].Trying? && |f.gs[i].tries| == 0 then Send(Acked)
               else if f.gs[i].Trying? then Fail
               else Proceed;
      assert CanMove(f, Go(i, c));
    }
  }

  lemma NothingAfterJoin(f: FanOut)
    requires Shape(f) && f.pc.Joined?
    ensures !exists mv :: CanMove(f, mv)
  {
  }

  /** Every move of the schedule is enabled when its turn comes. */
  ghost predicate Enabled(f: FanOut, moves: seq<Move>)
    decreases |moves|
  {
    moves == [] || (CanMove(f, moves[0]) && Enabled(DoMove(f, moves[0]), moves[1..]))
  }

  ghost function After(f: FanOut, moves: seq<Move>): FanOut
    requires Enabled(f, moves)
    decreases |moves|
  {
    if moves == [] then f else After(DoMove(f, moves[0]), moves[1..])
  }

  lemma {:induction false} ScheduleLength(f: FanOut, moves: seq<Move>)
    requires Consistent(f) && Enabled(f, moves)
    ensures Consistent(After(f, moves)) && |moves| + Rank(After(f, moves)) <= Rank(f)
    ensures After(f, moves).queues == f.queues
    decreases |moves|
  {
    if moves != [] {
      MoveRank(f, moves[0]);
      ScheduleLength(DoMove(f, moves[0]), moves[1..]);
    }
  }

  lemma {:induction false} EnabledAppend(f: FanOut, a: seq<Move>, b: seq<Move>)
    requires Enabled(f, a) && Enabled(After(f, a), b)
    ensures Enabled(f, a + b) && After(f, a + b) == After(After(f, a), b)
    decreases |a|
  {
    if a == [] {
      assert a + b == b;
    } else {
      assert (a + b)[0] == a[0] && (a + b)[1..] == a[1..] + b;
      EnabledAppend(DoMove(f, a[0]), a[1..], b);
    }
  }

  /** Some schedule leads from here to the join. */
  lemma {:induction false} ReachesJoin(f: FanOut) returns (moves: seq<Move>)
    requires Consistent(f)
    ensures Enabled(f, moves) && After(f, moves).pc.Joined?
    decreases Rank(f)
  {
    moves := [];
    if !f.pc.Joined? {
      NeverStuck(f);
      var mv :| CanMove(f, mv);
      MoveRank(f, mv);
      var rest := ReachesJoin(DoMove(f, mv));
      moves := [mv] + rest;
      assert moves[1..] == rest;
    }
  }

  /**
    The fan-out over n queues: at most ten goroutines hold a slot at any point, no schedule
    has more than 12n + 2 moves, and one that cannot be extended has passed the join.
   */
  lemma FanOutProgress(topic: Topic, queues: seq<QueueRef>, moves: seq<Move>)
    requires DistinctIds(queues) && Enabled(Start(topic, queues), moves)
    ensures var f := After(Start(topic, queues), moves);
            && |moves| <= 12 * |queues| + 2
            && Count(f.gs, Holding) <= 10
            && (f.pc.Joined? <==> !exists mv :: CanMove(f, mv))
  {
    var f0 := Start(topic, queues);
    StartConsistent(topic, queues);
    IdleRanks(f0.gs);
    ScheduleLength(f0, moves);
    var f := After(f0, moves);
    if f.pc.Joined? { NothingAfterJoin(f); } else { NeverStuck(f); }
  }

  /** While fewer than ten goroutines hold a slot the loop launches the next one. */
  lemma LaunchNext(f: FanOut)
    requires Consistent(f) && f.pc == Adding && f.next < |f.queues| && Count(f.gs, Holding) < 10
    ensures Enabled(f, [Main, Main])
    ensures var f' := After(f, [Main, Main]);
            && Consistent(f') && f'.gs == f.gs[f.next := Creating] && f'.queues == f.queues && f'.topic == f.topic
            && f'.pc == Adding && f'.next == f.next + 1 && Count(f'.gs, Holding) == Count(f.gs, Holding) + 1
  {
    var f1 := DoMove(f, Main);
    MoveConsistent(f, Main);
    MoveConsistent(f1, Main);
    assert [Main, Main][1..] == [Main] && [Main][1..] == [];
    assert After(f1, [Main]) == DoMove(f1, Main);
  }

  function Launches(k: nat): seq<Move> { seq(2 * k, _ => Main) }

  /** And ten there can be: up to ten queues are launched without waiting for any of them. */
  lemma {:induction false} SlotsFill(topic: Topic, queues: seq<QueueRef>, k: nat)
    requires DistinctIds(queues) && k <= 10 && k <= |queues|
    ensures Enabled(Start(topic, queues), Launches(k))
    ensures var f := After(Start(topic, queues), Launches(k));
            && Consistent(f) && f.queues == queues && f.pc == Adding && f.next == k
            && Count(f.gs, Holding) == k
  {
    var f0 := Start(topic, queues);
    if k == 0 {
      StartConsistent(topic, queues);
      CountWitness(f0.gs, Holding);
    } else {
      SlotsFill(topic, queues, k - 1);
      LaunchNext(After(f0, Launches(k - 1)));
      EnabledAppend(f0, Launches(k - 1), [Main, Main]);
      assert Launches(k) == Launches(k - 1) + [Main, Main];
    }
  }

  /** The queues whose send was acked and whose key could be encoded. */
  function DeliveredIds(f: FanOut): set<Id>
    requires |f.gs| == |f.queues|
  {
    set i | 0 <= i < |f.gs| && Over(f.gs[i]) && f.gs[i].outcome.Delivered? :: f.queues[i].id
  }

  /** At the join both maps have exactly the delivered queues as keys. */
  lemma JoinKeys(f: FanOut)
    requires Consistent(f) && f.pc.Joined?
    ensures f.successes.Keys == f.traceIds.Keys == DeliveredIds(f)
    ensures forall i :: 0 <= i < |f.gs| ==>
              (f.queues[i].id in f.successes
               <==> WasAcked(TriesOf(f.gs[i])) && !f.gs[i].outcome.NotEncoded?)
  {
    forall i | 0 <= i < |f.gs|
      ensures f.queues[i].id in f.successes <==> WasAcked(TriesOf(f.gs[i])) && !f.gs[i].outcome.NotEncoded?
      ensures f.queues[i].id in f.successes <==> f.queues[i].id in f.traceIds
    {
      assert GoodGoroutine(f.gs[i]);
    }
  }

  /******* The sequential loop *******/

  datatype LoopState = LoopState(log: seq<Record>, successes: map<Id, Id>, traceIds: map<Id, Id>)

  /** How many of the calls left a record in the log. */
  function Kept(tries: seq<Try>): nat {
    if tries == [] then 0
    else Kept(tries[..|tries| - 1]) + if tries[|tries| - 1] == NotKept then 0 else 1
  }

  function Copies(r: Record, n: nat): seq<Record> { seq(n, i => r) }

  function SentBy(topic: Topic, q: QueueRef, o: Outcome): seq<Record> {
    if o.NotCreated? then [] else Copies(Record(topic, q.id, o.traceId), Kept(o.tries))
  }

  /** One queue after another, with the given outcomes. */
  function Sequential(topic: Topic, queues: seq<QueueRef>, outcomes: seq<Outcome>): LoopState
    requires |queues| == |outcomes|
  {
    if queues == [] then LoopState([], map[], map[])
    else
      var n := |queues| - 1;
      var prev := Sequential(topic, queues[..n], outcomes[..n]);
      var q, o := queues[n], outcomes[n];
      LoopState(
        prev.log + SentBy(topic, q, o),
        if o.Delivered? then prev.successes[q.id := q.messageId] else prev.successes,
        if o.Delivered? then prev.traceIds[q.id := o.traceId] else prev.traceIds)
  }

  /** The tables after both batch updates. */
  function EnqueueStore(s: Store, queues: seq<QueueRef>, successes: map<Id, Id>, traceIds: map<Id, Id>): Store {
    BatchUpdate(BatchUpdate(s, Ids(queues), MessageIds(queues), Process, map[]),
                successes.Keys, ValuesOf(successes), Enqueued, traceIds)
  }

  function Outcomes(f: FanOut): seq<Outcome>
    requires forall i :: 0 <= i < |f.gs| ==> f.gs[i].Finished?
  {
    seq(|f.gs|, i requires 0 <= i < |f.gs| => f.gs[i].outcome)
  }

  /******* Refinement *******/

  function Total(bags: seq<multiset<Record>>): multiset<Record> {
    if bags == [] then multiset{} else Total(bags[..|bags| - 1]) + bags[|bags| - 1]
  }

  lemma {:induction false} TotalUpdate(bags: seq<multiset<Record>>, i: nat, more: multiset<Record>)
    requires i < |bags|
    ensures Total(bags[i := bags[i] + more]) == Total(bags) + more
  {
    var n := |bags| - 1;
    var bags' := bags[i := bags[i] + more];
    if i == n {
      assert bags'[..n] == bags[..n];
    } else {
      assert bags'[..n] == bags[..n][i := bags[i] + more];
      TotalUpdate(bags[..n], i, more);
    }
  }

  lemma {:induction false} TotalOfNone(bags: seq<multiset<Record>>)
    requires forall i :: 0 <= i < |bags| ==> bags[i] == multiset{}
    ensures Total(bags) == multiset{}
  {
    if bags != [] { TotalOfNone(bags[..|bags| - 1]); }
  }

  /** The records each goroutine has put into the log. */
  function Bags(topic: Topic, queues: seq<QueueRef>, gs: seq<Goroutine>): seq<multiset<Record>>
    requires |queues| == |gs|
  {
    seq(|gs|, i requires 0 <= i < |gs| => RecordsOf(topic, queues[i], gs[i]))
  }

  function Records(topic: Topic, queues: seq<QueueRef>, gs: seq<Goroutine>): multiset<Record>
    requires |queues| == |gs|
  {
    Total(Bags(topic, queues, gs))
  }

  function RecordsOf(topic: Topic, q: QueueRef, g: Goroutine): multiset<Record> {
    if HasTries(g) then multiset(Copies(Record(topic, q.id, TraceOf(g)), Kept(TriesOf(g)))) else multiset{}
  }

  lemma RecordsUpdate(topic: Topic, queues: seq<QueueRef>, gs: seq<Goroutine>, i: nat, g: Goroutine,
                      more: multiset<Record>)
    requires |queues| == |gs| && i < |gs|
    requires RecordsOf(topic, queues[i], g) == RecordsOf(topic, queues[i], gs[i]) + more
    ensures Records(topic, queues, gs[i := g]) == Records(topic, queues, gs) + more
  {
    var bags := Bags(topic, queues, gs);
    TotalUpdate(bags, i, more);
    assert Bags(topic, queues, gs[i := g]) == bags[i := bags[i] + more];
  }

  lemma CopiesMore(r: Record, n: nat)
    ensures multiset(Copies(r, n + 1)) == multiset(Copies(r, n)) + multiset{r}
  {
    assert Copies(r, n + 1) == Copies(r, n) + [r];
  }

  lemma TryRecords(topic: Topic, q: QueueRef, t: Id, tries: seq<Try>, result: Try)
    ensures RecordsOf(topic, q, AfterTry(t, tries, result)) ==
            RecordsOf(topic, q, Trying(t, tries)) +
            if result != NotKept then multiset{Record(topic, q.id, t)} else multiset{}
  {
    assert (tries + [result])[..|tries + [result]| - 1] == tries;
    CopiesMore(Record(topic, q.id, t), Kept(tries));
  }

  lemma AdvanceRecords(topic: Topic, q: QueueRef, g: Goroutine, c: Choice)
    requires GoodGoroutine(g) && CanGo(g, c)
    ensures RecordsOf(topic, q, Advance(g, c)) == RecordsOf(topic, q, g) +
            if g.Trying? && c.Send? && c.result != NotKept then multiset{Record(topic, q.id, g.traceId)} else multiset{}
  {
    if g.Trying? && c.Send? {
      TryRecords(topic, q, g.traceId, g.tries, c.result);
    } else if g.Creating? {
      assert RecordsOf(topic, q, Advance(g, c)) == multiset{};
    } else {
      AdvanceGood(g, c);
      assert HasTries(Advance(g, c)) == HasTries(g);
    }
  }

  lemma MoveRecords(f: FanOut, mv: Move)
    requires Consistent(f) && CanMove(f, mv)
    ensures var f' := DoMove(f, mv);
            && |f'.gs| == |f'.queues| == |f.queues| == |f.gs|
            && Records(f'.topic, f'.queues, f'.gs) ==
               Records(f.topic, f.queues, f.gs) + multiset(Emitted(f, mv))
  {
    match mv
    case Main =>
      if f.pc.Acquiring? { RecordsUpdate(f.topic, f.queues, f.gs, f.next, Creating, multiset{}); }
    case Go(i, c) =>
      AdvanceRecords(f.topic, f.queues[i], f.gs[i], c);
      RecordsUpdate(f.topic, f.queues, f.gs, i, Advance(f.gs[i], c), multiset(Emitted(f, mv)));
  }

  lemma {:induction false} RunInv(topic: Topic, queues: seq<QueueRef>, moves: seq<Move>)
    requires DistinctIds(queues)
    ensures var (f, log) := Schedule(Start(topic, queues), moves);
            && Consistent(f) && f.queues == queues && f.topic == topic
            && multiset(log) == Records(topic, queues, f.gs)
  {
    if moves == [] {
      StartConsistent(topic, queues);
      TotalOfNone(Bags(topic, queues, Start(topic, queues).gs));
    } else {
      RunInv(topic, queues, moves[..|moves| - 1]);
      var (g, log) := Schedule(Start(topic, queues), moves[..|moves| - 1]);
      var mv := moves[|moves| - 1];
      if CanMove(g, mv) {
        MoveConsistent(g, mv);
        MoveRecords(g, mv);
      }
    }
  }

  /** With every goroutine finished, the maps are those of the plain loop. */
  lemma {:induction false} FinishedMaps(
    topic: Topic, queues: seq<QueueRef>, gs: seq<Goroutine>, outcomes: seq<Outcome>,
    successes: map<Id, Id>, traceIds: map<Id, Id>)
    requires |queues| == |gs| == |outcomes| && DistinctIds(queues)
    requires forall i :: 0 <= i < |gs| ==> gs[i] == Finished(outcomes[i])
    requires SuccessesStored(queues, gs, successes) && TracesStored(queues, gs, traceIds)
    ensures Sequential(topic, queues, outcomes).successes == successes
    ensures Sequential(topic, queues, outcomes).traceIds == traceIds
    decreases |queues|
  {
    if queues == [] {
      assert Ids(queues) == {};
    } else {
      var n := |queues| - 1;
      var q := queues[n];
      SuccessesWithout(queues, gs, successes);
      TracesWithout(queues, gs, traceIds);
      FinishedMaps(topic, queues[..n], gs[..n], outcomes[..n], successes - {q.id}, traceIds - {q.id});
      assert InSuccesses(gs[n]) <==> outcomes[n].Delivered?;
      assert InTraces(gs[n]) <==> outcomes[n].Delivered?;
    }
  }

  lemma SuccessesWithout(queues: seq<QueueRef>, gs: seq<Goroutine>, m: map<Id, Id>)
    requires |queues| == |gs| > 0 && DistinctIds(queues) && SuccessesStored(queues, gs, m)
    ensures var n := |queues| - 1;
            && SuccessesStored(queues[..n], gs[..n], m - {queues[n].id})
            && m == if InSuccesses(gs[n]) then (m - {queues[n].id})[queues[n].id := queues[n].messageId]
                    else m - {queues[n].id}
  {
  }

  lemma TracesWithout(queues: seq<QueueRef>, gs: seq<Goroutine>, m: map<Id, Id>)
    requires |queues| == |gs| > 0 && DistinctIds(queues) && TracesStored(queues, gs, m)
    ensures var n := |queues| - 1;
            && TracesStored(queues[..n], gs[..n], m - {queues[n].id})
            && m == if InTraces(gs[n]) then (m - {queues[n].id})[queues[n].id := TraceOf(gs[n])]
                    else m - {queues[n].id}
  {
  }

  /** And the records are those of the plain loop. */
  lemma {:induction false} FinishedRecords(topic: Topic, queues: seq<QueueRef>, gs: seq<Goroutine>,
                                           outcomes: seq<Outcome>)
    requires |queues| == |gs| == |outcomes|
    requires forall i :: 0 <= i < |gs| ==> gs[i] == Finished(outcomes[i])
    ensures multiset(Sequential(topic, queues, outcomes).log) == Records(topic, queues, gs)
    decreases |queues|
  {
    if queues != [] {
      var n := |queues| - 1;
      FinishedRecords(topic, queues[..n], gs[..n], outcomes[..n]);
      assert Bags(topic, queues, gs)[..n] == Bags(topic, queues[..n], gs[..n]);
      assert multiset(SentBy(topic, queues[n], outcomes[n])) == RecordsOf(topic, queues[n], gs[n]);
    }
  }

  /**
    Every interleaving that reaches the join leaves the tables, and the multiset of records
    in the log, exactly as the sequential loop with the same outcomes leaves them.
   */
  lemma FanOutRefines(topic: Topic, queues: seq<QueueRef>, moves: seq<Move>, s: Store)
    requires DistinctIds(queues)
    requires Schedule(Start(topic, queues), moves).0.pc.Joined?
    ensures var (f, log) := Schedule(Start(topic, queues), moves);
            && (forall i :: 0 <= i < |f.gs| ==> f.gs[i].Finished? && GoodOutcome(f.gs[i].outcome))
            && |f.gs| == |queues|
            && var r := Sequential(topic, queues, Outcomes(f));
            && multiset(log) == multiset(r.log)
            && EnqueueStore(s, queues, f.successes, f.traceIds) == EnqueueStore(s, queues, r.successes, r.traceIds)
  {
    RunInv(topic, queues, moves);
    var (f, log) := Schedule(Start(topic, queues), moves);
    forall i | 0 <= i < |f.gs| ensures f.gs[i].Finished? && GoodOutcome(f.gs[i].outcome) {
      assert GoodGoroutine(f.gs[i]);
    }
    FinishedMaps(topic, queues, f.gs, Outcomes(f), f.successes, f.traceIds);
    FinishedRecords(topic, queues, f.gs, Outcomes(f));
  }
}
