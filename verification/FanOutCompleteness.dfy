/** The other half of the refinement: the goroutines can end with any outcomes the plain loop can have. */
module FanOutCompleteness {
  import opened Entities
  import opened Goroutines
  import opened FanOutRefinement

  /** What one goroutine does on the way to an outcome. */
  function Sends(tries: seq<Try>): seq<Choice> { seq(|tries|, i requires 0 <= i < |tries| => Send(tries[i])) }

  function Script(o: Outcome): seq<Choice> {
    match o
    case NotCreated => [Fail, Proceed, Proceed]
    case NotSent(t, tries) => [Create(t)] + Sends(tries) + [Fail, Proceed, Proceed]
    case NotEncoded(t, tries) => [Create(t)] + Sends(tries) + [Fail, Proceed, Proceed]
    case Delivered(t, tries) => [Create(t)] + Sends(tries) + [Proceed, Proceed, Proceed, Proceed]
  }

  /** Where the choices lead a goroutine, if each can be taken. */
  function Follow(g: Goroutine, cs: seq<Choice>): Option<Goroutine>
    decreases |cs|
  {
    if cs == [] then Some(g)
    else if CanGo(g, cs[0]) then Follow(Advance(g, cs[0]), cs[1..])
    else None
  }

  lemma {:induction false} FollowAppend(g: Goroutine, a: seq<Choice>, b: seq<Choice>)
    requires Follow(g, a).Some?
    ensures Follow(g, a + b) == Follow(Follow(g, a).value, b)
    decreases |a|
  {
    if a == [] {
      assert a + b == b;
    } else {
      assert (a + b)[1..] == a[1..] + b;
      FollowAppend(Advance(g, a[0]), a[1..], b);
    }
  }

  /** The calls of a retry: all but the last have failed. */
  lemma {:induction false} SendsFollow(t: Id, tries: seq<Try>)
    requires WithinRetry(tries)
    ensures Follow(Trying(t, []), Sends(tries)) ==
            Some(if WasAcked(tries) then Encoding(t, tries) else Trying(t, tries))
  {
    if tries != [] {
      var n := |tries| - 1;
      SendsFollow(t, tries[..n]);
      assert Sends(tries) == Sends(tries[..n]) + [Send(tries[n])];
      assert tries[..n] != [] ==> tries[..n][n - 1] != Acked;
      FollowAppend(Trying(t, []), Sends(tries[..n]), [Send(tries[n])]);
      assert tries[..n] + [tries[n]] == tries;
      FollowOne(Trying(t, tries[..n]), Send(tries[n]));
    }
  }

  lemma FollowOne(g: Goroutine, c: Choice)
    requires CanGo(g, c)
    ensures Follow(g, [c]) == Some(Advance(g, c))
  {
  }

  lemma FollowThree(g: Goroutine, a: Choice, b: Choice, c: Choice)
    requires CanGo(g, a) && CanGo(Advance(g, a), b) && CanGo(Advance(Advance(g, a), b), c)
    ensures Follow(g, [a, b, c]) == Some(Advance(Advance(Advance(g, a), b), c))
  {
    assert [a, b, c][1..] == [b, c] && [b, c][1..] == [c];
    FollowOne(Advance(Advance(g, a), b), c);
  }

  /** From the sends on. */
  lemma TailFollows(o: Outcome)
    requires GoodOutcome(o) && !o.NotCreated?
    ensures Follow(if WasAcked(o.tries) then Encoding(o.traceId, o.tries) else Trying(o.traceId, o.tries),
                   Script(o)[1 + |o.tries|..]) == Some(Finished(o))
  {
    var g := if WasAcked(o.tries) then Encoding(o.traceId, o.tries) else Trying(o.traceId, o.tries);
    if o.Delivered? {
      assert Script(o)[1 + |o.tries|..] == [Proceed] + [Proceed, Proceed, Proceed];
      FollowOne(g, Proceed);
      FollowAppend(g, [Proceed], [Proceed, Proceed, Proceed]);
      FollowThree(Storing(o.traceId, o.tries), Proceed, Proceed, Proceed);
    } else {
      assert Script(o)[1 + |o.tries|..] == [Fail, Proceed, Proceed];
      FollowThree(g, Fail, Proceed, Proceed);
    }
  }

  lemma ScriptFollows(o: Outcome)
    requires GoodOutcome(o)
    ensures Follow(Creating, Script(o)) == Some(Finished(o))
  {
    if o.NotCreated? {
      FollowThree(Creating, Fail, Proceed, Proceed);
    } else {
      var t, sends, tail := o.traceId, Sends(o.tries), Script(o)[1 + |o.tries|..];
      assert Script(o) == [Create(t)] + (sends + tail);
      FollowOne(Creating, Create(t));
      FollowAppend(Creating, [Create(t)], sends + tail);
      SendsFollow(t, o.tries);
      FollowAppend(Trying(t, []), sends, tail);
      TailFollows(o);
    }
  }

  /******* One goroutine after another *******/

  function GoMoves(i: nat, cs: seq<Choice>): seq<Move> { seq(|cs|, k requires 0 <= k < |cs| => Go(i, cs[k])) }

  /** What stays when one goroutine goes its way. */
  ghost predicate Moved(f: FanOut, f': FanOut, i: nat, g: Goroutine)
    requires i < |f.gs|
  {
    && Consistent(f') && f'.gs == f.gs[i := g]
    && f'.queues == f.queues && f'.topic == f.topic && f'.pc == f.pc && f'.next == f.next
  }

  lemma {:induction false} GoroutineRuns(f: FanOut, i: nat, cs: seq<Choice>)
    requires Consistent(f) && i < |f.gs| && Follow(f.gs[i], cs).Some?
    ensures Enabled(f, GoMoves(i, cs)) && Moved(f, After(f, GoMoves(i, cs)), i, Follow(f.gs[i], cs).value)
    decreases |cs|
  {
    if cs != [] {
      var f1 := DoMove(f, Go(i, cs[0]));
      MoveConsistent(f, Go(i, cs[0]));
      assert GoMoves(i, cs)[1..] == GoMoves(i, cs[1..]);
      GoroutineRuns(f1, i, cs[1..]);
      assert f1.gs == f.gs[i := Advance(f.gs[i], cs[0])];
    }
  }

  /** The first i queues are through and the loop is about to launch the next. */
  ghost predicate Through(f: FanOut, topic: Topic, queues: seq<QueueRef>, outcomes: seq<Outcome>, i: nat) {
    && Consistent(f) && f.topic == topic && f.queues == queues && |outcomes| == |queues|
    && f.pc == Adding && f.next == i <= |queues|
    && forall k :: 0 <= k < i ==> f.gs[k] == Finished(outcomes[k])
  }

  lemma OneQueue(f: FanOut, topic: Topic, queues: seq<QueueRef>, outcomes: seq<Outcome>, i: nat)
      returns (moves: seq<Move>)
    requires Through(f, topic, queues, outcomes, i) && i < |queues| && GoodOutcome(outcomes[i])
    ensures Enabled(f, moves) && Through(After(f, moves), topic, queues, outcomes, i + 1)
  {
    CountWitness(f.gs, Holding);
    assert forall k :: 0 <= k < |f.gs| ==> !Holding(f.gs[k]);
    LaunchNext(f);
    var f1 := After(f, [Main, Main]);
    ScriptFollows(outcomes[i]);
    GoroutineRuns(f1, i, Script(outcomes[i]));
    EnabledAppend(f, [Main, Main], GoMoves(i, Script(outcomes[i])));
    moves := [Main, Main] + GoMoves(i, Script(outcomes[i]));
  }

  lemma {:induction false} QueuesFrom(f: FanOut, topic: Topic, queues: seq<QueueRef>, outcomes: seq<Outcome>, i: nat)
      returns (moves: seq<Move>)
    requires Through(f, topic, queues, outcomes, i)
    requires forall k :: 0 <= k < |outcomes| ==> GoodOutcome(outcomes[k])
    ensures Enabled(f, moves) && Through(After(f, moves), topic, queues, outcomes, |queues|)
    decreases |queues| - i
  {
    moves := [];
    if i < |queues| {
      var first := OneQueue(f, topic, queues, outcomes, i);
      var rest := QueuesFrom(After(f, first), topic, queues, outcomes, i + 1);
      EnabledAppend(f, first, rest);
      moves := first + rest;
    }
  }

  /** The loop waits for nobody and joins. */
  lemma JoinsAtOnce(f: FanOut, topic: Topic, queues: seq<QueueRef>, outcomes: seq<Outcome>)
    requires Through(f, topic, queues, outcomes, |queues|)
    ensures Enabled(f, [Main, Main])
    ensures After(f, [Main, Main]).pc == Joined && After(f, [Main, Main]).gs == f.gs
  {
    var f1 := DoMove(f, Main);
    MoveConsistent(f, Main);
    CountWitness(f1.gs, Unsignalled);
    assert forall k :: 0 <= k < |f1.gs| ==> !Unsignalled(f1.gs[k]);
    assert [Main, Main][1..] == [Main] && [Main][1..] == [];
    assert After(f1, [Main]) == DoMove(f1, Main);
  }

  lemma {:induction false} ScheduleCons(f: FanOut, mv: Move, rest: seq<Move>)
    requires CanMove(f, mv)
    ensures Schedule(f, [mv] + rest).0 == Schedule(DoMove(f, mv), rest).0
    decreases |rest|
  {
    var all := [mv] + rest;
    if rest == [] {
      assert all[..0] == [];
    } else {
      ScheduleCons(f, mv, rest[..|rest| - 1]);
      assert all[..|all| - 1] == [mv] + rest[..|rest| - 1];
    }
  }

  /** A schedule whose moves are all enabled is a schedule in the sense of the refinement. */
  lemma {:induction false} EnabledIsSchedule(f: FanOut, moves: seq<Move>)
    requires Enabled(f, moves)
    ensures Schedule(f, moves).0 == After(f, moves)
    decreases |moves|
  {
    if moves != [] {
      EnabledIsSchedule(DoMove(f, moves[0]), moves[1..]);
      ScheduleCons(f, moves[0], moves[1..]);
      assert moves == [moves[0]] + moves[1..];
    }
  }

  /**
    For any outcomes the retries allow, some schedule of the goroutines reaches the join with exactly
    those outcomes: interleaving neither adds to nor takes from what the plain loop can do.
   */
  lemma EveryOutcomeReached(topic: Topic, queues: seq<QueueRef>, outcomes: seq<Outcome>) returns (moves: seq<Move>)
    requires DistinctIds(queues) && |outcomes| == |queues|
    requires forall k :: 0 <= k < |outcomes| ==> GoodOutcome(outcomes[k])
    ensures Enabled(Start(topic, queues), moves)
    ensures var f := Schedule(Start(topic, queues), moves).0;
            f.pc.Joined? && |f.gs| == |outcomes| && forall k :: 0 <= k < |outcomes| ==> f.gs[k] == Finished(outcomes[k])
  {
    var f0 := Start(topic, queues);
    StartConsistent(topic, queues);
    moves := QueuesFrom(f0, topic, queues, outcomes, 0);
    JoinsAtOnce(After(f0, moves), topic, queues, outcomes);
    EnabledAppend(f0, moves, [Main, Main]);
    moves := moves + [Main, Main];
    EnabledIsSchedule(f0, moves);
  }
}
