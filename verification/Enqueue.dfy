/** The enqueue call written as the plain loop over the queues, with its retries and batch updates. */
module Enqueue {
  import opened Entities
  import opened Tables
  import opened Goroutines
  import opened FanOutRefinement
  import opened Database
  import opened Iteration

  /** The Kafka producer: what it has put into the log. */
  class Broker {
    var log: seq<Record>

    constructor ()
      ensures log == []
    {
      log := [];
    }

    method SendMessage(r: Record, result: Try) returns (ok: bool)
      modifies this
      ensures ok <==> result == Acked
      ensures log == old(log) + if result == NotKept then [] else [r]
    {
      if result != NotKept {
        log := log + [r];
      }
      ok := result == Acked;
    }
  }

  /** What the environment decides about the sends of one queue. */
  datatype SendEnv = SendEnv(trace: Option<Id>, script: nat -> Try, done: nat -> bool, encodes: bool)

  /** Every try follows the script; another one follows a failure while the context lasts, up to three. */
  ghost predicate RetriesOf(tries: seq<Try>, script: nat -> Try, done: nat -> bool) {
    && 1 <= |tries| <= MAX_TRIES
    && (forall i: nat :: i < |tries| ==> tries[i] == script(i))
    && (forall i: nat :: i < |tries| - 1 ==> tries[i] != Acked && !done(i))
    && (WasAcked(tries) || |tries| == MAX_TRIES || done(|tries| - 1))
  }

  /** One more call leaves one more copy, or none. */
  lemma OneMoreCopy(log: seq<Record>, r: Record, tries: seq<Try>, t: Try)
    ensures log + Copies(r, Kept(tries + [t])) == log + Copies(r, Kept(tries)) + if t == NotKept then [] else [r]
  {
  }

  /** Every call so far failed and the context was still there afterwards. */
  ghost predicate AllFailed(tries: seq<Try>, script: nat -> Try, done: nat -> bool) {
    forall i: nat :: i < |tries| ==> tries[i] == script(i) && tries[i] != Acked && !done(i)
  }

  /** The next call ends the retries or leaves them all failed. */
  lemma NextTry(tries: seq<Try>, script: nat -> Try, done: nat -> bool)
    requires AllFailed(tries, script, done) && |tries| < MAX_TRIES
    ensures var n, all := |tries|, tries + [script(|tries|)];
            && (WasAcked(all) <==> script(n) == Acked)
            && (script(n) == Acked || done(n) ==> RetriesOf(all, script, done) && WithinRetry(all))
            && (script(n) != Acked && !done(n) ==> AllFailed(all, script, done))
  {
  }

  lemma RetriesExhausted(tries: seq<Try>, script: nat -> Try, done: nat -> bool)
    requires AllFailed(tries, script, done) && |tries| == MAX_TRIES
    ensures RetriesOf(tries, script, done) && WithinRetry(tries) && !WasAcked(tries)
  {
  }

  /** One of three calls is acked, and the context was still there after each one before it. */
  ghost predicate AckedInTime(script: nat -> Try, done: nat -> bool) {
    exists k: nat :: k < 3 && script(k) == Acked && forall i: nat :: i < k ==> !done(i)
  }

  /** How many calls are made, and whether the last one is acked. */
  ghost predicate CallsMade(tries: seq<Try>, script: nat -> Try, done: nat -> bool) {
    && 1 <= |tries| <= 3
    && (|tries| >= 2 <==> script(0) != Acked && !done(0))
    && (|tries| == 3 <==> script(0) != Acked && !done(0) && script(1) != Acked && !done(1))
    && (WasAcked(tries) <==> AckedInTime(script, done))
  }

  /** A call is followed by another one exactly when it fails and the context goes on, up to the third. */
  lemma RetriesExactly(tries: seq<Try>, script: nat -> Try, done: nat -> bool)
    requires RetriesOf(tries, script, done)
    ensures CallsMade(tries, script, done)
  {
    var n := |tries| - 1;
    assert tries[n] == script(n) && tries[0] == script(0) && (n > 0 ==> tries[1] == script(1));
    if AckedInTime(script, done) {
      var k: nat :| k < 3 && script(k) == Acked && forall i: nat :: i < k ==> !done(i);
    }
    if WasAcked(tries) {
      assert forall i: nat :: i < n ==> !done(i);
    }
  }

  method WithRetry(broker: Broker, r: Record, script: nat -> Try, done: nat -> bool)
      returns (tries: seq<Try>, ok: bool)
    modifies broker
    ensures RetriesOf(tries, script, done) && WithinRetry(tries) && CallsMade(tries, script, done)
    ensures ok <==> AckedInTime(script, done)
    ensures broker.log == old(broker.log) + Copies(r, Kept(tries))
  {
    tries := [];
    ghost var log0 := broker.log;
    for i := 0 to MAX_TRIES
      invariant |tries| == i && AllFailed(tries, script, done)
      invariant broker.log == log0 + Copies(r, Kept(tries))
    {
      ok := broker.SendMessage(r, script(i));
      OneMoreCopy(log0, r, tries, script(i));
      NextTry(tries, script, done);
      tries := tries + [script(i)];
      if ok {
        RetriesExactly(tries, script, done);
        return tries, true;
      }
      if done(i) {
        RetriesExactly(tries, script, done);
        return tries, false;
      }
    }
    RetriesExhausted(tries, script, done);
    RetriesExactly(tries, script, done);
    ok := false;
  }

  /** The outcome that these events lead to. */
  ghost predicate Follows(o: Outcome, env: SendEnv) {
    && GoodOutcome(o)
    && (env.trace.None? <==> o.NotCreated?)
    && (env.trace.Some? ==>
          && o.traceId == env.trace.value
          && RetriesOf(o.tries, env.script, env.done)
          && (o.Delivered? <==> WasAcked(o.tries) && env.encodes))
  }

  ghost predicate AllFollow(outcomes: seq<Outcome>, envs: seq<SendEnv>) {
    |outcomes| == |envs| && forall i :: 0 <= i < |outcomes| ==> Follows(outcomes[i], envs[i])
  }

  /** Two retries under the same answers are the same. */
  lemma RetriesAgree(a: seq<Try>, b: seq<Try>, script: nat -> Try, done: nat -> bool)
    requires RetriesOf(a, script, done) && RetriesOf(b, script, done)
    ensures a == b
  {
    NotLonger(a, b, script, done);
    NotLonger(b, a, script, done);
  }

  lemma NotLonger(a: seq<Try>, b: seq<Try>, script: nat -> Try, done: nat -> bool)
    requires RetriesOf(a, script, done) && RetriesOf(b, script, done)
    ensures |b| <= |a|
  {
    var n := |a| - 1;
    assert a[n] == script(n);
    if |a| < |b| { assert false; }
  }

  /** There is no other: what happens around one queue's send determines its outcome. */
  lemma OutcomeDetermined(o1: Outcome, o2: Outcome, env: SendEnv)
    requires Follows(o1, env) && Follows(o2, env)
    ensures o1 == o2
  {
    if env.trace.Some? { RetriesAgree(o1.tries, o2.tries, env.script, env.done); }
  }

  /** How many statements a batch update has before its commit. */
  function Statements(traces: map<Id, Id>): nat { 2 + if traces == map[] then 1 else |traces| }

  function Only(m: map<Id, Id>, keys: set<Id>): map<Id, Id> { map k | k in m && k in keys :: m[k] }

  /** The per-queue updates one after another, in the given order. */
  function TraceFold(ts: map<Id, Target>, order: seq<Id>, traces: map<Id, Id>, st: Status): map<Id, Target>
    requires forall i :: 0 <= i < |order| ==> order[i] in traces
  {
    if order == [] then ts
    else
      var n := |order| - 1;
      SetTargetTrace(TraceFold(ts, order[..n], traces, st), map[order[n] := traces[order[n]]], st)
  }

  /** Marking the targets of one more queue is what marking all of them together comes to. */
  lemma TraceMore(ts: map<Id, Target>, traces: map<Id, Id>, marked: set<Id>, q: Id, st: Status)
    requires q in traces && q !in marked
    ensures SetTargetTrace(SetTargetTrace(ts, Only(traces, marked), st), map[q := traces[q]], st)
            == SetTargetTrace(ts, Only(traces, marked + {q}), st)
  {
  }

  /** The per-queue updates commute: any order of the traced queues gives the one simultaneous update. */
  lemma {:induction false} TraceFoldIsSet(ts: map<Id, Target>, order: seq<Id>, traces: map<Id, Id>, st: Status)
    requires Distinct(order) && forall i :: 0 <= i < |order| ==> order[i] in traces
    ensures TraceFold(ts, order, traces, st) == SetTargetTrace(ts, Only(traces, SetOf(order)), st)
  {
    if order != [] {
      var n := |order| - 1;
      TraceFoldIsSet(ts, order[..n], traces, st);
      TraceMore(ts, traces, SetOf(order[..n]), order[n], st);
      assert SetOf(order) == SetOf(order[..n]) + {order[n]};
    }
  }

  lemma TraceFoldAll(ts: map<Id, Target>, order: seq<Id>, traces: map<Id, Id>, st: Status)
    requires ListsKeys(order, traces)
    ensures TraceFold(ts, order, traces, st) == SetTargetTrace(ts, traces, st)
  {
    TraceFoldIsSet(ts, order, traces, st);
    SameKeys(traces, order);
  }

  lemma TraceFoldMore(ts: map<Id, Target>, order: seq<Id>, i: nat, traces: map<Id, Id>, st: Status)
    requires i < |order| && forall k :: 0 <= k < |order| ==> order[k] in traces
    ensures TraceFold(ts, order[..i + 1], traces, st)
            == SetTargetTrace(TraceFold(ts, order[..i], traces, st), map[order[i] := traces[order[i]]], st)
  {
    assert order[..i + 1][..i] == order[..i];
  }

  /** No statement or commit of the transaction is among the faults. */
  ghost predicate Commits(traces: map<Id, Id>, faults: set<nat>) { Passes(Statements(traces), faults) }

  /** The store after one enqueue call whose first batch has committed. */
  ghost function AfterEnqueue(s: Store, topic: Topic, queues: seq<QueueRef>, outcomes: seq<Outcome>,
                              second: set<nat>): Store
    requires |outcomes| == |queues|
  {
    var r := Sequential(topic, queues, outcomes);
    if Commits(r.traceIds, second) then EnqueueStore(s, queues, r.successes, r.traceIds)
    else BatchUpdate(s, Ids(queues), MessageIds(queues), Process, map[])
  }

  class NotifyService {
    const db: Db
    const broker: Broker

    constructor (db: Db, broker: Broker)
      ensures this.db == db && this.broker == broker
    {
      this.db, this.broker := db, broker;
    }

    /** One pair of updates per traced queue, in whatever order the map yields them. */
    method UpdateTraces(st: Status, traceIDs: map<Id, Id>, faults: set<nat>) returns (ok: bool)
      modifies db`targets
      ensures ok <==> Between(2, 2 + |traceIDs|, faults)
      ensures ok ==> db.targets == SetTargetTrace(old(db.targets), traceIDs, st)
    {
      var order := Range(traceIDs);
      ghost var ts0 := db.targets;
      for i := 0 to |order|
        invariant Between(2, 2 + i, faults)
        invariant db.targets == TraceFold(ts0, order[..i], traceIDs, st)
      {
        BetweenMore(2, 2 + i, 3 + i, faults);
        BetweenMore(2, 3 + i, 2 + |order|, faults);
        if 2 + i in faults {
          return false;
        }
        TraceFoldMore(ts0, order, i, traceIDs, st);
        db.UpdateTargetTrace(order[i], st, traceIDs[order[i]]);
      }
      assert order[..|order|] == order;
      TraceFoldAll(ts0, order, traceIDs, st);
      ok := true;
    }

    /**
      The batch transaction.  The queues of `traceIDs` come in any order; a statement or the
      commit that `faults` names fails, and then nothing of the transaction stays.
     */
    method BatchUpdateDatabase(queueIDs: seq<Id>, messageIDs: seq<Id>, st: Status, traceIDs: map<Id, Id>,
                               faults: set<nat>)
        returns (ok: bool)
      modifies db
      ensures ok <==> Commits(traceIDs, faults)
      ensures ok ==> db.Contents() == BatchUpdate(old(db.Contents()), SetOf(queueIDs), SetOf(messageIDs), st, traceIDs)
      ensures !ok ==> db.Contents() == old(db.Contents())
    {
      var start := db.Contents();
      PassesParts(2, Statements(traceIDs), faults);
      if 0 in faults {
        return false;
      }
      db.UpdateQueues(SetOf(queueIDs), st);
      if 1 in faults {
        db.Rollback(start);
        return false;
      }
      db.UpdateMessages(SetOf(messageIDs), st);
      if |traceIDs| > 0 {
        var traced := UpdateTraces(st, traceIDs, faults);
        if !traced {
          db.Rollback(start);
          return false;
        }
      } else {
        if 2 in faults {
          db.Rollback(start);
          return false;
        }
        db.UpdateTargets(SetOf(queueIDs), st);
      }
      if Statements(traceIDs) in faults {
        db.Rollback(start);
        return false;
      }
      ok := true;
    }

    /** The ids the two batch updates range over. */
    method ExtractBatchData(queues: seq<QueueRef>) returns (queueIDs: seq<Id>, messageIDs: seq<Id>)
      ensures SetOf(queueIDs) == Ids(queues) && SetOf(messageIDs) == MessageIds(queues)
    {
      queueIDs, messageIDs := [], [];
      for i := 0 to |queues|
        invariant |queueIDs| == |messageIDs| == i
        invariant forall k :: 0 <= k < i ==> queueIDs[k] == queues[k].id && messageIDs[k] == queues[k].messageId
      {
        queueIDs := queueIDs + [queues[i].id];
        messageIDs := messageIDs + [queues[i].messageId];
      }
      assert forall k :: 0 <= k < |queues| ==> queueIDs[k] in queueIDs && messageIDs[k] in messageIDs;
    }

    /** Create the record, send it with its retries, and encode its key. */
    method SendOne(topic: Topic, q: QueueRef, env: SendEnv) returns (o: Outcome)
      modifies broker
      ensures Follows(o, env) && broker.log == old(broker.log) + SentBy(topic, q, o)
    {
      if env.trace.None? {
        return NotCreated;
      }
      var tries, ok := WithRetry(broker, Record(topic, q.id, env.trace.value), env.script, env.done);
      if !ok {
        o := NotSent(env.trace.value, tries);
      } else if !env.encodes {
        o := NotEncoded(env.trace.value, tries);
      } else {
        o := Delivered(env.trace.value, tries);
      }
    }

    /** The loop over the queues: the log and both maps are those of the sequential specification. */
    method SendAll(topic: Topic, queues: seq<QueueRef>, envs: seq<SendEnv>)
        returns (ghost outcomes: seq<Outcome>, successes: map<Id, Id>, traceIDs: map<Id, Id>)
      requires |envs| == |queues|
      modifies broker
      ensures AllFollow(outcomes, envs)
      ensures var r := Sequential(topic, queues, outcomes);
              && broker.log == old(broker.log) + r.log && successes == r.successes && traceIDs == r.traceIds
    {
      outcomes, successes, traceIDs := [], map[], map[];
      ghost var log0 := broker.log;
      for i := 0 to |queues|
        invariant AllFollow(outcomes, envs[..i])
        invariant broker.log == log0 + Sequential(topic, queues[..i], outcomes).log
        invariant successes == Sequential(topic, queues[..i], outcomes).successes
        invariant traceIDs == Sequential(topic, queues[..i], outcomes).traceIds
      {
        var o := SendOne(topic, queues[i], envs[i]);
        if o.Delivered? {
          successes := successes[queues[i].id := queues[i].messageId];
          traceIDs := traceIDs[queues[i].id := o.traceId];
        }
        SequentialMore(topic, queues, i, outcomes, o, log0);
        assert envs[..i + 1] == envs[..i] + [envs[i]];
        outcomes := outcomes + [o];
      }
      assert queues[..|queues|] == queues && envs[..|envs|] == envs;
    }

    /** Keys and values of `successes` as two lists, in the order the runtime yields them. */
    method Split(successes: map<Id, Id>) returns (queueIDs: seq<Id>, messageIDs: seq<Id>)
      ensures SetOf(queueIDs) == successes.Keys && SetOf(messageIDs) == ValuesOf(successes)
    {
      queueIDs := Range(successes);
      messageIDs := [];
      for i := 0 to |queueIDs|
        invariant |messageIDs| == i && forall k :: 0 <= k < i ==> messageIDs[k] == successes[queueIDs[k]]
      {
        messageIDs := messageIDs + [successes[queueIDs[i]]];
      }
      SameKeys(successes, queueIDs);
      SameValues(successes, queueIDs, messageIDs);
    }

    /**
      The whole call.  A failing first batch sends nothing and changes nothing; a failing second
      batch only loses the `enqueued` marks.
     */
    method HandleEnqueue(topic: Topic, queues: seq<QueueRef>, envs: seq<SendEnv>, first: set<nat>, second: set<nat>)
        returns (ok: bool, ghost outcomes: seq<Outcome>)
      requires |envs| == |queues|
      modifies db, broker
      ensures ok <==> Commits(map[], first)
      ensures !ok ==> db.Contents() == old(db.Contents()) && broker.log == old(broker.log)
      ensures ok ==>
                && AllFollow(outcomes, envs)
                && broker.log == old(broker.log) + Sequential(topic, queues, outcomes).log
                && db.Contents() == AfterEnqueue(old(db.Contents()), topic, queues, outcomes, second)
    {
      outcomes := [];
      var queueIDs, messageIDs := ExtractBatchData(queues);
      ok := BatchUpdateDatabase(queueIDs, messageIDs, Process, map[], first);
      if !ok {
        return;
      }
      var successes, traceIDs;
      outcomes, successes, traceIDs := SendAll(topic, queues, envs);
      var successQueueIDs, successMessageIDs := Split(successes);
      var _ := BatchUpdateDatabase(successQueueIDs, successMessageIDs, Enqueued, traceIDs, second);
    }
  }

  /** One more turn of the loop. */
  lemma SequentialMore(topic: Topic, queues: seq<QueueRef>, i: nat, outcomes: seq<Outcome>, o: Outcome, log: seq<Record>)
    requires i == |outcomes| < |queues|
    ensures var q, r, r' := queues[i], Sequential(topic, queues[..i], outcomes),
            Sequential(topic, queues[..i + 1], outcomes + [o]);
            && log + r'.log == log + r.log + SentBy(topic, q, o)
            && r'.successes == (if o.Delivered? then r.successes[q.id := q.messageId] else r.successes)
            && r'.traceIds == (if o.Delivered? then r.traceIds[q.id := o.traceId] else r.traceIds)
  {
    assert queues[..i + 1][..i] == queues[..i] && (outcomes + [o])[..i] == outcomes;
    Concat(log, Sequential(topic, queues[..i], outcomes).log, SentBy(topic, queues[i], o));
  }

  /******* What one call comes to *******/

  /** The record of the queue is created, acked in time, and its key encoded. */
  ghost predicate Delivers(env: SendEnv) { env.trace.Some? && env.encodes && AckedInTime(env.script, env.done) }

  lemma DeliveredExactly(o: Outcome, env: SendEnv)
    requires Follows(o, env)
    ensures o.Delivered? <==> Delivers(env)
    ensures o.Delivered? ==> o.traceId == env.trace.value
  {
    if env.trace.Some? { RetriesExactly(o.tries, env.script, env.done); }
  }

  /** A queue is in both maps exactly when its send delivers. */
  lemma {:induction false} SuccessesExactly(topic: Topic, queues: seq<QueueRef>, outcomes: seq<Outcome>,
                                            envs: seq<SendEnv>, i: nat)
    requires AllFollow(outcomes, envs) && |queues| == |envs| && DistinctIds(queues) && i < |queues|
    ensures var r, q := Sequential(topic, queues, outcomes), queues[i];
            && (q.id in r.successes <==> Delivers(envs[i])) && (q.id in r.traceIds <==> Delivers(envs[i]))
            && (Delivers(envs[i]) ==> r.successes[q.id] == q.messageId && r.traceIds[q.id] == envs[i].trace.value)
    decreases |queues|
  {
    var n := |queues| - 1;
    DeliveredExactly(outcomes[n], envs[n]);
    if i < n {
      assert forall k :: 0 <= k < n ==> Follows(outcomes[k], envs[k]);
      SuccessesExactly(topic, queues[..n], outcomes[..n], envs[..n], i);
    } else {
      SuccessesWithinIds(topic, queues[..n], outcomes[..n]);
    }
  }

  lemma {:induction false} SuccessesWithinIds(topic: Topic, queues: seq<QueueRef>, outcomes: seq<Outcome>)
    requires |queues| == |outcomes|
    ensures var r := Sequential(topic, queues, outcomes);
            r.successes.Keys == r.traceIds.Keys <= Ids(queues)
    decreases |queues|
  {
    if queues != [] {
      var n := |queues| - 1;
      SuccessesWithinIds(topic, queues[..n], outcomes[..n]);
      assert Ids(queues) == Ids(queues[..n]) + {queues[n].id};
    }
  }

  /**
    The rows of a live queue after a call whose first batch has committed: `enqueued` when its send delivers and the
    last batch commits, with the record's key on its targets, and `process` otherwise.
   */
  lemma EnqueuedExactly(s: Store, topic: Topic, queues: seq<QueueRef>, outcomes: seq<Outcome>, envs: seq<SendEnv>,
                        second: set<nat>, i: nat, t: Id)
    requires AllFollow(outcomes, envs) && |queues| == |envs| && DistinctIds(queues) && i < |queues|
    requires queues[i].id in s.queues && !s.queues[queues[i].id].deleted
    requires t in s.targets && s.targets[t].queueId == queues[i].id && !s.targets[t].deleted
    ensures var after, marked := AfterEnqueue(s, topic, queues, outcomes, second),
            Delivers(envs[i]) && Commits(Sequential(topic, queues, outcomes).traceIds, second);
            && queues[i].id in after.queues && t in after.targets
            && after.queues[queues[i].id] == s.queues[queues[i].id].(status := if marked then Enqueued else Process)
            && after.targets[t] ==
               (if marked then s.targets[t].(status := Enqueued, driverTraceId := envs[i].trace)
                else s.targets[t].(status := Process))
  {
    SuccessesExactly(topic, queues, outcomes, envs, i);
    SuccessesWithinIds(topic, queues, outcomes);
    assert queues[i].id in Ids(queues);
  }
}
