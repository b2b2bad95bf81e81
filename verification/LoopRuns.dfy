/** The loops around the service's methods as runs of the pipeline: the dispatcher's and the consumer's. */
module LoopRuns {
  import opened Entities
  import opened Tables
  import opened Goroutines
  import opened MitakeSms
  import opened Dispatcher
  import opened Database
  import opened Handlers
  import opened Consumer
  import opened Pipeline
  import opened PipelineTheorems
  import opened ServiceRuns

  /******* The dispatcher *******/

  /** The state once `records` have been sent and the store is `db`, with `todo` still to be done. */
  ghost predicate Dispatched(s: State, s': State, db: Store, records: seq<Record>, todo: Option<seq<Selected>>) {
    s' == s.(db := db, log := s.log + Stamp(records, s.now), todo := todo, tries := s'.tries)
  }

  lemma NextRun(s: State)
    requires s.todo.Some? && s.todo.value != [] && Cron !in s.procs
    ensures Run(s, [DispatchNext]) == DoDispatchNext(s)
  {
  }

  lemma TakenBack(procs: map<Pid, Proc>, p: Proc)
    requires Cron !in procs
    ensures procs[Cron := p] - {Cron} == procs
  {
  }

  /** The turn of one message. */
  lemma PassRun(s: State, p: Pass) returns (actions: seq<Action>, records: seq<Record>)
    requires s.todo.Some? && s.todo.value != [] && Cron !in s.procs
    requires PassOf(s.todo.value[0], p) && DistinctIds(s.todo.value[0].queues)
    requires p.Fanned? ==> forall k :: 0 <= k < |p.outcomes| ==> GoodOutcome(p.outcomes[k])
    ensures var x := s.todo.value[0];
            && Dispatched(s, Run(s, actions), AfterPass(s.db, x, p), records, Some(s.todo.value[1..]))
            && multiset(records) == multiset(PassLog(x, p))
  {
    var x, s1 := s.todo.value[0], DoDispatchNext(s);
    NextRun(s);
    TakenBack(s.procs, s1.procs[Cron]);
    match p {
      case Skipped =>
        RunTwo(s, DispatchNext, ProcessTx(Cron, false));
        actions, records := [DispatchNext, ProcessTx(Cron, false)], [];
        assert s.log + Stamp([], s.now) == s.log;
      case Fanned(outcomes, second) =>
        var more;
        more, records := EnqueueRefines(s1, Cron, outcomes, second);
        actions := [DispatchNext] + more;
        RunOn(s, [DispatchNext], more);
    }
  }

  lemma StampMore(log: seq<Entry>, a: seq<Record>, b: seq<Record>, at: Time)
    ensures log + Stamp(a + b, at) == log + Stamp(a, at) + Stamp(b, at)
  {
  }

  /** The turns of the first n messages. */
  lemma {:induction false} PassesRun(s: State, stores: seq<Store>, found: seq<Selected>, passes: seq<Pass>,
                                     env: nat -> EnqueueEnv, n: nat)
      returns (actions: seq<Action>, records: seq<Record>)
    requires Chain(stores, found, passes, env) && n <= |passes| && PassesOf(found, passes)
    requires forall i :: 0 <= i < |found| ==> DistinctIds(found[i].queues)
    requires s.db == stores[0] && s.todo == Some(found) && Cron !in s.procs
    ensures Dispatched(s, Run(s, actions), stores[n], records, Some(found[n..]))
    ensures multiset(records) == multiset(PassesLog(found, passes[..n]))
  {
    if n == 0 {
      actions, records := [], [];
      assert s.log + Stamp([], s.now) == s.log && found[0..] == found;
    } else {
      var first, before := PassesRun(s, stores, found, passes, env, n - 1);
      var s1 := Run(s, first);
      assert PassedBy(stores[n - 1], stores[n - 1 + 1], found[n - 1], env(n - 1), passes[n - 1]);
      var more, sent := PassRun(s1, passes[n - 1]);
      RunOn(s, first, more);
      StampMore(s.log, before, sent, s.now);
      assert passes[..n][..n - 1] == passes[..n - 1];
      assert found[n - 1..][1..] == found[n..];
      actions, records := first + more, before + sent;
    }
  }

  lemma EndRun(s: State)
    requires s.todo.Some? && Cron !in s.procs
    ensures Run(s, [DispatchEnd]) == s.(todo := None)
  {
    assert [DispatchEnd][..0] == [];
    assert Run(s, [DispatchEnd]) == Step(Run(s, []), DispatchEnd);
    assert s.procs - {Cron} == s.procs;
  }

  lemma SelectRun(s: State, found: seq<Selected>)
    requires s.todo.None? && IsSelection(s, found)
    ensures Run(s, [Select(found)]) == s.(todo := Some(found))
  {
  }

  /**
    Whatever one run of the job does, a run of the pipeline does, message by message: same tables, and the same
    multiset of records appended to the log; nothing else but the tries is changed.
   */
  lemma DispatchRefines(s: State, stores: seq<Store>, found: seq<Selected>, passes: seq<Pass>, env: nat -> EnqueueEnv)
      returns (actions: seq<Action>, records: seq<Record>)
    requires Reachable(s) && s.todo.None?
    requires SelectsAll(s.db, s.now, s.config.scheduleLimitDays, found)
    requires Chain(stores, found, passes, env) && |passes| == |found| && PassesOf(found, passes) && stores[0] == s.db
    ensures Dispatched(s, Run(s, actions), stores[|found|], records, None)
    ensures multiset(records) == multiset(PassesLog(found, passes))
  {
    ReachableInv(s);
    SelectRun(s, found);
    forall i | 0 <= i < |found| ensures DistinctIds(found[i].queues) {
      assert LoadsQueues(s.db, found[i].messageId, found[i].queues);
    }
    var s1 := s.(todo := Some(found));
    var turns;
    turns, records := PassesRun(s1, stores, found, passes, env, |found|);
    assert passes[..|found|] == passes;
    EndRun(Run(s1, turns));
    RunOn(s1, turns, [DispatchEnd]);
    RunOn(s, [Select(found)], turns + [DispatchEnd]);
    actions := [Select(found)] + (turns + [DispatchEnd]);
  }

  /******* The consumer *******/

  function HandlerTopic(h: TopicHandler): Topic { match h case ForSms(_) => NotifySms case ForMail(_) => NotifyMail }

  /** Record i of the claim is the one at offset `at(i)` of the log. */
  ghost predicate FromLog(log: seq<Entry>, h: TopicHandler, claim: seq<ClaimMessage>, at: nat -> nat) {
    forall i :: 0 <= i < |claim| && claim[i].record.ForQueue? ==>
      at(i) < |log| && log[at(i)].record.queueId == claim[i].record.id && log[at(i)].record.topic == HandlerTopic(h)
  }

  /** No SMS answer of the claim names a target of another queue. */
  ghost predicate NoStrangers(h: TopicHandler, stores: seq<Store>, claim: seq<ClaimMessage>) {
    h.ForSms? ==> forall i :: 0 <= i < |claim| && i < |stores| && claim[i].record.ForQueue? ==>
      NamesOwn(stores[i], claim[i].record.id, StatusesOf(claim[i].sms.reply))
  }

  /** One record. */
  lemma RecordRun(s: State, wid: nat, h: TopicHandler, after: Store, m: ClaimMessage, r: HandleResult, offset: nat)
      returns (actions: seq<Action>)
    requires HandleOutcome(h, s.db, after, m, r) && wid !in s.workers
    requires m.record.ForQueue? ==>
               && offset < |s.log| && s.log[offset].record.queueId == m.record.id
               && s.log[offset].record.topic == HandlerTopic(h)
               && (h.ForSms? ==> NamesOwn(s.db, m.record.id, StatusesOf(m.sms.reply)))
    ensures Run(s, actions) == s.(db := after, calls := Run(s, actions).calls)
  {
    if !m.record.ForQueue? {
      actions := [];
    } else if h.ForSms? {
      SmsHandlerRefines(s, wid, offset, m.sms, after, r);
      actions := HandlerSteps(s, wid, offset, !m.sms.fetchFails, Passes(2, m.sms.marking),
                              SmsAnswer(StatusesOf(m.sms.reply)), SmsEnding(StatusesOf(m.sms.reply), m.sms.concluding));
    } else {
      MailHandlerRefines(s, wid, offset, m.mail, after, r);
      actions := HandlerSteps(s, wid, offset, !m.mail.fetchFails, Passes(2, m.mail.marking),
                              MailAnswer(m.mail.sent, m.mail.trace),
                              MailEnding(m.mail.sent, |LiveTargets(s.db, m.record.id)|, m.mail.concluding));
    }
  }

  /**
    Whatever the loop over a claim does to the tables, its handler calls one after another do in the pipeline, for
    answers that name only targets of their own queue.
   */
  lemma {:induction false} ClaimRefines(s: State, wid: nat, h: TopicHandler, stores: seq<Store>, claim: seq<ClaimMessage>,
                                        results: seq<HandleResult>, at: nat -> nat)
      returns (actions: seq<Action>)
    requires Trace(h, stores, claim, results) && s.db == stores[0] && wid !in s.workers
    requires FromLog(s.log, h, claim, at) && NoStrangers(h, stores, claim)
    ensures Run(s, actions) == s.(db := stores[|results|], calls := Run(s, actions).calls)
    decreases |results|
  {
    if results == [] {
      actions := [];
    } else {
      var n := |results| - 1;
      var before := ClaimRefines(s, wid, h, stores[..n + 1], claim, results[..n], at);
      var s1 := Run(s, before);
      assert HandleOutcome(h, stores[n], stores[n + 1], claim[n], results[n]);
      var more := RecordRun(s1, wid, h, stores[n + 1], claim[n], results[n], at(n));
      RunOn(s, before, more);
      actions := before + more;
    }
  }
}
