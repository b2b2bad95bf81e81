/** What holds in every reachable state of the pipeline, and between any two of them. */
module PipelineTheorems {
  import opened Entities
  import opened Tables
  import opened Publish
  import opened Goroutines
  import opened MitakeSms
  import opened Pipeline
  import opened PipelineInvariant
  import opened PipelineTransactions
  import opened PipelineSteps
  import opened PipelineRuns

  /** A state some run ends in. */
  ghost predicate Reachable(s: State) {
    exists config, now, actions :: s == Run(Init(config, now), actions)
  }

  lemma {:induction false} RunOn(s: State, a: seq<Action>, b: seq<Action>)
    ensures Run(s, a + b) == Run(Run(s, a), b)
    decreases |b|
  {
    if b == [] {
      assert a + b == a;
    } else {
      RunOn(s, a, b[..|b| - 1]);
      assert (a + b)[..|a + b| - 1] == a + b[..|b| - 1];
    }
  }

  lemma ReachableMore(s: State, more: seq<Action>)
    requires Reachable(s)
    ensures Reachable(Run(s, more))
  {
    var config, now, actions :| s == Run(Init(config, now), actions);
    RunOn(Init(config, now), actions, more);
    assert Run(s, more) == Run(Init(config, now), actions + more);
  }

  lemma ReachableStep(s: State, a: Action)
    requires Reachable(s)
    ensures Reachable(Step(s, a))
  {
    assert [a][..0] == [];
    assert Run(s, [a]) == Step(Run(s, []), a);
    ReachableMore(s, [a]);
  }

  lemma ReachableInv(s: State)
    requires Reachable(s)
    ensures Inv(s)
  {
    var config, now, actions :| s == Run(Init(config, now), actions);
    RunKeeps(config, now, actions);
  }

  lemma {:induction false} RunFrom(s: State, more: seq<Action>)
    requires Inv(s)
    ensures Inv(Run(s, more)) && Evolves(s.db, Run(s, more).db)
  {
    if more == [] {
      EvolvesSame(s.db);
    } else {
      var before := Run(s, more[..|more| - 1]);
      RunFrom(s, more[..|more| - 1]);
      StepKeeps(before, more[|more| - 1]);
      EvolvesTransitive(s.db, before.db, Run(s, more).db);
    }
  }

  lemma EvolvesTransitive(a: Store, b: Store, c: Store)
    requires Evolves(a, b) && Evolves(b, c)
    ensures Evolves(a, c)
  {
  }

  /******* Cancellation *******/

  ghost predicate QueuesDeleted(db: Store, m: Id) {
    forall q :: q in db.queues && db.queues[q].messageId == m ==> db.queues[q].deleted
  }

  ghost predicate TargetsDeleted(db: Store, m: Id) {
    forall t :: t in db.targets && db.targets[t].messageId == m ==> db.targets[t].deleted
  }

  /** A message is canceled, or all its queues are, or all its targets are: always all three or none. */
  lemma CancelCoherence(s: State, m: Id)
    requires Reachable(s) && m in s.db.messages
    ensures s.db.messages[m].deleted <==> s.db.messages[m].status == Canceled
    ensures s.db.messages[m].deleted <==> QueuesDeleted(s.db, m)
    ensures s.db.messages[m].deleted <==> TargetsDeleted(s.db, m)
    ensures s.db.messages[m].deleted <==>
              exists q :: q in s.db.queues && s.db.queues[q].messageId == m && s.db.queues[q].deleted
    ensures s.db.messages[m].deleted <==>
              exists t :: t in s.db.targets && s.db.targets[t].messageId == m && s.db.targets[t].deleted
  {
    ReachableInv(s);
    assert MessageOk(m, s.db.messages[m]);
    assert HasQueue(s.db, m);
    var q :| q in s.db.queues && s.db.queues[q].messageId == m;
    assert HasTargetRow(s.db, q);
    var t :| t in s.db.targets && s.db.targets[t].queueId == q;
    TogetherDeleted(s.db, t);
    forall u | u in s.db.targets && s.db.targets[u].messageId == m ensures s.db.targets[u].deleted ==
      s.db.messages[m].deleted {
      TogetherDeleted(s.db, u);
    }
    forall r | r in s.db.queues && s.db.queues[r].messageId == m ensures s.db.queues[r].deleted ==
      s.db.messages[m].deleted {
      assert QueueOk(s.db.queues[r], MessageOf(s.db, r));
    }
  }

  lemma TogetherDeleted(db: Store, t: Id)
    requires RowsInv(db) && t in db.targets
    ensures db.targets[t].messageId in db.messages
    ensures db.targets[t].deleted == db.messages[db.targets[t].messageId].deleted
  {
  }

  /** No later step changes a canceled row in any of the three tables. */
  lemma CanceledForGood(s: State, more: seq<Action>)
    requires Reachable(s)
    ensures var db' := Run(s, more).db;
            && (forall m :: m in s.db.messages && s.db.messages[m].deleted ==>
                  m in db'.messages && db'.messages[m] == s.db.messages[m])
            && (forall q :: q in s.db.queues && s.db.queues[q].deleted ==>
                  q in db'.queues && db'.queues[q] == s.db.queues[q])
            && (forall t :: t in s.db.targets && s.db.targets[t].deleted ==>
                  t in db'.targets && db'.targets[t] == s.db.targets[t])
  {
    ReachableInv(s);
    RunFrom(s, more);
  }

  ghost predicate NobodyHandles(s: State, q: Id) { forall w :: w in s.workers ==> s.workers[w].queueId != q }

  function CallsFor(calls: seq<Call>, q: Id): nat {
    if calls == [] then 0
    else CallsFor(calls[..|calls| - 1], q) + if calls[|calls| - 1].queueId == q then 1 else 0
  }

  lemma SilentStep(s: State, a: Action, q: Id)
    requires q in s.db.queues && s.db.queues[q].deleted && NobodyHandles(s, q)
    ensures NobodyHandles(Step(s, a), q) && CallsFor(Step(s, a).calls, q) == CallsFor(s.calls, q)
  {
  }

  /** Once canceled with no handler on it, a queue is never handed to a provider again, however many records it has. */
  lemma {:induction false} CanceledStaysSilent(s: State, more: seq<Action>, q: Id)
    requires Reachable(s) && q in s.db.queues && s.db.queues[q].deleted && NobodyHandles(s, q)
    ensures var s' := Run(s, more);
            q in s'.db.queues && s'.db.queues[q].deleted && NobodyHandles(s', q)
            && CallsFor(s'.calls, q) == CallsFor(s.calls, q)
    decreases |more|
  {
    if more != [] {
      CanceledStaysSilent(s, more[..|more| - 1], q);
      ReachableInv(s);
      RunFrom(s, more[..|more| - 1]);
      SilentStep(Run(s, more[..|more| - 1]), more[|more| - 1], q);
      StepKeeps(Run(s, more[..|more| - 1]), more[|more| - 1]);
    }
  }

  /******* The SMS success transaction *******/

  /**
    What the SMS success transaction makes of one target of its queue: with a section, that section's status and
    name; without one, or canceled, nothing at all.  What an unnamed target then has is told by the run before:
    see `StatusFates`.
   */
  lemma SmsSuccessExactly(s: State, wid: nat, t: Id)
    requires Reachable(s) && wid in s.workers && s.workers[wid].stage.Answered? && s.workers[wid].stage.answer.SmsAnswer?
    requires Verdict(s.workers[wid].stage.answer.rows) == Sent
    requires t in s.workers[wid].targets
    ensures var w, s' := s.workers[wid], Step(s, Conclude(wid, Committed));
            && w.queueId in s.db.queues && w.queueId in s'.db.queues && t in s.db.targets && t in s'.db.targets
            && var row, row', rows, n := s.db.targets[t], s'.db.targets[t], w.stage.answer.rows, TargetSection(t);
            && row.queueId == w.queueId
            && (row.deleted || n !in rows ==> row' == row)
            && (!row.deleted && n in rows ==> row' == row.(status := rows[n], providerTraceId := SectionTrace(n)))
            && s'.db.queues[w.queueId].status == (if row.deleted then Canceled else Success)
  {
    ReachableInv(s);
    var w := s.workers[wid];
    assert WorkerInv(s.db, s.log, w);
    assert TargetOk(s.db.targets[t], QueueOf(s.db, t), MessageOf(s.db, s.db.targets[t].queueId));
    assert QueueOk(s.db.queues[w.queueId], MessageOf(s.db, w.queueId));
  }

  /******* Scheduling *******/

  /** A message that waits for its time is untouched: nothing recorded, nothing tried, nothing handed over. */
  lemma ScheduledIsUntouched(s: State, q: Id)
    requires Reachable(s) && q in s.db.queues
    requires s.db.queues[q].messageId in s.db.messages && s.db.messages[s.db.queues[q].messageId].status == Scheduled
    ensures s.db.queues[q].status == Pending && !s.db.queues[q].deleted
    ensures forall t :: t in s.db.targets && s.db.targets[t].queueId == q ==> s.db.targets[t].status == Pending
    ensures TriesFor(s.tries, q) == [] && !Recorded(s.log, q)
    ensures forall i :: 0 <= i < |s.calls| ==> s.calls[i].queueId != q
  {
    ReachableInv(s);
    assert QueueOk(s.db.queues[q], MessageOf(s.db, q));
    WaitingUntouched(s.db, s.now, s.tries, s.log, q);
    forall t | t in s.db.targets && s.db.targets[t].queueId == q ensures s.db.targets[t].status == Pending {
      assert TargetOk(s.db.targets[t], QueueOf(s.db, t), MessageOf(s.db, s.db.targets[t].queueId));
    }
    forall i | 0 <= i < |s.calls| ensures s.calls[i].queueId != q { assert CallInv(s.db, s.now, s.calls[i]); }
  }

  /** No record reaches the log, and no request a provider, before the scheduled instant. */
  lemma NeverEarly(s: State)
    requires Reachable(s)
    ensures forall i :: 0 <= i < |s.log| ==>
              && Known(s.db, s.log[i].record.queueId)
              && var m := MessageOf(s.db, s.log[i].record.queueId);
              m.scheduledAt.Some? ==> m.scheduledAt.value <= s.log[i].at <= s.now
    ensures forall i :: 0 <= i < |s.calls| ==>
              && Known(s.db, s.calls[i].queueId)
              && var m := MessageOf(s.db, s.calls[i].queueId);
              m.scheduledAt.Some? ==> m.scheduledAt.value <= s.calls[i].at <= s.now
  {
    ReachableInv(s);
    forall i | 0 <= i < |s.log| ensures EntryInv(s.db, s.now, s.log[i]) {}
    forall i | 0 <= i < |s.calls| ensures CallInv(s.db, s.now, s.calls[i]) {}
  }

  /******* At most one fan-out *******/

  /**
    Over a whole run each queue is offered to the broker at most three times and never after an
    ack; and once offered, its message is never eligible again, in any continuation.
   */
  lemma AtMostOneFanOut(s: State, more: seq<Action>, q: Id)
    requires Reachable(s) && q in s.db.queues && s.db.queues[q].messageId in s.db.messages
    ensures var tries := TriesFor(Run(s, more).tries, q);
            |tries| <= 3 && forall i :: 0 <= i < |tries| - 1 ==> tries[i] != Acked
    ensures TriesFor(s.tries, q) != [] || Recorded(s.log, q) ==>
              var s' := Run(s, more);
              s.db.queues[q].messageId in s'.db.messages && !Eligible(s', s'.db.messages[s.db.queues[q].messageId])
  {
    ReachableInv(s);
    RunFrom(s, more);
    if Recorded(s.log, q) {
      var i :| 0 <= i < |s.log| && s.log[i].record.queueId == q;
      assert EntryInv(s.db, s.now, s.log[i]);
    }
  }

  /** A first batch that fails sends nothing, writes nothing and leaves an eligible message eligible. */
  lemma FailedFirstBatch(s: State, pid: Pid)
    requires Reachable(s) && pid in s.procs && s.procs[pid].stage == Before
    ensures var s' := Step(s, ProcessTx(pid, false));
            && s'.db == s.db && s'.log == s.log && s'.tries == s.tries && pid !in s'.procs
            && (forall m :: m in s.db.messages ==> (Eligible(s', s'.db.messages[m]) <==> Eligible(s, s.db.messages[m])))
            && AllUntouched(s'.tries, s'.log, s.procs[pid].f.queues)
  {
    ReachableInv(s);
    assert ProcInv(s.db, s.now, s.tries, s.log, pid, s.procs[pid]);
  }

  /******* Routing *******/

  /** Targets of SMS messages are Mitake's, those of mail messages Sendgrid's. */
  ghost predicate ProvidersFollow(db: Store) {
    forall t :: t in db.targets ==>
      && db.targets[t].messageId in db.messages
      && db.targets[t].provider == if db.messages[db.targets[t].messageId].mtype == Sms then Mitake else Sendgrid
  }

  lemma AddedTarget(s: State, mid: Id, m: Message, receivers: seq<Bytes>, at: Time, d: Draws, t: Id)
    requires CanPublish(s, mid, m, receivers, at, d)
    requires t in DoPublish(s, mid, m, receivers, at, d).db.targets && t !in s.db.targets
    ensures var row := DoPublish(s, mid, m, receivers, at, d).db.targets[t];
            row.messageId == mid && row.provider == if m.mtype == Sms then Mitake else Sendgrid
  {
    var b := BatchOf(s, mid, m, receivers, at, d);
    PreparedIsBatch(receivers, LimitOf(s.config, m.mtype), CommonOf(mid, m, at), s.config.aead, d);
    var i := RowMapIndex(b.targets, t);
    assert IsTargetRow(b.targets[i].1, b.queues, CommonOf(mid, m, at));
  }

  lemma PublishProviders(s: State, mid: Id, m: Message, receivers: seq<Bytes>, at: Time, d: Draws)
    requires ProvidersFollow(s.db) && CanPublish(s, mid, m, receivers, at, d)
    ensures ProvidersFollow(DoPublish(s, mid, m, receivers, at, d).db)
  {
    var s' := DoPublish(s, mid, m, receivers, at, d);
    forall t | t in s'.db.targets && t !in s.db.targets
      ensures s'.db.targets[t].messageId == mid && s'.db.targets[t].provider == if m.mtype == Sms then Mitake else Sendgrid
    {
      AddedTarget(s, mid, m, receivers, at, d, t);
    }
  }

  lemma NoNewRows(s: State, a: Action)
    requires Enabled(s, a) && !a.PublishMessage?
    ensures SameRows(Perform(s, a).db, s.db)
  {
    if !WritesTables(a) {
      TablesUntouched(s, a);
    } else if a.Conclude? {
      ConcludedSameRows(s.db, s.workers[a.wid], a.ending);
    }
  }

  lemma ConcludedSameRows(db: Store, w: Worker, ending: Ending)
    requires w.stage.Answered?
    ensures SameRows(Concluded(db, w, ending), db)
  {
  }

  lemma {:induction false} ProvidersKept(config: Config, now: Time, actions: seq<Action>)
    ensures ProvidersFollow(Run(Init(config, now), actions).db)
  {
    if actions != [] {
      var n := |actions| - 1;
      var before, a := Run(Init(config, now), actions[..n]), actions[n];
      ProvidersKept(config, now, actions[..n]);
      RunKeeps(config, now, actions[..n]);
      if Enabled(before, a) && a.PublishMessage? {
        PublishProviders(before, a.mid, a.message, a.receivers, a.at, a.draws);
      } else if Enabled(before, a) {
        StepKeeps(before, a);
        NoNewRows(before, a);
        EvolvedProviders(before.db, Perform(before, a).db);
      }
    }
  }

  lemma EvolvedProviders(db: Store, db': Store)
    requires ProvidersFollow(db) && Evolves(db, db') && db'.targets.Keys == db.targets.Keys
    ensures ProvidersFollow(db')
  {
    forall t | t in db'.targets ensures TargetEvolves(db.targets[t], db'.targets[t]) {}
  }

  /** In every reachable state the provider column follows the message type. */
  lemma ProviderRouting(s: State)
    requires Reachable(s)
    ensures ProvidersFollow(s.db)
  {
    var config, now, actions :| s == Run(Init(config, now), actions);
    ProvidersKept(config, now, actions);
  }

  /** Records are on the topic of their message's type, and a provider sees only targets of its own channel. */
  lemma TypeRouting(s: State)
    requires Reachable(s)
    ensures forall i :: 0 <= i < |s.log| ==>
              && Known(s.db, s.log[i].record.queueId)
              && (s.log[i].record.topic == NotifySms <==> MessageOf(s.db, s.log[i].record.queueId).mtype == Sms)
    ensures forall i, t :: 0 <= i < |s.calls| && t in s.calls[i].targets ==>
              && t in s.db.targets && Known(s.db, s.db.targets[t].queueId)
              && s.db.targets[t].queueId == s.calls[i].queueId
              && (s.calls[i].channel == NotifySms <==> MessageOf(s.db, s.db.targets[t].queueId).mtype == Sms)
  {
    ReachableInv(s);
    forall i | 0 <= i < |s.log| ensures EntryInv(s.db, s.now, s.log[i]) {}
    forall i | 0 <= i < |s.calls| ensures CallInv(s.db, s.now, s.calls[i]) {}
  }
}
