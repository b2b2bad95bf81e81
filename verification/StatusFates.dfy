/**
  Who wrote a status last.  For a row of each of the three tables: the status a step writes to it, if it writes one,
  and that at the end of any run the row has what the last writing step wrote.
 */
module StatusFates {
  import opened Entities
  import opened Tables
  import opened Publish
  import opened Goroutines
  import opened MitakeSms
  import opened Pipeline
  import opened PipelineInvariant
  import opened PipelineSteps
  import opened PipelineRuns
  import opened PipelineTheorems
  import opened PipelineHistory

  /******* What a step writes *******/

  /** Both batches of an enqueue call, its cancellation, and the conclusion of a handler on one of its queues. */
  ghost function MessageWrite(s: State, a: Action, m: Id): Option<Status> {
    if !Enabled(s, a) || m !in s.db.messages || s.db.messages[m].deleted then None
    else match a
      case ProcessTx(pid, commits) => if commits && s.procs[pid].messageId == m then Some(Process) else None
      case EnqueuedTx(pid, commits) =>
        if commits && s.procs[pid].messageId == m && s.procs[pid].f.successes != map[] then Some(Enqueued) else None
      case CancelCommit(mid) => if mid == m then Some(Canceled) else None
      case Conclude(wid, ending) =>
        if ending == Committed && s.workers[wid].messageId == m
        then Some(if Accepts(s.workers[wid].stage.answer) then Sent else Failed) else None
      case _ => None
  }

  /** Both batches of an enqueue call with the queue, its message's cancellation, and its handlers' transactions. */
  ghost function QueueWrite(s: State, a: Action, q: Id): Option<Status> {
    if !Enabled(s, a) || q !in s.db.queues || s.db.queues[q].deleted then None
    else match a
      case ProcessTx(pid, commits) => if commits && q in Ids(s.procs[pid].f.queues) then Some(Process) else None
      case EnqueuedTx(pid, commits) => if commits && q in s.procs[pid].f.successes then Some(Enqueued) else None
      case CancelCommit(mid) => if mid == s.db.queues[q].messageId then Some(Canceled) else None
      case MarkSending(wid, commits) => if commits && s.workers[wid].queueId == q then Some(Sending) else None
      case Conclude(wid, ending) =>
        if ending == Committed && s.workers[wid].queueId == q
        then Some(if Accepts(s.workers[wid].stage.answer) then Success else Failed) else None
      case _ => None
  }

  /** What its queue is written, except that a successful conclusion writes what the provider answered for the target. */
  ghost function TargetWrite(s: State, a: Action, t: Id): Option<Status> {
    if !Enabled(s, a) || t !in s.db.targets || s.db.targets[t].deleted then None
    else match a
      case Conclude(wid, ending) =>
        if ending == Committed && s.workers[wid].queueId == s.db.targets[t].queueId
        then ConclusionFor(s.workers[wid].stage.answer, t) else None
      case _ => QueueWrite(s, a, s.db.targets[t].queueId)
  }

  function ConclusionFor(answer: Answer, t: Id): Option<Status> {
    if !Accepts(answer) then Some(Failed)
    else match answer
      case SmsAnswer(rows) => if TargetSection(t) in rows then Some(rows[TargetSection(t)]) else None
      case MailAnswer(_, _) => Some(Sent)
  }

  function Over(write: Option<Status>, before: Status): Status { if write.Some? then write.value else before }

  /******* That it does *******/

  lemma OneMessage(queues: seq<QueueRef>, mid: Id)
    requires queues != [] && forall i :: 0 <= i < |queues| ==> queues[i].messageId == mid
    ensures MessageIds(queues) == {mid}
  {
    assert queues[0].messageId in MessageIds(queues);
  }

  lemma SuccessMessage(f: FanOut, mid: Id)
    requires Consistent(f) && forall i :: 0 <= i < |f.queues| ==> f.queues[i].messageId == mid
    ensures ValuesOf(f.successes) == if f.successes == map[] then {} else {mid}
  {
    forall q | q in f.successes ensures f.successes[q] == mid { assert q in Ids(f.queues); }
    if f.successes != map[] {
      var q :| q in f.successes;
      assert f.successes[q] in ValuesOf(f.successes);
    }
  }

  /** Whose queues an enqueue call has, and what its two maps hold at the join. */
  ghost predicate ProcFacts(p: Proc) {
    && MessageIds(p.f.queues) == {p.messageId}
    && (p.f.pc.Joined? ==>
          && p.f.traceIds.Keys == p.f.successes.Keys
          && ValuesOf(p.f.successes) == if p.f.successes == map[] then {} else {p.messageId})
  }

  lemma ProcFactsHold(s: State, pid: Pid)
    requires Inv(s) && pid in s.procs
    ensures ProcFacts(s.procs[pid])
  {
    var p := s.procs[pid];
    assert ProcInv(s.db, s.now, s.tries, s.log, pid, p);
    OneMessage(p.f.queues, p.messageId);
    SuccessMessage(p.f, p.messageId);
    if p.f.pc.Joined? { JoinedKeys(p.f); }
  }

  /** The rows that were there are there as they were. */
  ghost predicate OldRowsStay(a: Store, b: Store) {
    && (forall m :: m in a.messages ==> m in b.messages && b.messages[m] == a.messages[m])
    && (forall q :: q in a.queues ==> q in b.queues && b.queues[q] == a.queues[q])
    && (forall t :: t in a.targets ==> t in b.targets && b.targets[t] == a.targets[t])
  }

  lemma CreatedApart(db: Store, mid: Id, m: Message, b: Batch)
    requires DistinctKeys(b.queues) && DistinctKeys(b.targets) && Fresh(db, mid, b)
    ensures OldRowsStay(db, CreateTx(db, mid, m, b))
  {
    forall q | q in db.queues ensures q !in RowMap(b.queues) {
      if q in RowMap(b.queues) { var i := RowMapIndex(b.queues, q); }
    }
    forall t | t in db.targets ensures t !in RowMap(b.targets) {
      if t in RowMap(b.targets) { var i := RowMapIndex(b.targets, t); }
    }
  }

  lemma PublishedApart(s: State, mid: Id, m: Message, receivers: seq<Bytes>, at: Time, d: Draws)
    requires CanPublish(s, mid, m, receivers, at, d)
    ensures OldRowsStay(s.db, DoPublish(s, mid, m, receivers, at, d).db)
  {
    PreparedIsBatch(receivers, LimitOf(s.config, m.mtype), CommonOf(mid, m, at), s.config.aead, d);
    CreatedApart(s.db, mid, m, BatchOf(s, mid, m, receivers, at, d));
  }

  lemma QuietRows(s: State, a: Action)
    requires Enabled(s, a) && !a.ProcessTx? && !a.EnqueuedTx? && !WritesHandling(a)
    ensures OldRowsStay(s.db, Step(s, a).db)
  {
    if a.PublishMessage? {
      PublishedApart(s, a.mid, a.message, a.receivers, a.at, a.draws);
    } else {
      TablesUntouched(s, a);
    }
  }

  /** The message's status after a step is what the step wrote, or what it was. */
  ghost predicate MessageStep(s: State, a: Action, m: Id)
    requires m in s.db.messages
  {
    var db' := Step(s, a).db;
    m in db'.messages && db'.messages[m].status == Over(MessageWrite(s, a, m), s.db.messages[m].status)
  }

  lemma QuietMessage(s: State, a: Action, m: Id)
    requires m in s.db.messages && !a.ProcessTx? && !a.EnqueuedTx? && !WritesHandling(a) && OldRowsStay(s.db, Step(s, a).db)
    ensures MessageStep(s, a, m)
  {
  }

  lemma BatchMessage(s: State, a: Action, m: Id)
    requires Enabled(s, a) && m in s.db.messages && (a.ProcessTx? || a.EnqueuedTx?) && ProcFacts(s.procs[a.pid])
    ensures MessageStep(s, a, m)
  {
  }

  lemma HandledMessage(s: State, a: Action, m: Id)
    requires Enabled(s, a) && m in s.db.messages && WritesHandling(a)
    ensures MessageStep(s, a, m)
  {
    if a.Conclude? { ConcludedMessage(s.db, s.workers[a.wid], a.ending, m); }
  }

  lemma StepMessage(s: State, a: Action, m: Id)
    requires Inv(s) && m in s.db.messages
    ensures MessageStep(s, a, m)
  {
    if Enabled(s, a) {
      if a.ProcessTx? || a.EnqueuedTx? {
        ProcFactsHold(s, a.pid);
        BatchMessage(s, a, m);
      } else if WritesHandling(a) {
        HandledMessage(s, a, m);
      } else {
        QuietRows(s, a);
        QuietMessage(s, a, m);
      }
    }
  }

  lemma ConcludedMessage(db: Store, w: Worker, ending: Ending, m: Id)
    requires w.stage.Answered? && m in db.messages
    ensures var db' := Concluded(db, w, ending);
            && m in db'.messages
            && db'.messages[m] ==
               if ending == Committed && w.messageId == m && !db.messages[m].deleted
               then db.messages[m].(status := if Accepts(w.stage.answer) then Sent else Failed) else db.messages[m]
  {
  }

  /** Likewise a queue's. */
  ghost predicate QueueStep(s: State, a: Action, q: Id)
    requires q in s.db.queues
  {
    var db' := Step(s, a).db;
    q in db'.queues && db'.queues[q].status == Over(QueueWrite(s, a, q), s.db.queues[q].status)
  }

  lemma QuietQueue(s: State, a: Action, q: Id)
    requires q in s.db.queues && !a.ProcessTx? && !a.EnqueuedTx? && !WritesHandling(a) && OldRowsStay(s.db, Step(s, a).db)
    ensures QueueStep(s, a, q)
  {
  }

  lemma BatchQueue(s: State, a: Action, q: Id)
    requires Enabled(s, a) && q in s.db.queues && (a.ProcessTx? || a.EnqueuedTx?)
    ensures QueueStep(s, a, q)
  {
  }

  lemma HandledQueue(s: State, a: Action, q: Id)
    requires Enabled(s, a) && q in s.db.queues && WritesHandling(a)
    requires InWindow(s.db.queues[q].createdAt, s.db.queues[q].messageId)
    requires a.MarkSending? ==> WorkerInv(s.db, s.log, s.workers[a.wid])
    ensures QueueStep(s, a, q)
  {
    if a.Conclude? { ConcludedQueue(s.db, s.workers[a.wid], a.ending, q); }
  }

  lemma StepQueue(s: State, a: Action, q: Id)
    requires Inv(s) && q in s.db.queues
    ensures QueueStep(s, a, q)
  {
    if Enabled(s, a) {
      if a.ProcessTx? || a.EnqueuedTx? {
        BatchQueue(s, a, q);
      } else if WritesHandling(a) {
        assert QueueOk(s.db.queues[q], MessageOf(s.db, q));
        HandledQueue(s, a, q);
      } else {
        QuietRows(s, a);
        QuietQueue(s, a, q);
      }
    }
  }

  lemma ConcludedQueue(db: Store, w: Worker, ending: Ending, q: Id)
    requires w.stage.Answered? && q in db.queues
    ensures var db' := Concluded(db, w, ending);
            && q in db'.queues
            && db'.queues[q] ==
               if ending == Committed && w.queueId == q && !db.queues[q].deleted
               then db.queues[q].(status := if Accepts(w.stage.answer) then Success else Failed) else db.queues[q]
  {
  }

  /** And a target's. */
  ghost predicate TargetStep(s: State, a: Action, t: Id)
    requires t in s.db.targets
  {
    var db' := Step(s, a).db;
    t in db'.targets && db'.targets[t].status == Over(TargetWrite(s, a, t), s.db.targets[t].status)
  }

  /** What ties a target to its queue. */
  predicate TargetFacts(db: Store, t: Id)
    requires t in db.targets
  {
    var row := db.targets[t];
    && row.queueId in db.queues
    && var q := db.queues[row.queueId];
    && row.messageId == q.messageId && row.createdAt == q.createdAt && row.deleted == q.deleted
    && InWindow(q.createdAt, q.messageId)
  }

  lemma QuietTarget(s: State, a: Action, t: Id)
    requires t in s.db.targets && !a.ProcessTx? && !a.EnqueuedTx? && !WritesHandling(a) && OldRowsStay(s.db, Step(s, a).db)
    ensures TargetStep(s, a, t)
  {
  }

  lemma TargetFactsHold(db: Store, t: Id)
    requires RowsInv(db) && t in db.targets
    ensures TargetFacts(db, t)
  {
    assert TargetOk(db.targets[t], QueueOf(db, t), MessageOf(db, db.targets[t].queueId));
    assert QueueOk(QueueOf(db, t), MessageOf(db, db.targets[t].queueId));
  }

  lemma BatchTarget(s: State, a: Action, t: Id)
    requires Enabled(s, a) && t in s.db.targets && (a.ProcessTx? || a.EnqueuedTx?)
    requires ProcFacts(s.procs[a.pid]) && TargetFacts(s.db, t)
    ensures TargetStep(s, a, t)
  {
  }

  lemma HandledTarget(s: State, a: Action, t: Id)
    requires Enabled(s, a) && t in s.db.targets && WritesHandling(a) && TargetFacts(s.db, t)
    requires !a.CancelCommit? ==> WorkerInv(s.db, s.log, s.workers[a.wid])
    ensures TargetStep(s, a, t)
  {
    if a.Conclude? { ConcludedTarget(s.db, s.log, s.workers[a.wid], a.ending, t); }
  }

  lemma StepTarget(s: State, a: Action, t: Id)
    requires Inv(s) && t in s.db.targets
    ensures TargetStep(s, a, t)
  {
    if Enabled(s, a) {
      TargetFactsHold(s.db, t);
      if a.ProcessTx? || a.EnqueuedTx? {
        ProcFactsHold(s, a.pid);
        BatchTarget(s, a, t);
      } else if WritesHandling(a) {
        HandledTarget(s, a, t);
      } else {
        QuietRows(s, a);
        QuietTarget(s, a, t);
      }
    }
  }

  /** The whole row: what a conclusion writes is the status and, when the batch is accepted, where it came from. */
  lemma ConcludedTarget(db: Store, log: seq<Entry>, w: Worker, ending: Ending, t: Id)
    requires WorkerInv(db, log, w) && w.stage.Answered? && t in db.targets
    ensures var db', row := Concluded(db, w, ending), db.targets[t];
            && t in db'.targets
            && var written := if ending == Committed && w.queueId == row.queueId && !row.deleted
                              then ConclusionFor(w.stage.answer, t) else None;
            db'.targets[t] ==
              if written.None? then row
              else if !Accepts(w.stage.answer) then row.(status := written.value)
              else row.(status := written.value, providerTraceId :=
                if w.stage.answer.SmsAnswer? then SectionTrace(TargetSection(t)) else HeaderTrace(w.stage.answer.trace))
  {
    assert t in w.targets <==> db.targets[t].queueId == w.queueId;
    if w.stage.answer.SmsAnswer? && TargetSection(t) in w.stage.answer.rows {
      assert TargetSection(t).id in w.targets;
    }
  }

  /******* Over any run *******/

  ghost function MessageFate(s: State, actions: seq<Action>, m: Id): Status
    requires m in s.db.messages
  {
    if actions == [] then s.db.messages[m].status
    else
      var n := |actions| - 1;
      Over(MessageWrite(Run(s, actions[..n]), actions[n], m), MessageFate(s, actions[..n], m))
  }

  ghost function QueueFate(s: State, actions: seq<Action>, q: Id): Status
    requires q in s.db.queues
  {
    if actions == [] then s.db.queues[q].status
    else
      var n := |actions| - 1;
      Over(QueueWrite(Run(s, actions[..n]), actions[n], q), QueueFate(s, actions[..n], q))
  }

  ghost function TargetFate(s: State, actions: seq<Action>, t: Id): Status
    requires t in s.db.targets
  {
    if actions == [] then s.db.targets[t].status
    else
      var n := |actions| - 1;
      Over(TargetWrite(Run(s, actions[..n]), actions[n], t), TargetFate(s, actions[..n], t))
  }

  /** A message has what the last step that wrote it wrote. */
  lemma {:induction false} MessageFateExactly(s: State, actions: seq<Action>, m: Id)
    requires Inv(s) && m in s.db.messages
    ensures var db' := Run(s, actions).db;
            m in db'.messages && db'.messages[m].status == MessageFate(s, actions, m)
    decreases |actions|
  {
    if actions != [] {
      var n := |actions| - 1;
      MessageFateExactly(s, actions[..n], m);
      RunFrom(s, actions[..n]);
      StepMessage(Run(s, actions[..n]), actions[n], m);
    }
  }

  /** So has a queue. */
  lemma {:induction false} QueueFateExactly(s: State, actions: seq<Action>, q: Id)
    requires Inv(s) && q in s.db.queues
    ensures var db' := Run(s, actions).db;
            q in db'.queues && db'.queues[q].status == QueueFate(s, actions, q)
    decreases |actions|
  {
    if actions != [] {
      var n := |actions| - 1;
      QueueFateExactly(s, actions[..n], q);
      RunFrom(s, actions[..n]);
      StepQueue(Run(s, actions[..n]), actions[n], q);
    }
  }

  /** And a target. */
  lemma {:induction false} TargetFateExactly(s: State, actions: seq<Action>, t: Id)
    requires Inv(s) && t in s.db.targets
    ensures var db' := Run(s, actions).db;
            t in db'.targets && db'.targets[t].status == TargetFate(s, actions, t)
    decreases |actions|
  {
    if actions != [] {
      var n := |actions| - 1;
      TargetFateExactly(s, actions[..n], t);
      RunFrom(s, actions[..n]);
      StepTarget(Run(s, actions[..n]), actions[n], t);
    }
  }

  /******* Between a handler's two transactions *******/

  lemma MarkedSending(s: State, wid: nat, t: Id)
    requires Reachable(s) && wid in s.workers && s.workers[wid].stage == Fetched
    requires t in s.workers[wid].targets && t in s.db.targets && !s.db.targets[t].deleted
    ensures var s1 := Step(s, MarkSending(wid, true));
            Reachable(s1) && Inv(s1) && t in s1.db.targets && s1.db.targets[t].status == Sending
  {
    ReachableInv(s);
    assert WorkerInv(s.db, s.log, s.workers[wid]);
    assert TargetOk(s.db.targets[t], QueueOf(s.db, t), MessageOf(s.db, s.db.targets[t].queueId));
    StepKeeps(s, MarkSending(wid, true));
    StepTarget(s, MarkSending(wid, true), t);
    ReachableStep(s, MarkSending(wid, true));
  }

  /**
    Between a handler's two transactions anything may happen.  A live target that the successful answer does not
    name ends with what was written to it last in between, and with `sending` if nothing was.
   */
  lemma UnnamedEndsAsWritten(s: State, wid: nat, between: seq<Action>, t: Id)
    requires Reachable(s) && wid in s.workers && s.workers[wid].stage == Fetched
    requires t in s.workers[wid].targets && t in s.db.targets && !s.db.targets[t].deleted
    requires var s2 := Run(Step(s, MarkSending(wid, true)), between);
             && wid in s2.workers && s2.workers[wid].stage.Answered? && s2.workers[wid].stage.answer.SmsAnswer?
             && Verdict(s2.workers[wid].stage.answer.rows) == Sent
             && t in s2.workers[wid].targets && TargetSection(t) !in s2.workers[wid].stage.answer.rows
    ensures var s1 := Step(s, MarkSending(wid, true));
            var s3 := Step(Run(s1, between), Conclude(wid, Committed));
            && t in s1.db.targets && s1.db.targets[t].status == Sending
            && t in s3.db.targets && s3.db.targets[t].status == TargetFate(s1, between, t)
  {
    var s1 := Step(s, MarkSending(wid, true));
    MarkedSending(s, wid, t);
    TargetFateExactly(s1, between, t);
    ReachableMore(s1, between);
    SmsSuccessExactly(Run(s1, between), wid, t);
  }

  /** No step of the run writes the target anything but `sending`. */
  ghost predicate Undisturbed(s: State, actions: seq<Action>, t: Id) {
    forall i :: 0 <= i < |actions| ==> TargetWrite(Run(s, actions[..i]), actions[i], t) in {None, Some(Sending)}
  }

  /** In particular it ends `sending` when no step in between writes anything else. */
  lemma {:induction false} UndisturbedSends(s: State, between: seq<Action>, t: Id)
    requires t in s.db.targets && s.db.targets[t].status == Sending && Undisturbed(s, between, t)
    ensures TargetFate(s, between, t) == Sending
    decreases |between|
  {
    if between != [] {
      var n := |between| - 1;
      forall i | 0 <= i < n ensures between[..n][..i] == between[..i] && between[..n][i] == between[i] {}
      UndisturbedSends(s, between[..n], t);
      assert TargetWrite(Run(s, between[..n]), between[n], t) in {None, Some(Sending)};
    }
  }
}
