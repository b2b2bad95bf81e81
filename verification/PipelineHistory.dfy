/** What the tables remember: statuses go back to provider answers, driver traces to records in the log. */
module PipelineHistory {
  import opened Entities
  import opened Tables
  import opened Publish
  import opened Goroutines
  import opened MitakeSms
  import opened Pipeline
  import opened PipelineInvariant
  import opened PipelineRuns
  import opened PipelineTheorems

  /******* Statuses and answers *******/

  /** An answer that makes its batch a success. */
  predicate Accepts(answer: Answer) {
    match answer case SmsAnswer(rows) => Verdict(rows) == Sent case MailAnswer(sent, _) => sent
  }

  /** A successful answer that gives this target this status: its section, or for mail the batch. */
  predicate Gives(answer: Answer, t: Id, st: Status) {
    && Accepts(answer)
    && match answer
       case SmsAnswer(rows) => TargetSection(t) in rows && rows[TargetSection(t)] == st
       case MailAnswer(_, _) => st == Sent
  }

  ghost predicate GivenBy(calls: seq<Call>, q: Id, t: Id, st: Status) {
    exists i :: 0 <= i < |calls| && calls[i].queueId == q && Gives(calls[i].answer, t, st)
  }

  ghost predicate Refused(calls: seq<Call>, q: Id) {
    exists i :: 0 <= i < |calls| && calls[i].queueId == q && !Accepts(calls[i].answer)
  }

  /** A target is `sent` or blank only by an answer, and failed only by one or by a refused batch. */
  ghost predicate Justified(calls: seq<Call>, q: Id, t: Id, st: Status) {
    && (st in {Sent, Blank} ==> GivenBy(calls, q, t, st))
    && (st == Failed ==> GivenBy(calls, q, t, st) || Refused(calls, q))
  }

  ghost predicate StatusesJustified(ts: map<Id, Target>, calls: seq<Call>) {
    forall t :: t in ts ==> Justified(calls, ts[t].queueId, t, ts[t].status)
  }

  ghost predicate Asked(calls: seq<Call>, q: Id, answer: Answer) {
    exists i :: 0 <= i < |calls| && calls[i].queueId == q && calls[i].answer == answer
  }

  ghost predicate AnswersAsked(workers: map<nat, Worker>, calls: seq<Call>) {
    forall w :: w in workers && workers[w].stage.Answered? ==> Asked(calls, workers[w].queueId, workers[w].stage.answer)
  }

  /** The statuses no provider answer is behind. */
  predicate IsInternal(st: Status) { st !in {Sent, Blank, Failed} }

  /** Every target keeps its status or takes an internal one. */
  ghost predicate NothingAnswered(a: map<Id, Target>, b: map<Id, Target>) {
    forall t :: t in b ==> IsInternal(b[t].status) || (t in a && b[t].queueId == a[t].queueId && b[t].status == a[t].status)
  }

  lemma MoreCalls(calls: seq<Call>, c: Call, q: Id, t: Id, st: Status)
    requires Justified(calls, q, t, st)
    ensures Justified(calls + [c], q, t, st)
  {
    if GivenBy(calls, q, t, st) {
      var i :| 0 <= i < |calls| && calls[i].queueId == q && Gives(calls[i].answer, t, st);
      assert (calls + [c])[i] == calls[i];
    }
    if Refused(calls, q) {
      var i :| 0 <= i < |calls| && calls[i].queueId == q && !Accepts(calls[i].answer);
      assert (calls + [c])[i] == calls[i];
    }
  }

  lemma AskedMore(calls: seq<Call>, c: Call, q: Id, answer: Answer)
    ensures Asked(calls, q, answer) ==> Asked(calls + [c], q, answer)
    ensures Asked(calls + [c], c.queueId, c.answer)
  {
    if Asked(calls, q, answer) {
      var i :| 0 <= i < |calls| && calls[i].queueId == q && calls[i].answer == answer;
      assert (calls + [c])[i] == calls[i];
    }
    assert (calls + [c])[|calls|] == c;
  }

  /** A committed conclusion writes what its answer gives, or failed. */
  lemma ConcludeJustified(db: Store, log: seq<Entry>, calls: seq<Call>, w: Worker)
    requires StatusesJustified(db.targets, calls) && WorkerInv(db, log, w)
    requires w.stage.Answered? && Asked(calls, w.queueId, w.stage.answer)
    ensures StatusesJustified(ConcludeTx(db, w).targets, calls)
  {
  }

  /******* Driver traces and records *******/

  /** A record of the queue with this key is in the log. */
  ghost predicate Keyed(log: seq<Entry>, q: Id, trace: Id) {
    exists i :: 0 <= i < |log| && log[i].record.queueId == q && log[i].record.traceId == trace
  }

  ghost predicate TracesKeyed(ts: map<Id, Target>, log: seq<Entry>) {
    forall t :: t in ts && ts[t].driverTraceId.Some? ==> Keyed(log, ts[t].queueId, ts[t].driverTraceId.value)
  }

  /** What a goroutine has had acked is in the log. */
  ghost predicate AckKeyed(q: Id, g: Goroutine, log: seq<Entry>) {
    HasTries(g) && WasAcked(TriesOf(g)) ==> Keyed(log, q, TraceOf(g))
  }

  ghost predicate FanOutKeyed(f: FanOut, log: seq<Entry>) {
    |f.gs| == |f.queues| && forall i :: 0 <= i < |f.gs| ==> AckKeyed(f.queues[i].id, f.gs[i], log)
  }

  ghost predicate ProcsKeyed(procs: map<Pid, Proc>, log: seq<Entry>) {
    forall pid :: pid in procs ==> FanOutKeyed(procs[pid].f, log)
  }

  lemma KeyedMore(log: seq<Entry>, more: seq<Entry>, q: Id, trace: Id)
    requires Keyed(log, q, trace)
    ensures Keyed(log + more, q, trace)
  {
    var i :| 0 <= i < |log| && log[i].record.queueId == q && log[i].record.traceId == trace;
    assert (log + more)[i] == log[i];
  }

  /** Every target keeps its driver trace or has none. */
  ghost predicate NothingTraced(a: map<Id, Target>, b: map<Id, Target>) {
    forall t :: t in b && b[t].driverTraceId.Some? ==>
      t in a && b[t].queueId == a[t].queueId && b[t].driverTraceId == a[t].driverTraceId
  }

  /** A move emits the record of what it has acked. */
  lemma MoveKeyed(f: FanOut, mv: Move, log: seq<Entry>, at: Time)
    requires Consistent(f) && CanMove(f, mv) && FanOutKeyed(f, log)
    ensures FanOutKeyed(DoMove(f, mv), log + Stamp(Emitted(f, mv), at))
  {
    var f', log' := DoMove(f, mv), log + Stamp(Emitted(f, mv), at);
    forall i | 0 <= i < |f'.gs| ensures AckKeyed(f'.queues[i].id, f'.gs[i], log') {
      var q, g := f.queues[i].id, f.gs[i];
      assert AckKeyed(q, g, log);
      if HasTries(g) && WasAcked(TriesOf(g)) { KeyedMore(log, Stamp(Emitted(f, mv), at), q, TraceOf(g)); }
      if mv.Go? && mv.i == i {
        GoKeyed(f, i, mv.choice, log, at);
      }
    }
  }

  lemma GoKeyed(f: FanOut, i: nat, c: Choice, log: seq<Entry>, at: Time)
    requires Consistent(f) && CanMove(f, Go(i, c)) && AckKeyed(f.queues[i].id, f.gs[i], log)
    ensures AckKeyed(f.queues[i].id, Advance(f.gs[i], c), log + Stamp(Emitted(f, Go(i, c)), at))
  {
    var q, g, more := f.queues[i].id, f.gs[i], Stamp(Emitted(f, Go(i, c)), at);
    AdvanceGood(g, c);
    if HasTries(g) && WasAcked(TriesOf(g)) { KeyedMore(log, more, q, TraceOf(g)); }
    if g.Trying? && c.Send? && c.result == Acked {
      assert (log + more)[|log|].record == Record(f.topic, q, g.traceId);
    }
  }

  /** The traces the last batch writes are those of acked records. */
  lemma BatchKeyed(ts: map<Id, Target>, f: FanOut, log: seq<Entry>)
    requires TracesKeyed(ts, log) && Consistent(f) && FanOutKeyed(f, log)
    ensures TracesKeyed(SetTargetTrace(ts, f.traceIds, Enqueued), log)
  {
    forall q | q in f.traceIds ensures Keyed(log, q, f.traceIds[q]) {
      var i :| 0 <= i < |f.queues| && f.queues[i].id == q;
      assert AckKeyed(q, f.gs[i], log) && GoodGoroutine(f.gs[i]);
    }
    var ts' := SetTargetTrace(ts, f.traceIds, Enqueued);
    forall t | t in ts' && ts'[t].driverTraceId.Some? ensures Keyed(log, ts'[t].queueId, ts'[t].driverTraceId.value) {}
  }

  /******* Every run *******/

  ghost predicate History(s: State) {
    && StatusesJustified(s.db.targets, s.calls) && AnswersAsked(s.workers, s.calls)
    && TracesKeyed(s.db.targets, s.log) && ProcsKeyed(s.procs, s.log)
  }

  /** What most actions do to the targets. */
  lemma Unanswered(a: map<Id, Target>, b: map<Id, Target>, calls: seq<Call>, log: seq<Entry>)
    requires NothingAnswered(a, b) && NothingTraced(a, b) && StatusesJustified(a, calls) && TracesKeyed(a, log)
    ensures StatusesJustified(b, calls) && TracesKeyed(b, log)
  {
  }

  lemma StartKeyed(topic: Topic, queues: seq<QueueRef>, log: seq<Entry>)
    ensures FanOutKeyed(Start(topic, queues), log)
  {
  }

  lemma PublishHistory(s: State, mid: Id, m: Message, receivers: seq<Bytes>, at: Time, d: Draws)
    requires History(s) && CanPublish(s, mid, m, receivers, at, d)
    ensures History(DoPublish(s, mid, m, receivers, at, d))
  {
    var b, s' := BatchOf(s, mid, m, receivers, at, d), DoPublish(s, mid, m, receivers, at, d);
    PreparedIsBatch(receivers, LimitOf(s.config, m.mtype), CommonOf(mid, m, at), s.config.aead, d);
    forall t | t in s'.db.targets && t !in s.db.targets
      ensures IsInternal(s'.db.targets[t].status) && s'.db.targets[t].driverTraceId == None
    {
      var i := RowMapIndex(b.targets, t);
      assert IsTargetRow(b.targets[i].1, b.queues, CommonOf(mid, m, at));
    }
    Unanswered(s.db.targets, s'.db.targets, s.calls, s.log);
    StartKeyed(TopicOf(m.mtype), Refs(b), s.log);
  }

  lemma FanOutStaysKeyed(f: FanOut, log: seq<Entry>, more: seq<Entry>)
    requires FanOutKeyed(f, log)
    ensures FanOutKeyed(f, log + more)
  {
    forall i | 0 <= i < |f.gs| ensures AckKeyed(f.queues[i].id, f.gs[i], log + more) {
      assert AckKeyed(f.queues[i].id, f.gs[i], log);
      if HasTries(f.gs[i]) && WasAcked(TriesOf(f.gs[i])) { KeyedMore(log, more, f.queues[i].id, TraceOf(f.gs[i])); }
    }
  }

  lemma TracesStayKeyed(ts: map<Id, Target>, log: seq<Entry>, more: seq<Entry>)
    requires TracesKeyed(ts, log)
    ensures TracesKeyed(ts, log + more)
  {
    forall t | t in ts && ts[t].driverTraceId.Some? ensures Keyed(log + more, ts[t].queueId, ts[t].driverTraceId.value) {
      KeyedMore(log, more, ts[t].queueId, ts[t].driverTraceId.value);
    }
  }

  lemma FanOutHistory(s: State, pid: Pid, mv: Move)
    requires Inv(s) && History(s) && pid in s.procs && s.procs[pid].stage == Fanning && CanMove(s.procs[pid].f, mv)
    ensures History(DoFanOutMove(s, pid, mv))
  {
    var f, s' := s.procs[pid].f, DoFanOutMove(s, pid, mv);
    assert ProcInv(s.db, s.now, s.tries, s.log, pid, s.procs[pid]);
    var more := Stamp(Emitted(f, mv), s.now);
    MoveKeyed(f, mv, s.log, s.now);
    TracesStayKeyed(s.db.targets, s.log, more);
    forall p | p in s'.procs ensures FanOutKeyed(s'.procs[p].f, s'.log) {
      if p != pid { FanOutStaysKeyed(s.procs[p].f, s.log, more); }
    }
  }

  lemma ProvideHistory(s: State, wid: nat, answer: Answer)
    requires History(s) && wid in s.workers
    ensures History(DoProvide(s, wid, answer))
  {
    var w, s' := s.workers[wid], DoProvide(s, wid, answer);
    var c := Call(w.topic, w.queueId, w.targets, s.now, answer);
    forall t | t in s.db.targets ensures Justified(s'.calls, s.db.targets[t].queueId, t, s.db.targets[t].status) {
      MoreCalls(s.calls, c, s.db.targets[t].queueId, t, s.db.targets[t].status);
    }
    forall x | x in s'.workers && s'.workers[x].stage.Answered?
      ensures Asked(s'.calls, s'.workers[x].queueId, s'.workers[x].stage.answer)
    {
      AskedMore(s.calls, c, s'.workers[x].queueId, s'.workers[x].stage.answer);
    }
  }

  lemma ConcludeHistory(s: State, wid: nat, ending: Ending)
    requires Inv(s) && History(s) && wid in s.workers && s.workers[wid].stage.Answered?
    ensures History(DoConclude(s, wid, ending))
  {
    var w := s.workers[wid];
    assert WorkerInv(s.db, s.log, w);
    if ending == Committed {
      ConcludeJustified(s.db, s.log, s.calls, w);
      ConcludeKeyed(s.db, s.log, w);
    }
  }

  lemma ConcludeKeyed(db: Store, log: seq<Entry>, w: Worker)
    requires TracesKeyed(db.targets, log) && w.stage.Answered?
    ensures TracesKeyed(ConcludeTx(db, w).targets, log)
  {
  }

  lemma BatchInternal(db: Store, ids: set<Id>, mids: set<Id>, st: Status, traces: map<Id, Id>)
    requires IsInternal(st)
    ensures NothingAnswered(db.targets, BatchUpdate(db, ids, mids, st, traces).targets)
    ensures traces == map[] ==> NothingTraced(db.targets, BatchUpdate(db, ids, mids, st, traces).targets)
  {
  }

  lemma StillJustified(a: map<Id, Target>, b: map<Id, Target>, calls: seq<Call>)
    requires NothingAnswered(a, b) && StatusesJustified(a, calls)
    ensures StatusesJustified(b, calls)
  {
  }

  lemma EnqueuedHistory(s: State, pid: Pid, commits: bool)
    requires Inv(s) && History(s) && pid in s.procs && s.procs[pid].stage == Fanning
    ensures History(DoEnqueuedTx(s, pid, commits))
  {
    var f := s.procs[pid].f;
    assert ProcInv(s.db, s.now, s.tries, s.log, pid, s.procs[pid]);
    assert FanOutKeyed(f, s.log);
    if commits {
      BatchInternal(s.db, f.successes.Keys, ValuesOf(f.successes), Enqueued, f.traceIds);
      StillJustified(s.db.targets, DoEnqueuedTx(s, pid, commits).db.targets, s.calls);
      if f.traceIds != map[] {
        BatchKeyed(s.db.targets, f, s.log);
      }
    }
  }

  lemma ProcessHistory(s: State, pid: Pid, commits: bool)
    requires History(s) && pid in s.procs
    ensures History(DoProcessTx(s, pid, commits))
  {
  }

  lemma CancelHistory(s: State, mid: Id)
    requires History(s)
    ensures History(DoCancel(s, mid))
  {
  }

  lemma MarkHistory(s: State, wid: nat, commits: bool)
    requires History(s) && wid in s.workers
    ensures History(DoMarkSending(s, wid, commits))
  {
  }

  lemma OtherHistory(s: State, a: Action)
    requires History(s) && Enabled(s, a)
    requires a.Tick? || a.ProcCrash? || a.Select? || a.DispatchNext? || a.DispatchEnd? || a.CancelCheck? || a.Fetch?
             || a.WorkerCrash?
    ensures History(Perform(s, a))
  {
    if a.DispatchNext? { StartKeyed(TopicOf(s.todo.value[0].mtype), s.todo.value[0].queues, s.log); }
  }

  lemma SendingHistory(s: State, a: Action)
    requires Inv(s) && History(s) && Enabled(s, a) && WritesSending(a)
    ensures History(Perform(s, a))
  {
    match a
    case PublishMessage(mid, m, receivers, at, d) => PublishHistory(s, mid, m, receivers, at, d);
    case ProcessTx(pid, commits) => ProcessHistory(s, pid, commits);
    case EnqueuedTx(pid, commits) => EnqueuedHistory(s, pid, commits);
  }

  lemma HandlingHistory(s: State, a: Action)
    requires Inv(s) && History(s) && Enabled(s, a) && WritesHandling(a)
    ensures History(Perform(s, a))
  {
    match a
    case CancelCommit(mid) => CancelHistory(s, mid);
    case MarkSending(wid, commits) => MarkHistory(s, wid, commits);
    case Conclude(wid, ending) => ConcludeHistory(s, wid, ending);
  }

  lemma StepHistory(s: State, a: Action)
    requires Inv(s) && History(s)
    ensures History(Step(s, a))
  {
    if Enabled(s, a) {
      if WritesSending(a) {
        SendingHistory(s, a);
      } else if WritesHandling(a) {
        HandlingHistory(s, a);
      } else if a.FanOutMove? {
        FanOutHistory(s, a.pid, a.mv);
      } else if a.Provide? {
        ProvideHistory(s, a.wid, a.answer);
      } else {
        OtherHistory(s, a);
      }
    }
  }

  lemma {:induction false} RunHistory(config: Config, now: Time, actions: seq<Action>)
    ensures History(Run(Init(config, now), actions))
  {
    if actions != [] {
      var n := |actions| - 1;
      RunHistory(config, now, actions[..n]);
      RunKeeps(config, now, actions[..n]);
      StepHistory(Run(Init(config, now), actions[..n]), actions[n]);
    }
  }

  /** In every reachable state a target's driver trace is the key of a record of its own queue in the log. */
  lemma DriverTraceIsKey(s: State, t: Id)
    requires Reachable(s) && t in s.db.targets && s.db.targets[t].driverTraceId.Some?
    ensures Keyed(s.log, s.db.targets[t].queueId, s.db.targets[t].driverTraceId.value)
  {
    var config, now, actions :| s == Run(Init(config, now), actions);
    RunHistory(config, now, actions);
  }

  /**
    A live target has its queue's status, unless the queue has succeeded.  Then for mail it is `sent`; for SMS it
    has the status that some successful answer gave its section, or failed with a refused batch, or no
    conclusion has written it and it is as a marking or the last enqueue batch left it.
   */
  lemma QueueTargetAgreement(s: State, t: Id)
    requires Reachable(s) && t in s.db.targets
    ensures var row := s.db.targets[t];
            && row.queueId in s.db.queues
            && var q := s.db.queues[row.queueId];
            && row.messageId == q.messageId && row.createdAt == q.createdAt && q.messageId in s.db.messages
            && row.deleted == q.deleted
            && (q.status != Success ==> row.status == q.status)
            && (q.status == Success && s.db.messages[q.messageId].mtype == Mail ==> row.status == Sent)
            && (q.status == Success && s.db.messages[q.messageId].mtype == Sms ==>
                  || GivenBy(s.calls, row.queueId, t, row.status)
                  || (row.status == Failed && Refused(s.calls, row.queueId))
                  || row.status in {Sending, Enqueued})
            && Justified(s.calls, row.queueId, t, row.status)
  {
    ReachableInv(s);
    assert TargetOk(s.db.targets[t], QueueOf(s.db, t), MessageOf(s.db, s.db.targets[t].queueId));
    var config, now, actions :| s == Run(Init(config, now), actions);
    RunHistory(config, now, actions);
    assert Justified(s.calls, s.db.targets[t].queueId, t, s.db.targets[t].status);
  }
}
