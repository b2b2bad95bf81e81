/**
  The delivery pipeline as one transition system: publishers, the cron dispatcher, the
  goroutines of every fan-out, the workers, cancellation, crashes and the clock, over the
  store and the Kafka log.  Each database transaction is one step.  An action that is not
  enabled leaves the state as it is, so a run is any sequence of actions.
 */
module Pipeline {
  import opened Entities
  import opened Tables
  import opened Snowflake
  import opened AesGcm
  import opened Publish
  import opened Goroutines
  import opened MitakeSms
  import opened Scheduling

  datatype Config = Config(smsLimit: int, mailLimit: int, scheduleLimitDays: int, aead: Aead)

  /** A record in the log and when it got there. */
  datatype Entry = Entry(record: Record, at: Time)

  datatype Stage = Before | Fanning

  /** One HandleEnqueue call in progress. */
  datatype Proc = Proc(messageId: Id, f: FanOut, stage: Stage)

  /** Who is enqueueing: the publish call of one message, or the dispatcher. */
  datatype Pid = Publisher(messageId: Id) | Cron

  /** A message the dispatcher has selected, with the queues preloaded for it. */
  datatype Selected = Selected(messageId: Id, mtype: MessageType, queues: seq<QueueRef>)

  /** What the provider answered. */
  datatype Answer = SmsAnswer(rows: map<Section, Status>) | MailAnswer(sent: bool, trace: string)

  /** A request handed to a provider, and its answer. */
  datatype Call = Call(channel: Topic, queueId: Id, targets: set<Id>, at: Time, answer: Answer)

  datatype WorkerStage = Fetched | Marked | Answered(answer: Answer)

  /** How the last transaction of a handler ends; the mail failure event is written outside it. */
  datatype Ending = Committed | RolledBack | RolledBackAfterEvent

  /** A handler at work on one record, with what it loaded. */
  datatype Worker = Worker(topic: Topic, queueId: Id, messageId: Id, targets: set<Id>, stage: WorkerStage)

  datatype State = State(
    config: Config, db: Store, now: Time, log: seq<Entry>, tries: map<Id, seq<Try>>,
    procs: map<Pid, Proc>, todo: Option<seq<Selected>>, cancels: set<Id>,
    workers: map<nat, Worker>, calls: seq<Call>)

  datatype Action =
    | Tick(d: nat)
    | PublishMessage(mid: Id, message: Message, receivers: seq<Bytes>, at: Time, draws: Draws)
    | ProcessTx(pid: Pid, commits: bool)
    | FanOutMove(pid: Pid, mv: Move)
    | EnqueuedTx(pid: Pid, commits: bool)
    | ProcCrash(pid: Pid)
    | Select(found: seq<Selected>)
    | DispatchNext
    | DispatchEnd
    | CancelCheck(mid: Id)
    | CancelCommit(mid: Id)
    | Fetch(wid: nat, offset: nat)
    | MarkSending(wid: nat, commits: bool)
    | Provide(wid: nat, answer: Answer)
    | Conclude(wid: nat, ending: Ending)
    | WorkerCrash(wid: nat)

  function Init(config: Config, now: Time): State {
    State(config, EMPTY, now, [], map[], map[], None, {}, map[], [])
  }

  /******* Publishing *******/

  function LimitOf(c: Config, t: MessageType): int {
    match t case Sms => c.smsLimit case Mail => c.mailLimit
  }

  function CommonOf(mid: Id, m: Message, at: Time): Common { Common(mid, m.mtype, at) }

  function BatchOf(s: State, mid: Id, m: Message, receivers: seq<Bytes>, at: Time, d: Draws): Batch {
    Prepared(receivers, LimitOf(s.config, m.mtype), CommonOf(mid, m, at), s.config.aead, d)
  }

  /** The hour either side of the instant in the message id, which cancellation searches. */
  predicate InWindow(at: Time, mid: Id) { Within(at, TimeOf(mid) - HOUR, TimeOf(mid) + HOUR) }

  /** The insert of an empty slice fails and rolls the whole publish back. */
  ghost predicate CanPublish(s: State, mid: Id, m: Message, receivers: seq<Bytes>, at: Time, d: Draws) {
    && receivers != [] && LimitOf(s.config, m.mtype) > 0
    && Increasing(d.ids)
    && m.status == (if m.scheduledAt.Some? then Scheduled else Pending) && !m.deleted
    && InWindow(m.createdAt, mid) && InWindow(at, mid)
    && Fresh(s.db, mid, BatchOf(s, mid, m, receivers, at, d))
  }

  ghost function DoPublish(s: State, mid: Id, m: Message, receivers: seq<Bytes>, at: Time, d: Draws): State
    requires CanPublish(s, mid, m, receivers, at, d)
  {
    var b := BatchOf(s, mid, m, receivers, at, d);
    PreparedIsBatch(receivers, LimitOf(s.config, m.mtype), CommonOf(mid, m, at), s.config.aead, d);
    var s' := s.(db := CreateTx(s.db, mid, m, b));
    if m.scheduledAt.None?
    then s'.(procs := s.procs[Publisher(mid) := Proc(mid, Start(TopicOf(m.mtype), Refs(b)), Before)])
    else s'
  }

  /******* Fan-out *******/

  /** The batch update to `process`; when it fails the call returns before any send. */
  function DoProcessTx(s: State, pid: Pid, commits: bool): State
    requires pid in s.procs
  {
    var p := s.procs[pid];
    if commits then
      s.(db := BatchUpdate(s.db, Ids(p.f.queues), MessageIds(p.f.queues), Process, map[]),
         procs := s.procs[pid := p.(stage := Fanning)])
    else s.(procs := s.procs - {pid})
  }

  function TriesFor(tries: map<Id, seq<Try>>, qid: Id): seq<Try> { if qid in tries then tries[qid] else [] }

  predicate IsSend(f: FanOut, mv: Move)
    requires CanMove(f, mv)
  {
    mv.Go? && f.gs[mv.i].Trying? && mv.choice.Send?
  }

  function Stamp(records: seq<Record>, at: Time): seq<Entry> {
    seq(|records|, i requires 0 <= i < |records| => Entry(records[i], at))
  }

  function DoFanOutMove(s: State, pid: Pid, mv: Move): State
    requires pid in s.procs && CanMove(s.procs[pid].f, mv)
  {
    var p := s.procs[pid];
    s.(procs := s.procs[pid := p.(f := DoMove(p.f, mv))],
       log := s.log + Stamp(Emitted(p.f, mv), s.now),
       tries := if IsSend(p.f, mv)
                then s.tries[p.f.queues[mv.i].id := TriesFor(s.tries, p.f.queues[mv.i].id) + [mv.choice.result]]
                else s.tries)
  }

  /** The batch update to `enqueued`; its failure is only logged. */
  function DoEnqueuedTx(s: State, pid: Pid, commits: bool): State
    requires pid in s.procs
  {
    var f := s.procs[pid].f;
    s.(db := if commits then BatchUpdate(s.db, f.successes.Keys, ValuesOf(f.successes), Enqueued, f.traceIds) else s.db,
       procs := s.procs - {pid})
  }

  /******* Dispatcher *******/

  predicate Eligible(s: State, m: Message) { EligibleAt(m, s.now, s.config.scheduleLimitDays) }

  ghost predicate LoadsQueues(db: Store, mid: Id, queues: seq<QueueRef>) {
    && DistinctIds(queues)
    && (forall i :: 0 <= i < |queues| ==>
          && queues[i].id in db.queues && !db.queues[queues[i].id].deleted
          && db.queues[queues[i].id].messageId == queues[i].messageId == mid)
    && (forall q :: q in db.queues && db.queues[q].messageId == mid && !db.queues[q].deleted ==> q in Ids(queues))
  }

  /** `found` lists every eligible message once, with all of its live queues. */
  ghost predicate SelectsAll(db: Store, now: Time, limitDays: int, found: seq<Selected>) {
    && (forall i :: 0 <= i < |found| ==>
          && found[i].messageId in db.messages
          && EligibleAt(db.messages[found[i].messageId], now, limitDays)
          && found[i].mtype == db.messages[found[i].messageId].mtype
          && LoadsQueues(db, found[i].messageId, found[i].queues))
    && (forall i, j :: 0 <= i < j < |found| ==> found[i].messageId != found[j].messageId)
    && (forall m :: m in db.messages && EligibleAt(db.messages[m], now, limitDays) ==>
          exists i :: 0 <= i < |found| && found[i].messageId == m)
  }

  ghost predicate IsSelection(s: State, found: seq<Selected>) {
    SelectsAll(s.db, s.now, s.config.scheduleLimitDays, found)
  }

  /** The enqueueing process is gone; the dispatcher's run goes with it. */
  function DoProcCrash(s: State, pid: Pid): State {
    s.(procs := s.procs - {pid}, todo := if pid == Cron then None else s.todo)
  }

  function DoDispatchNext(s: State): State
    requires s.todo.Some? && s.todo.value != []
  {
    var m := s.todo.value[0];
    s.(procs := s.procs[Cron := Proc(m.messageId, Start(TopicOf(m.mtype), m.queues), Before)],
       todo := Some(s.todo.value[1..]))
  }

  /******* Cancellation *******/

  /** The lookup and the one refusal, before the transaction. */
  predicate CanCancel(s: State, mid: Id) {
    && mid in s.db.messages && !s.db.messages[mid].deleted
    && InWindow(s.db.messages[mid].createdAt, mid)
    && s.db.messages[mid].status != Enqueued
  }

  function DoCancel(s: State, mid: Id): State {
    s.(db := CancelTx(s.db, mid, TimeOf(mid) - HOUR, TimeOf(mid) + HOUR), cancels := s.cancels - {mid})
  }

  /******* Workers *******/

  /** The one-sided pruning of the fetch. */
  predicate Visible(db: Store, qid: Id) {
    qid in db.queues && !db.queues[qid].deleted && db.queues[qid].createdAt >= TimeOf(qid)
  }

  function LiveTargets(db: Store, qid: Id): set<Id> {
    set t | t in db.targets && db.targets[t].queueId == qid && !db.targets[t].deleted
  }

  /**
    A queue that is canceled, or created before the instant in its own id, is not found;
    the empty queue then makes the process exit, so no worker goes on with it.
   */
  function DoFetch(s: State, wid: nat, offset: nat): State
    requires offset < |s.log|
  {
    var r := s.log[offset].record;
    if Visible(s.db, r.queueId) then
      s.(workers := s.workers[wid :=
           Worker(r.topic, r.queueId, s.db.queues[r.queueId].messageId, LiveTargets(s.db, r.queueId), Fetched)])
    else s
  }

  /** When the transaction fails, the failure path dereferences a missing response and the process exits. */
  function DoMarkSending(s: State, wid: nat, commits: bool): State
    requires wid in s.workers
  {
    var w := s.workers[wid];
    if commits then
      s.(db := SendingTx(s.db, w.queueId, TimeOf(w.queueId)), workers := s.workers[wid := w.(stage := Marked)])
    else s.(workers := s.workers - {wid})
  }

  /** Sections name requested targets, or nothing that is a target; statuses come from the code table. */
  predicate Answers(w: Worker, answer: Answer) {
    match w.topic
    case NotifySms =>
      && answer.SmsAnswer?
      && (forall n :: n in answer.rows ==>
            (n.TargetSection? ==> n.id in w.targets) && answer.rows[n] in {Sent, Failed, Blank})
    case NotifyMail => answer.MailAnswer?
  }

  function DoProvide(s: State, wid: nat, answer: Answer): State
    requires wid in s.workers
  {
    var w := s.workers[wid];
    s.(calls := s.calls + [Call(w.topic, w.queueId, w.targets, s.now, answer)],
       workers := s.workers[wid := w.(stage := Answered(answer))])
  }

  function ConcludeTx(db: Store, w: Worker): Store
    requires w.stage.Answered?
  {
    match w.stage.answer
    case SmsAnswer(rows) =>
      if Verdict(rows) == Sent then SmsSuccessTx(db, w.queueId, w.messageId, rows)
      else FailTx(db, w.queueId, w.messageId, SectionEvents(rows.Keys, Failed, w.queueId))
    case MailAnswer(sent, trace) =>
      if sent then MailSuccessTx(db, w.queueId, w.messageId, w.targets, trace)
      else FailTx(db, w.queueId, w.messageId, multiset{Event(Sendgrid, Failed, HeaderTrace(trace), w.queueId)})
  }

  /** The mail failure event goes through another connection, so it can outlive a rollback. */
  function WithFailureEvent(db: Store, w: Worker): Store
    requires w.stage.Answered?
  {
    match w.stage.answer
    case SmsAnswer(_) => db
    case MailAnswer(sent, trace) =>
      if sent then db
      else db.(events := db.events + multiset{Event(Sendgrid, Failed, HeaderTrace(trace), w.queueId)})
  }

  function Concluded(db: Store, w: Worker, ending: Ending): Store
    requires w.stage.Answered?
  {
    match ending
    case Committed => ConcludeTx(db, w)
    case RolledBack => db
    case RolledBackAfterEvent => WithFailureEvent(db, w)
  }

  function DoConclude(s: State, wid: nat, ending: Ending): State
    requires wid in s.workers && s.workers[wid].stage.Answered?
  {
    s.(db := Concluded(s.db, s.workers[wid], ending), workers := s.workers - {wid})
  }

  /******* Runs *******/

  ghost predicate Enabled(s: State, a: Action) {
    match a
    case Tick(_) => true
    case PublishMessage(mid, m, receivers, at, d) => CanPublish(s, mid, m, receivers, at, d)
    case ProcessTx(pid, _) => pid in s.procs && s.procs[pid].stage == Before
    case FanOutMove(pid, mv) => pid in s.procs && s.procs[pid].stage == Fanning && CanMove(s.procs[pid].f, mv)
    case EnqueuedTx(pid, _) => pid in s.procs && s.procs[pid].stage == Fanning && s.procs[pid].f.pc.Joined?
    case ProcCrash(pid) => pid in s.procs
    case Select(found) => s.todo.None? && IsSelection(s, found)
    case DispatchNext => s.todo.Some? && s.todo.value != [] && Cron !in s.procs
    case DispatchEnd => s.todo.Some? && Cron !in s.procs
    case CancelCheck(mid) => CanCancel(s, mid)
    case CancelCommit(mid) => mid in s.cancels
    case Fetch(wid, offset) => wid !in s.workers && offset < |s.log|
    case MarkSending(wid, _) => wid in s.workers && s.workers[wid].stage == Fetched
    case Provide(wid, answer) => wid in s.workers && s.workers[wid].stage == Marked && Answers(s.workers[wid], answer)
    case Conclude(wid, _) => wid in s.workers && s.workers[wid].stage.Answered?
    case WorkerCrash(wid) => wid in s.workers
  }

  ghost function Perform(s: State, a: Action): State
    requires Enabled(s, a)
  {
    match a
    case Tick(d) => s.(now := s.now + d)
    case PublishMessage(mid, m, receivers, at, d) => DoPublish(s, mid, m, receivers, at, d)
    case ProcessTx(pid, commits) => DoProcessTx(s, pid, commits)
    case FanOutMove(pid, mv) => DoFanOutMove(s, pid, mv)
    case EnqueuedTx(pid, commits) => DoEnqueuedTx(s, pid, commits)
    case ProcCrash(pid) => DoProcCrash(s, pid)
    case Select(found) => s.(todo := Some(found))
    case DispatchNext => DoDispatchNext(s)
    case DispatchEnd => DoProcCrash(s, Cron)
    case CancelCheck(mid) => s.(cancels := s.cancels + {mid})
    case CancelCommit(mid) => DoCancel(s, mid)
    case Fetch(wid, offset) => DoFetch(s, wid, offset)
    case MarkSending(wid, commits) => DoMarkSending(s, wid, commits)
    case Provide(wid, answer) => DoProvide(s, wid, answer)
    case Conclude(wid, ending) => DoConclude(s, wid, ending)
    case WorkerCrash(wid) => s.(workers := s.workers - {wid})
  }

  ghost function Step(s: State, a: Action): State {
    if Enabled(s, a) then Perform(s, a) else s
  }

  ghost function Run(s: State, actions: seq<Action>): State {
    if actions == [] then s else Step(Run(s, actions[..|actions| - 1]), actions[|actions| - 1])
  }
}
