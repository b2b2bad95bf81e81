/** What every step of the pipeline keeps. */
module PipelineInvariant {
  import opened Entities
  import opened Tables
  import opened Snowflake
  import opened Goroutines
  import opened Pipeline

  /******* The store *******/

  ghost predicate HasQueue(db: Store, m: Id) { exists q :: q in db.queues && db.queues[q].messageId == m }

  ghost predicate HasTargetRow(db: Store, q: Id) { exists t :: t in db.targets && db.targets[t].queueId == q }

  /** No message is without queues and no queue without targets. */
  ghost predicate Populated(db: Store) {
    && (forall m {:trigger HasQueue(db, m)} :: m in db.messages ==> HasQueue(db, m))
    && (forall q {:trigger HasTargetRow(db, q)} :: q in db.queues ==> HasTargetRow(db, q))
  }

  /** References resolve. */
  ghost predicate Linked(db: Store) {
    && (forall q :: q in db.queues ==> db.queues[q].messageId in db.messages)
    && (forall t :: t in db.targets ==> db.targets[t].queueId in db.queues)
  }

  /** A target of a queue in status `st`, for a message of type `mtype`, may have status `ts`. */
  predicate Agrees(mtype: MessageType, st: Status, ts: Status) {
    if st != Success then ts == st
    else if mtype == Mail then ts == Sent
    else ts in {Sent, Failed, Blank, Sending, Enqueued}
  }

  /** Deleted means canceled; creation fits the cancel window; only a scheduled message waits. */
  predicate MessageOk(mid: Id, m: Message) {
    && InWindow(m.createdAt, mid)
    && (m.deleted <==> m.status == Canceled)
    && (m.status == Scheduled ==> m.scheduledAt.Some?)
  }

  /** A queue is canceled with its message, and untouched while its message waits. */
  predicate QueueOk(q: Queue, m: Message) {
    && InWindow(q.createdAt, q.messageId)
    && (q.deleted <==> q.status == Canceled)
    && (q.deleted <==> m.deleted)
    && (m.status == Scheduled ==> q.status == Pending)
  }

  /** A target is canceled with its queue and agrees with it. */
  predicate TargetOk(t: Target, q: Queue, m: Message) {
    && t.messageId == q.messageId && t.createdAt == q.createdAt
    && (t.deleted <==> t.status == Canceled)
    && (t.deleted <==> q.deleted)
    && Agrees(m.mtype, q.status, t.status)
  }

  function QueueOf(db: Store, t: Id): Queue
    requires Linked(db) && t in db.targets
  {
    db.queues[db.targets[t].queueId]
  }

  predicate Known(db: Store, q: Id) { q in db.queues && db.queues[q].messageId in db.messages }

  function MessageOf(db: Store, q: Id): Message
    requires Known(db, q)
  {
    db.messages[db.queues[q].messageId]
  }

  ghost predicate RowsInv(db: Store) {
    && Linked(db)
    && (forall m :: m in db.messages ==> MessageOk(m, db.messages[m]))
    && (forall q :: q in db.queues ==> QueueOk(db.queues[q], MessageOf(db, q)))
    && (forall t :: t in db.targets ==> TargetOk(db.targets[t], QueueOf(db, t), MessageOf(db, db.targets[t].queueId)))
  }

  ghost predicate DbInv(db: Store) { RowsInv(db) && Populated(db) }

  /******* The actors *******/

  ghost predicate Recorded(log: seq<Entry>, q: Id) { exists i :: 0 <= i < |log| && log[i].record.queueId == q }

  /** No SendMessage call has been made for the queue and no record of it exists. */
  ghost predicate Untouched(tries: map<Id, seq<Try>>, log: seq<Entry>, q: Id) {
    TriesFor(tries, q) == [] && !Recorded(log, q)
  }

  predicate Due(m: Message, at: Time) { m.scheduledAt.Some? ==> m.scheduledAt.value <= at }

  predicate EntryInv(db: Store, now: Time, e: Entry) {
    && Known(db, e.record.queueId)
    && var m := MessageOf(db, e.record.queueId);
    && e.record.topic == TopicOf(m.mtype)
    && Due(m, e.at) && e.at <= now
    && m.status != Scheduled
  }

  ghost predicate LogInv(db: Store, now: Time, log: seq<Entry>) {
    forall i :: 0 <= i < |log| ==> EntryInv(db, now, log[i])
  }

  ghost predicate TriesInv(db: Store, tries: map<Id, seq<Try>>) {
    forall q :: q in tries ==>
      && WithinRetry(tries[q]) && Known(db, q)
      && (tries[q] != [] ==> MessageOf(db, q).status != Scheduled)
  }

  ghost predicate RefsInv(db: Store, mid: Id, queues: seq<QueueRef>) {
    && queues != [] && DistinctIds(queues)
    && forall i :: 0 <= i < |queues| ==>
         && queues[i].messageId == mid && queues[i].id in db.queues
         && db.queues[queues[i].id].messageId == mid
  }

  ghost predicate AllUntouched(tries: map<Id, seq<Try>>, log: seq<Entry>, queues: seq<QueueRef>) {
    forall i :: 0 <= i < |queues| ==> Untouched(tries, log, queues[i].id)
  }

  /** The tries made for a queue are those of its goroutine. */
  ghost predicate TriesMatch(tries: map<Id, seq<Try>>, f: FanOut) {
    |f.gs| == |f.queues| && forall i :: 0 <= i < |f.gs| ==> TriesFor(tries, f.queues[i].id) == TriesOf(f.gs[i])
  }

  predicate Owns(pid: Pid, mid: Id, m: Message) {
    if pid.Publisher? then pid.messageId == mid && m.scheduledAt.None? else m.scheduledAt.Some?
  }

  ghost predicate ProcInv(db: Store, now: Time, tries: map<Id, seq<Try>>, log: seq<Entry>, pid: Pid, p: Proc) {
    && Consistent(p.f)
    && p.messageId in db.messages
    && var m := db.messages[p.messageId];
    && p.f.topic == TopicOf(m.mtype)
    && RefsInv(db, p.messageId, p.f.queues)
    && Due(m, now) && Owns(pid, p.messageId, m)
    && match p.stage
       case Before => p.f == Start(p.f.topic, p.f.queues) && AllUntouched(tries, log, p.f.queues)
       case Fanning => m.status != Scheduled && TriesMatch(tries, p.f)
  }

  ghost predicate ProcsInv(db: Store, now: Time, tries: map<Id, seq<Try>>, log: seq<Entry>, procs: map<Pid, Proc>) {
    forall pid :: pid in procs ==> ProcInv(db, now, tries, log, pid, procs[pid])
  }

  ghost predicate SelectedInv(db: Store, now: Time, tries: map<Id, seq<Try>>, log: seq<Entry>, x: Selected) {
    && x.messageId in db.messages
    && var m := db.messages[x.messageId];
    && m.mtype == x.mtype && m.scheduledAt.Some? && Due(m, now)
    && RefsInv(db, x.messageId, x.queues)
    && AllUntouched(tries, log, x.queues)
  }

  /** The message the dispatcher is enqueueing. */
  function Busy(procs: map<Pid, Proc>): Option<Id> { if Cron in procs then Some(procs[Cron].messageId) else None }

  ghost predicate TodoInv(
    db: Store, now: Time, tries: map<Id, seq<Try>>, log: seq<Entry>, busy: Option<Id>, todo: Option<seq<Selected>>) {
    match todo
    case None => busy.None?
    case Some(xs) =>
      && (forall i :: 0 <= i < |xs| ==> SelectedInv(db, now, tries, log, xs[i]) && busy != Some(xs[i].messageId))
      && (forall i, j :: 0 <= i < j < |xs| ==> xs[i].messageId != xs[j].messageId)
  }

  /** The statuses a queue can have once some handler has marked it. */
  predicate Handled(st: Status) { st in {Sending, Enqueued, Success, Failed, Canceled} }

  ghost predicate HasRecord(log: seq<Entry>, q: Id, topic: Topic) {
    exists i :: 0 <= i < |log| && log[i].record.queueId == q && log[i].record.topic == topic
  }

  ghost predicate WorkerInv(db: Store, log: seq<Entry>, w: Worker) {
    && HasRecord(log, w.queueId, w.topic)
    && w.queueId in db.queues
    && w.messageId == db.queues[w.queueId].messageId
    && db.queues[w.queueId].createdAt >= TimeOf(w.queueId)
    && (forall t :: t in w.targets <==> t in db.targets && db.targets[t].queueId == w.queueId)
    && (w.stage != Fetched ==> Handled(db.queues[w.queueId].status))
    && (w.stage.Answered? ==> Answers(w, w.stage.answer))
  }

  ghost predicate WorkersInv(db: Store, log: seq<Entry>, workers: map<nat, Worker>) {
    forall w :: w in workers ==> WorkerInv(db, log, workers[w])
  }

  ghost predicate CallInv(db: Store, now: Time, c: Call) {
    && Known(db, c.queueId)
    && var m := MessageOf(db, c.queueId);
    && c.channel == TopicOf(m.mtype)
    && Due(m, c.at) && c.at <= now && m.status != Scheduled
    && db.queues[c.queueId].createdAt >= TimeOf(c.queueId)
    && (forall t :: t in c.targets <==> t in db.targets && db.targets[t].queueId == c.queueId)
  }

  ghost predicate CallsInv(db: Store, now: Time, calls: seq<Call>) {
    forall i :: 0 <= i < |calls| ==> CallInv(db, now, calls[i])
  }

  ghost predicate CancelsInv(db: Store, cancels: set<Id>) { forall m :: m in cancels ==> m in db.messages }

  ghost predicate Inv(s: State) {
    && DbInv(s.db)
    && LogInv(s.db, s.now, s.log)
    && TriesInv(s.db, s.tries)
    && ProcsInv(s.db, s.now, s.tries, s.log, s.procs)
    && TodoInv(s.db, s.now, s.tries, s.log, Busy(s.procs), s.todo)
    && WorkersInv(s.db, s.log, s.workers)
    && CallsInv(s.db, s.now, s.calls)
    && CancelsInv(s.db, s.cancels)
  }

  /******* How the store may change *******/

  ghost predicate MessageEvolves(a: Message, b: Message) {
    && b.mtype == a.mtype && b.data == a.data && b.scheduledAt == a.scheduledAt && b.createdAt == a.createdAt
    && (a.deleted ==> b == a)
    && (b.status == Scheduled ==> a.status == Scheduled)
  }

  ghost predicate QueueEvolves(a: Queue, b: Queue) {
    && b.messageId == a.messageId && b.createdAt == a.createdAt
    && (a.deleted ==> b == a)
  }

  ghost predicate TargetEvolves(a: Target, b: Target) {
    && b.messageId == a.messageId && b.queueId == a.queueId && b.receiver == a.receiver
    && b.receiverHash == a.receiverHash && b.provider == a.provider && b.createdAt == a.createdAt
    && (a.deleted ==> b == a)
  }

  /** Rows stay, keep what identifies them, and never change once canceled; new rows hang together. */
  ghost predicate Evolves(a: Store, b: Store) {
    && (forall m :: m in a.messages ==> m in b.messages && MessageEvolves(a.messages[m], b.messages[m]))
    && (forall q :: q in a.queues ==> q in b.queues && QueueEvolves(a.queues[q], b.queues[q]))
    && (forall t :: t in a.targets ==> t in b.targets && TargetEvolves(a.targets[t], b.targets[t]))
    && (forall t :: t in b.targets && t !in a.targets ==> b.targets[t].queueId !in a.queues)
  }

  /** No queue leaves the statuses a handler can leave behind. */
  ghost predicate KeepsHandled(a: Store, b: Store) {
    forall q :: q in a.queues && q in b.queues && Handled(a.queues[q].status) ==> Handled(b.queues[q].status)
  }

  lemma EvolveLog(a: Store, b: Store, now: Time, log: seq<Entry>)
    requires Evolves(a, b) && LogInv(a, now, log)
    ensures LogInv(b, now, log)
  {
  }

  lemma EvolveTries(a: Store, b: Store, tries: map<Id, seq<Try>>)
    requires Evolves(a, b) && TriesInv(a, tries)
    ensures TriesInv(b, tries)
  {
  }

  lemma EvolveProcs(a: Store, b: Store, now: Time, tries: map<Id, seq<Try>>, log: seq<Entry>, procs: map<Pid, Proc>)
    requires Evolves(a, b) && ProcsInv(a, now, tries, log, procs)
    ensures ProcsInv(b, now, tries, log, procs)
  {
    forall pid | pid in procs ensures ProcInv(b, now, tries, log, pid, procs[pid]) {
      assert ProcInv(a, now, tries, log, pid, procs[pid]);
      assert RefsInv(b, procs[pid].messageId, procs[pid].f.queues);
    }
  }

  lemma EvolveTodo(a: Store, b: Store, now: Time, tries: map<Id, seq<Try>>, log: seq<Entry>, busy: Option<Id>,
                   todo: Option<seq<Selected>>)
    requires Evolves(a, b) && TodoInv(a, now, tries, log, busy, todo)
    ensures TodoInv(b, now, tries, log, busy, todo)
  {
  }

  lemma EvolveWorkers(a: Store, b: Store, log: seq<Entry>, workers: map<nat, Worker>)
    requires Evolves(a, b) && WorkersInv(a, log, workers)
    requires forall w :: w in workers && workers[w].stage != Fetched ==>
               workers[w].queueId in b.queues && Handled(b.queues[workers[w].queueId].status)
    ensures WorkersInv(b, log, workers)
  {
  }

  lemma EvolveCalls(a: Store, b: Store, now: Time, calls: seq<Call>)
    requires Evolves(a, b) && CallsInv(a, now, calls)
    ensures CallsInv(b, now, calls)
  {
  }

  /** A store that evolves into a good store leaves every actor's invariant standing. */
  lemma EvolveInv(s: State, db: Store)
    requires Inv(s) && DbInv(db) && Evolves(s.db, db)
    requires forall w :: w in s.workers && s.workers[w].stage != Fetched ==>
               s.workers[w].queueId in db.queues && Handled(db.queues[s.workers[w].queueId].status)
    ensures Inv(s.(db := db))
  {
    EvolveLog(s.db, db, s.now, s.log);
    EvolveTries(s.db, db, s.tries);
    EvolveProcs(s.db, db, s.now, s.tries, s.log, s.procs);
    EvolveTodo(s.db, db, s.now, s.tries, s.log, Busy(s.procs), s.todo);
    EvolveWorkers(s.db, db, s.log, s.workers);
    EvolveCalls(s.db, db, s.now, s.calls);
  }
}
