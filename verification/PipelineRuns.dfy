/** The workers', cancellation's and the clock's steps, and with them every run. */
module PipelineRuns {
  import opened Entities
  import opened Tables
  import opened Snowflake
  import opened MitakeSms
  import opened Pipeline
  import opened PipelineInvariant
  import opened PipelineTransactions
  import opened PipelineSteps

  /******* Cancellation *******/

  lemma CancelStep(s: State, mid: Id)
    requires Inv(s)
    ensures Inv(DoCancel(s, mid)) && Evolves(s.db, DoCancel(s, mid).db)
  {
    var db' := CancelTx(s.db, mid, TimeOf(mid) - HOUR, TimeOf(mid) + HOUR);
    CancelEvolves(s.db, mid);
    CancelKeeps(s.db, mid);
    UpdatePopulated(s.db, db');
    TxStep(s, db');
  }

  /******* Workers *******/

  /** One worker is put in place of whatever ran under its number before. */
  lemma SetWorker(s: State, wid: nat, w: Worker)
    requires Inv(s) && WorkerInv(s.db, s.log, w)
    ensures Inv(s.(workers := s.workers[wid := w]))
  {
  }

  lemma DropWorker(s: State, wid: nat)
    requires Inv(s)
    ensures Inv(s.(workers := s.workers - {wid}))
  {
  }

  lemma FetchStep(s: State, wid: nat, offset: nat)
    requires Inv(s) && offset < |s.log|
    ensures Inv(DoFetch(s, wid, offset))
  {
    var r := s.log[offset].record;
    if Visible(s.db, r.queueId) {
      var w := Worker(r.topic, r.queueId, s.db.queues[r.queueId].messageId, LiveTargets(s.db, r.queueId), Fetched);
      LoadsAll(s.db, r.queueId);
      assert WorkerInv(s.db, s.log, w);
      SetWorker(s, wid, w);
    }
  }

  /** The targets of a live queue are live, so the preload finds all of them. */
  lemma LoadsAll(db: Store, q: Id)
    requires RowsInv(db) && q in db.queues && !db.queues[q].deleted
    ensures forall t :: t in LiveTargets(db, q) <==> t in db.targets && db.targets[t].queueId == q
  {
  }

  /** What a worker's record says about its queue. */
  lemma WorkerStarted(db: Store, now: Time, log: seq<Entry>, w: Worker)
    requires LogInv(db, now, log) && WorkerInv(db, log, w)
    ensures Started(db, w.queueId) && w.topic == TopicOf(MessageOf(db, w.queueId).mtype)
    ensures Due(MessageOf(db, w.queueId), now)
  {
  }

  /** A queue created no earlier than the instant in its id is reached by the update, or is canceled. */
  lemma SendingReaches(db: Store, q: Id)
    requires RowsInv(db) && q in db.queues && db.queues[q].createdAt >= TimeOf(q)
    ensures Handled(SendingTx(db, q, TimeOf(q)).queues[q].status)
  {
  }

  lemma MarkDb(db: Store, now: Time, log: seq<Entry>, w: Worker)
    requires DbInv(db) && LogInv(db, now, log) && WorkerInv(db, log, w)
    ensures var db' := SendingTx(db, w.queueId, TimeOf(w.queueId));
            && DbInv(db') && Evolves(db, db') && KeepsHandled(db, db')
            && WorkerInv(db', log, w.(stage := Marked))
  {
    WorkerStarted(db, now, log, w);
    SendingEvolves(db, w.queueId, TimeOf(w.queueId));
    SendingKeeps(db, w.queueId, TimeOf(w.queueId));
    UpdatePopulated(db, SendingTx(db, w.queueId, TimeOf(w.queueId)));
    SendingReaches(db, w.queueId);
  }

  lemma MarkStep(s: State, wid: nat, commits: bool)
    requires Inv(s) && wid in s.workers
    ensures Inv(DoMarkSending(s, wid, commits)) && Evolves(s.db, DoMarkSending(s, wid, commits).db)
  {
    var w := s.workers[wid];
    if !commits {
      EvolvesSame(s.db);
      DropWorker(s, wid);
    } else {
      MarkDb(s.db, s.now, s.log, w);
      TxStep(s, SendingTx(s.db, w.queueId, TimeOf(w.queueId)));
      SetWorker(s.(db := SendingTx(s.db, w.queueId, TimeOf(w.queueId))), wid, w.(stage := Marked));
    }
  }

  lemma AddCall(s: State, c: Call)
    requires Inv(s) && CallInv(s.db, s.now, c)
    ensures Inv(s.(calls := s.calls + [c]))
  {
  }

  lemma ProvideStep(s: State, wid: nat, answer: Answer)
    requires Inv(s) && wid in s.workers && s.workers[wid].stage == Marked && Answers(s.workers[wid], answer)
    ensures Inv(DoProvide(s, wid, answer))
  {
    var w := s.workers[wid];
    var c := Call(w.topic, w.queueId, w.targets, s.now, answer);
    assert WorkerInv(s.db, s.log, w);
    WorkerStarted(s.db, s.now, s.log, w);
    assert CallInv(s.db, s.now, c);
    AddCall(s, c);
    SetWorker(s.(calls := s.calls + [c]), wid, w.(stage := Answered(answer)));
  }

  lemma SmsConclude(db: Store, now: Time, log: seq<Entry>, w: Worker)
    requires DbInv(db) && LogInv(db, now, log) && WorkerInv(db, log, w) && w.stage.Answered? && w.stage.answer.SmsAnswer?
    ensures var db' := SmsSuccessTx(db, w.queueId, w.messageId, w.stage.answer.rows);
            DbInv(db') && Evolves(db, db') && KeepsHandled(db, db')
  {
    var rows := w.stage.answer.rows;
    WorkerStarted(db, now, log, w);
    SmsSuccessEvolves(db, w.queueId, w.messageId, rows);
    forall t | t in db.targets && TargetSection(t) in rows ensures db.targets[t].queueId == w.queueId {
      assert TargetSection(t).id in w.targets;
    }
    SmsSuccessKeeps(db, w.queueId, w.messageId, rows);
    UpdatePopulated(db, SmsSuccessTx(db, w.queueId, w.messageId, rows));
  }

  lemma MailConclude(db: Store, now: Time, log: seq<Entry>, w: Worker, trace: string)
    requires DbInv(db) && LogInv(db, now, log) && WorkerInv(db, log, w) && w.stage.Answered? && w.stage.answer.MailAnswer?
    ensures var db' := MailSuccessTx(db, w.queueId, w.messageId, w.targets, trace);
            DbInv(db') && Evolves(db, db') && KeepsHandled(db, db')
  {
    WorkerStarted(db, now, log, w);
    MailSuccessEvolves(db, w.queueId, w.messageId, w.targets, trace);
    MailSuccessKeeps(db, w.queueId, w.messageId, w.targets, trace);
    UpdatePopulated(db, MailSuccessTx(db, w.queueId, w.messageId, w.targets, trace));
  }

  lemma FailConclude(db: Store, now: Time, log: seq<Entry>, w: Worker, events: multiset<Event>)
    requires DbInv(db) && LogInv(db, now, log) && WorkerInv(db, log, w)
    ensures var db' := FailTx(db, w.queueId, w.messageId, events);
            DbInv(db') && Evolves(db, db') && KeepsHandled(db, db')
  {
    WorkerStarted(db, now, log, w);
    FailEvolves(db, w.queueId, w.messageId, events);
    FailKeeps(db, w.queueId, w.messageId, events);
    UpdatePopulated(db, FailTx(db, w.queueId, w.messageId, events));
  }

  lemma EventsOnly(a: Store, b: Store)
    requires DbInv(a) && b == a.(events := b.events)
    ensures DbInv(b) && Evolves(a, b) && KeepsHandled(a, b)
  {
    forall q | q in b.queues ensures QueueOk(b.queues[q], MessageOf(b, q)) { assert QueueOk(a.queues[q], MessageOf(a, q)); }
    forall t | t in b.targets ensures TargetOk(b.targets[t], QueueOf(b, t), MessageOf(b, b.targets[t].queueId)) {
      assert TargetOk(a.targets[t], QueueOf(a, t), MessageOf(a, a.targets[t].queueId));
    }
    UpdatePopulated(a, b);
  }

  lemma ConcludeDb(db: Store, now: Time, log: seq<Entry>, w: Worker)
    requires DbInv(db) && LogInv(db, now, log) && WorkerInv(db, log, w) && w.stage.Answered?
    ensures DbInv(ConcludeTx(db, w)) && Evolves(db, ConcludeTx(db, w)) && KeepsHandled(db, ConcludeTx(db, w))
  {
    match w.stage.answer
    case SmsAnswer(rows) =>
      if Verdict(rows) == Sent {
        SmsConclude(db, now, log, w);
      } else {
        FailConclude(db, now, log, w, SectionEvents(rows.Keys, Failed, w.queueId));
      }
    case MailAnswer(sent, trace) =>
      if sent {
        MailConclude(db, now, log, w, trace);
      } else {
        FailConclude(db, now, log, w, multiset{Event(Sendgrid, Failed, HeaderTrace(trace), w.queueId)});
      }
  }

  lemma ConcludeStep(s: State, wid: nat, ending: Ending)
    requires Inv(s) && wid in s.workers && s.workers[wid].stage.Answered?
    ensures Inv(DoConclude(s, wid, ending)) && Evolves(s.db, DoConclude(s, wid, ending).db)
  {
    var w, db' := s.workers[wid], DoConclude(s, wid, ending).db;
    match ending {
      case Committed => ConcludeDb(s.db, s.now, s.log, w);
      case RolledBackAfterEvent => EventsOnly(s.db, db');
      case RolledBack => EventsOnly(s.db, db');
    }
    TxStep(s, db');
    DropWorker(s.(db := db'), wid);
  }

  /******* Runs *******/

  lemma InitInv(config: Config, now: Time)
    ensures Inv(Init(config, now))
  {
  }

  /** The actions that write the tables on the way to the broker, and those after it. */
  predicate WritesSending(a: Action) { a.PublishMessage? || a.ProcessTx? || a.EnqueuedTx? }

  predicate WritesHandling(a: Action) { a.CancelCommit? || a.MarkSending? || a.Conclude? }

  predicate WritesTables(a: Action) { WritesSending(a) || WritesHandling(a) }

  lemma SendingTablesStep(s: State, a: Action)
    requires Inv(s) && Enabled(s, a) && WritesSending(a)
    ensures Inv(Perform(s, a)) && Evolves(s.db, Perform(s, a).db)
  {
    match a
    case PublishMessage(mid, m, receivers, at, d) => PublishStep(s, mid, m, receivers, at, d);
    case ProcessTx(pid, commits) => ProcessStep(s, pid, commits);
    case EnqueuedTx(pid, commits) => EnqueuedStep(s, pid, commits);
  }

  lemma HandlingTablesStep(s: State, a: Action)
    requires Inv(s) && Enabled(s, a) && WritesHandling(a)
    ensures Inv(Perform(s, a)) && Evolves(s.db, Perform(s, a).db)
  {
    match a
    case CancelCommit(mid) => CancelStep(s, mid);
    case MarkSending(wid, commits) => MarkStep(s, wid, commits);
    case Conclude(wid, ending) => ConcludeStep(s, wid, ending);
  }

  predicate Handles(a: Action) { a.Fetch? || a.Provide? || a.WorkerCrash? }

  lemma HandlesStep(s: State, a: Action)
    requires Inv(s) && Enabled(s, a) && Handles(a)
    ensures Inv(Perform(s, a))
  {
    match a
    case Fetch(wid, offset) => FetchStep(s, wid, offset);
    case Provide(wid, answer) => ProvideStep(s, wid, answer);
    case WorkerCrash(wid) => DropWorker(s, wid);
  }

  predicate Waits(a: Action) { a.Tick? || a.CancelCheck? }

  lemma WaitsStep(s: State, a: Action)
    requires Inv(s) && Enabled(s, a) && Waits(a)
    ensures Inv(Perform(s, a))
  {
  }

  lemma DispatchStep(s: State, a: Action)
    requires Inv(s) && Enabled(s, a) && !WritesTables(a) && !Handles(a) && !Waits(a)
    ensures Inv(Perform(s, a))
  {
    match a
    case FanOutMove(pid, mv) => FanOutStep(s, pid, mv);
    case ProcCrash(pid) => DispatcherStops(s, pid);
    case Select(found) => SelectStep(s, found);
    case DispatchNext => DispatchNextStep(s);
    case DispatchEnd => DispatcherStops(s, Cron);
  }

  lemma TablesUntouched(s: State, a: Action)
    requires Enabled(s, a) && !WritesTables(a)
    ensures Perform(s, a).db == s.db
  {
  }

  lemma QuietStep(s: State, a: Action)
    requires Inv(s) && Enabled(s, a) && !WritesTables(a)
    ensures Inv(Perform(s, a))
  {
    if Handles(a) {
      HandlesStep(s, a);
    } else if Waits(a) {
      WaitsStep(s, a);
    } else {
      DispatchStep(s, a);
    }
  }

  /** Every action keeps the invariant, and changes the store only as rows may change. */
  lemma StepKeeps(s: State, a: Action)
    requires Inv(s)
    ensures Inv(Step(s, a)) && Evolves(s.db, Step(s, a).db)
  {
    EvolvesSame(s.db);
    if Enabled(s, a) {
      if WritesSending(a) {
        SendingTablesStep(s, a);
      } else if WritesHandling(a) {
        HandlingTablesStep(s, a);
      } else {
        TablesUntouched(s, a);
        QuietStep(s, a);
      }
    }
  }

  /** Whatever the actors, the environment and the clock do, the invariant holds. */
  lemma {:induction false} RunKeeps(config: Config, now: Time, actions: seq<Action>)
    ensures Inv(Run(Init(config, now), actions))
  {
    if actions == [] {
      InitInv(config, now);
    } else {
      RunKeeps(config, now, actions[..|actions| - 1]);
      StepKeeps(Run(Init(config, now), actions[..|actions| - 1]), actions[|actions| - 1]);
    }
  }
}
