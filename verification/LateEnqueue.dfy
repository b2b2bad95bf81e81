/**
  One concrete run in which the enqueue call's last batch lands between a handler's two
  transactions: statuses are not monotone, and a target that the provider's answer does not
  name ends as `enqueued` under a successful queue, not as `sending`.
 */
module LateEnqueue {
  import opened Entities
  import opened Tables
  import opened Snowflake
  import opened AesGcm
  import opened Publish
  import opened Goroutines
  import opened MitakeSms
  import opened Pipeline
  import opened PipelineTheorems

  const START: Time := EPOCH_MS * MILLISECOND
  const MID: Id := 2
  const TRACE: Id := 7
  const REF: QueueRef := QueueRef(0, MID)
  const PID: Pid := Publisher(MID)

  const CONFIG: Config := Config(1, 1, 1, Aead(0, (n: Bytes, p: Bytes) => p, (n: Bytes, c: Bytes) => Some(c)))
  const DRAWS: Draws := Draws((k: nat) => k, (k: nat) => [], (b: Bytes) => "")
  const MESSAGE: Message := Message(Sms, [], None, Pending, START, false)
  const TARGET: Target := TargetRow(Common(MID, Sms, START), CONFIG.aead, DRAWS, 0, [], 1)
  const PUBLISH: Action := PublishMessage(MID, MESSAGE, [[]], START, DRAWS)

  /** The three rows, all in one status. */
  function Rows(st: Status, driver: Option<Id>): Store {
    Store(map[MID := MESSAGE.(status := st)], map[0 := Queue(MID, st, START, false)],
          map[1 := TARGET.(status := st, driverTraceId := driver)], multiset{})
  }

  function World(db: Store, log: seq<Entry>, tries: map<Id, seq<Try>>, procs: map<Pid, Proc>,
                 workers: map<nat, Worker>, calls: seq<Call>): State {
    State(CONFIG, db, START, log, tries, procs, None, {}, workers, calls)
  }

  function Fan(pc: MainPc, next: nat, g: Goroutine, sem: int, wg: int, successes: map<Id, Id>,
               traces: map<Id, Id>): FanOut {
    FanOut(NotifySms, [REF], pc, next, [g], sem, wg, successes, traces)
  }

  lemma PreparedOne()
    ensures BatchOf(Init(CONFIG, START), MID, MESSAGE, [[]], START, DRAWS) ==
            Batch([(0, Queue(MID, Pending, START, false))], [(1, TARGET)])
  {
    var receivers: seq<Bytes> := [[]];
    var c := CommonOf(MID, MESSAGE, START);
    assert ChunksFrom(receivers, 1, 1) == [];
    assert receivers[0..1] == receivers;
    assert Chunks(receivers, 1) == [receivers];
    assert QueuesOf([receivers][1..], c, DRAWS, 2) == [] && TargetsOf([receivers][1..], c, CONFIG.aead, DRAWS, 2) == [];
    assert ChunkTargets(receivers, c, CONFIG.aead, DRAWS, 0) == [(1, TARGET)];
  }

  lemma OneRow<V>(k: Id, v: V)
    ensures DistinctKeys([(k, v)]) && RowMap([(k, v)]) == map[k := v]
  {
    var rows := [(k, v)];
    assert rows[0] == (k, v);
    assert RowMap(rows).Keys == {k};
  }

  lemma CreatedRows()
    ensures var b := Batch([(0, Queue(MID, Pending, START, false))], [(1, TARGET)]);
            && DistinctKeys(b.queues) && DistinctKeys(b.targets)
            && CreateTx(EMPTY, MID, MESSAGE, b) == Rows(Pending, None) && Refs(b) == [REF]
  {
    OneRow(0, Queue(MID, Pending, START, false));
    OneRow(1, TARGET);
    assert map[] + map[1 := TARGET] == map[1 := TARGET];
  }

  lemma Publishable()
    ensures CanPublish(Init(CONFIG, START), MID, MESSAGE, [[]], START, DRAWS)
  {
  }

  lemma Published()
    ensures Step(Init(CONFIG, START), PUBLISH) ==
            World(Rows(Pending, None), [], map[], map[PID := Proc(MID, Start(NotifySms, [REF]), Before)], map[], [])
  {
    var s := Init(CONFIG, START);
    var b := BatchOf(s, MID, MESSAGE, [[]], START, DRAWS);
    PreparedOne();
    Publishable();
    PreparedIsBatch([[]], 1, CommonOf(MID, MESSAGE, START), CONFIG.aead, DRAWS);
    CreatedRows();
  }

  /** The state while the fan-out is at `f`. */
  function Busy(db: Store, log: seq<Entry>, tries: map<Id, seq<Try>>, f: FanOut, workers: map<nat, Worker>): State {
    World(db, log, tries, map[PID := Proc(MID, f, Fanning)], workers, [])
  }

  lemma FanMoves(db: Store, log: seq<Entry>, tries: map<Id, seq<Try>>, f: FanOut, workers: map<nat, Worker>, mv: Move)
    requires CanMove(f, mv) && (mv.Go? ==> !f.gs[mv.i].Trying?)
    ensures Step(Busy(db, log, tries, f, workers), FanOutMove(PID, mv)) == Busy(db, log, tries, DoMove(f, mv), workers)
  {
  }

  const ENTRY: Entry := Entry(Record(NotifySms, 0, TRACE), START)

  lemma FanSends(db: Store)
    ensures Step(Busy(db, [], map[], Fan(Adding, 1, Trying(TRACE, []), 1, 1, map[], map[]), map[]),
                 FanOutMove(PID, Go(0, Send(Acked))))
            == Busy(db, [ENTRY], map[0 := [Acked]], Fan(Adding, 1, Encoding(TRACE, [Acked]), 1, 1, map[], map[]), map[])
  {
    var f := Fan(Adding, 1, Trying(TRACE, []), 1, 1, map[], map[]);
    assert Stamp([Record(NotifySms, 0, TRACE)], START) == [ENTRY];
    assert [] + [Acked] == [Acked];
    assert DoMove(f, Go(0, Send(Acked))) == Fan(Adding, 1, Encoding(TRACE, [Acked]), 1, 1, map[], map[]);
  }

  lemma Moved(db: Store, log: seq<Entry>, tries: map<Id, seq<Try>>, f: FanOut, workers: map<nat, Worker>, mv: Move)
    requires Reachable(Busy(db, log, tries, f, workers))
    requires CanMove(f, mv) && (mv.Go? ==> !f.gs[mv.i].Trying?)
    ensures Reachable(Busy(db, log, tries, DoMove(f, mv), workers))
  {
    FanMoves(db, log, tries, f, workers, mv);
    ReachableStep(Busy(db, log, tries, f, workers), FanOutMove(PID, mv));
  }

  lemma ProcessRows()
    ensures BatchUpdate(Rows(Pending, None), {0}, {MID}, Process, map[]) == Rows(Process, None)
  {
  }

  /** The handler's first transaction leaves the message as it is. */
  const MARKED: Store := Rows(Sending, None).(messages := Rows(Process, None).messages)

  lemma EnqueuedRows()
    ensures BatchUpdate(MARKED, {0}, {MID}, Enqueued, map[0 := TRACE]) == Rows(Enqueued, Some(TRACE))
  {
    var traces: map<Id, Id> := map[0 := TRACE];
    assert 0 in traces && TARGET.queueId == 0;
  }

  const FIRST: FanOut := Fan(Adding, 0, Idle, 0, 0, map[], map[])

  lemma Processes()
    ensures Step(World(Rows(Pending, None), [], map[], map[PID := Proc(MID, FIRST, Before)], map[], []),
                 ProcessTx(PID, true)) ==
            Busy(Rows(Process, None), [], map[], FIRST, map[])
  {
    var refs := [REF];
    assert refs[0].id in Ids(refs) && refs[0].messageId in MessageIds(refs);
    assert Ids(refs) == {0} && MessageIds(refs) == {MID};
    ProcessRows();
    assert map[PID := Proc(MID, FIRST, Before)][PID := Proc(MID, FIRST, Fanning)] ==
      map[PID := Proc(MID, FIRST, Fanning)];
  }

  /** Published and marked `process`. */
  lemma UpToProcess()
    ensures Reachable(Busy(Rows(Process, None), [], map[], FIRST, map[]))
  {
    assert Init(CONFIG, START) == Run(Init(CONFIG, START), []);
    ReachableStep(Init(CONFIG, START), PUBLISH);
    Published();
    assert Start(NotifySms, [REF]) == FIRST;
    ReachableStep(World(Rows(Pending, None), [], map[], map[PID := Proc(MID, FIRST, Before)], map[], []),
                  ProcessTx(PID, true));
    Processes();
  }

  /** The record is sent and acked, the goroutine not yet through. */
  lemma UpToSent()
    ensures Reachable(Busy(Rows(Process, None), [ENTRY], map[0 := [Acked]],
                           Fan(Adding, 1, Encoding(TRACE, [Acked]), 1, 1, map[], map[]), map[]))
  {
    var db := Rows(Process, None);
    UpToProcess();
    Moved(db, [], map[], FIRST, map[], Main);
    assert DoMove(FIRST, Main) == Fan(Acquiring, 0, Idle, 0, 1, map[], map[]);
    Moved(db, [], map[], Fan(Acquiring, 0, Idle, 0, 1, map[], map[]), map[], Main);
    assert DoMove(Fan(Acquiring, 0, Idle, 0, 1, map[], map[]), Main) == Fan(Adding, 1, Creating, 1, 1, map[], map[]);
    Moved(db, [], map[], Fan(Adding, 1, Creating, 1, 1, map[], map[]), map[], Go(0, Create(TRACE)));
    assert DoMove(Fan(Adding, 1, Creating, 1, 1, map[], map[]), Go(0, Create(TRACE))) ==
           Fan(Adding, 1, Trying(TRACE, []), 1, 1, map[], map[]);
    ReachableStep(Busy(db, [], map[], Fan(Adding, 1, Trying(TRACE, []), 1, 1, map[], map[]), map[]),
                  FanOutMove(PID, Go(0, Send(Acked))));
    FanSends(db);
  }

  function Handler(stage: WorkerStage): map<nat, Worker> { map[0 := Worker(NotifySms, 0, MID, {1}, stage)] }

  /** The fan-out once the broker has acked. */
  const ACKED: FanOut := Fan(Adding, 1, Encoding(TRACE, [Acked]), 1, 1, map[], map[])
  const TRIES: map<Id, seq<Try>> := map[0 := [Acked]]

  lemma Fetches()
    ensures Step(Busy(Rows(Process, None), [ENTRY], TRIES, ACKED, map[]), Fetch(0, 0)) ==
            Busy(Rows(Process, None), [ENTRY], TRIES, ACKED, Handler(Fetched))
  {
    assert TimeOf(0) == START;
    assert LiveTargets(Rows(Process, None), 0) == {1};
    assert map[][0 := Worker(NotifySms, 0, MID, {1}, Fetched)] == Handler(Fetched);
  }

  lemma SendingRows()
    ensures SendingTx(Rows(Process, None), 0, START) == MARKED
  {
  }

  lemma Marks()
    ensures Step(Busy(Rows(Process, None), [ENTRY], TRIES, ACKED, Handler(Fetched)), MarkSending(0, true)) ==
            Busy(MARKED, [ENTRY], TRIES, ACKED, Handler(Marked))
  {
    assert TimeOf(0) == START;
    SendingRows();
    assert Handler(Fetched)[0 := Worker(NotifySms, 0, MID, {1}, Marked)] == Handler(Marked);
  }

  /** A worker has picked the record up and marked its rows `sending`. */
  lemma UpToMarked()
    ensures Reachable(Busy(MARKED, [ENTRY], TRIES, ACKED, Handler(Marked)))
  {
    UpToSent();
    ReachableStep(Busy(Rows(Process, None), [ENTRY], TRIES, ACKED, map[]), Fetch(0, 0));
    Fetches();
    ReachableStep(Busy(Rows(Process, None), [ENTRY], TRIES, ACKED, Handler(Fetched)), MarkSending(0, true));
    Marks();
  }

  /** Only now does the goroutine store its success and leave. */
  const LEFT: FanOut := Fan(Adding, 1, Leaving(Delivered(TRACE, [Acked])), 1, 1, map[0 := MID], map[0 := TRACE])

  lemma UpToLeft()
    ensures Reachable(Busy(MARKED, [ENTRY], TRIES, LEFT, Handler(Marked)))
  {
    UpToMarked();
    Moved(MARKED, [ENTRY], TRIES, ACKED, Handler(Marked), Go(0, Proceed));
    var stored := Fan(Adding, 1, Storing(TRACE, [Acked]), 1, 1, map[0 := MID], map[]);
    assert DoMove(ACKED, Go(0, Proceed)) == stored;
    Moved(MARKED, [ENTRY], TRIES, stored, Handler(Marked), Go(0, Proceed));
    assert DoMove(stored, Go(0, Proceed)) == LEFT;
  }

  /** And the loop joins it. */
  const JOINED: FanOut := Fan(Joined, 1, Finished(Delivered(TRACE, [Acked])), 0, 0, map[0 := MID], map[0 := TRACE])

  lemma UpToJoined()
    ensures Reachable(Busy(MARKED, [ENTRY], TRIES, JOINED, Handler(Marked)))
  {
    var done := Delivered(TRACE, [Acked]);
    UpToLeft();
    Moved(MARKED, [ENTRY], TRIES, LEFT, Handler(Marked), Go(0, Proceed));
    var signalling := LEFT.(gs := [Signalling(done)], sem := 0);
    assert DoMove(LEFT, Go(0, Proceed)) == signalling;
    Moved(MARKED, [ENTRY], TRIES, signalling, Handler(Marked), Go(0, Proceed));
    var finished := LEFT.(gs := [Finished(done)], sem := 0, wg := 0);
    assert DoMove(signalling, Go(0, Proceed)) == finished;
    Moved(MARKED, [ENTRY], TRIES, finished, Handler(Marked), Main);
    Moved(MARKED, [ENTRY], TRIES, finished.(pc := Waiting), Handler(Marked), Main);
  }

  const ANSWER: map<Section, Status> := map[Default := Sent]

  lemma OneSuccess()
    ensures var successes: map<Id, Id> := map[0 := MID];
            ValuesOf(successes) == {MID} && successes.Keys == {0}
  {
    var successes: map<Id, Id> := map[0 := MID];
    assert successes[0] in ValuesOf(successes);
  }

  lemma BatchLands()
    ensures Step(Busy(MARKED, [ENTRY], TRIES, JOINED, Handler(Marked)), EnqueuedTx(PID, true)) ==
            World(Rows(Enqueued, Some(TRACE)), [ENTRY], TRIES, map[], Handler(Marked), [])
  {
    OneSuccess();
    EnqueuedRows();
    assert map[PID := Proc(MID, JOINED, Fanning)] - {PID} == map[];
  }

  /** The last batch has landed under the waiting worker: `sending` went back to `enqueued`. */
  lemma UpToLateBatch()
    ensures Reachable(World(Rows(Enqueued, Some(TRACE)), [ENTRY], TRIES, map[], Handler(Marked), []))
  {
    UpToJoined();
    ReachableStep(Busy(MARKED, [ENTRY], TRIES, JOINED, Handler(Marked)), EnqueuedTx(PID, true));
    BatchLands();
  }

  /** So after a successful answer that names no section for it, the target is not `sending` but `enqueued`. */
  lemma UnsectionedEndsEnqueued()
    ensures var s := World(Rows(Enqueued, Some(TRACE)), [ENTRY], TRIES, map[], Handler(Marked), []);
            var s' := Step(Step(s, Provide(0, SmsAnswer(ANSWER))), Conclude(0, Committed));
            && Reachable(s') && Verdict(ANSWER) == Sent && TargetSection(1) !in ANSWER
            && 0 in s'.db.queues && s'.db.queues[0].status == Success
            && 1 in s'.db.targets && s'.db.targets[1].queueId == 0 && s'.db.targets[1].status == Enqueued
  {
    var s := World(Rows(Enqueued, Some(TRACE)), [ENTRY], TRIES, map[], Handler(Marked), []);
    UpToLateBatch();
    ReachableStep(s, Provide(0, SmsAnswer(ANSWER)));
    Answered(s);
    ReachableStep(Step(s, Provide(0, SmsAnswer(ANSWER))), Conclude(0, Committed));
    Concludes(Step(s, Provide(0, SmsAnswer(ANSWER))));
  }

  lemma Answered(s: State)
    requires 0 in s.workers && s.workers[0] == Handler(Marked)[0]
    ensures var s' := Step(s, Provide(0, SmsAnswer(ANSWER)));
            s'.db == s.db && 0 in s'.workers && s'.workers[0] == Handler(WorkerStage.Answered(SmsAnswer(ANSWER)))[0]
  {
  }

  lemma Concludes(s: State)
    requires s.db == Rows(Enqueued, Some(TRACE))
    requires 0 in s.workers && s.workers[0] == Handler(WorkerStage.Answered(SmsAnswer(ANSWER)))[0]
    ensures var s' := Step(s, Conclude(0, Committed));
            && 0 in s'.db.queues && s'.db.queues[0].status == Success
            && 1 in s'.db.targets && s'.db.targets[1].queueId == 0 && s'.db.targets[1].status == Enqueued
  {
  }
}
