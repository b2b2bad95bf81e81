/**
  A chunk whose queue id is generated in a later millisecond than `created_at`: its record is acked and its rows are
  marked `enqueued`, and no worker will ever find it.
 */
module LateChunk {
  import opened Entities
  import opened Tables
  import opened Snowflake
  import opened Publish
  import opened Goroutines
  import opened FanOutRefinement
  import opened Enqueue
  import opened Handlers
  import opened Pipeline
  import opened PipelineInvariant
  import opened PipelineTheorems
  import opened Conservation
  import opened Cancellation
  import opened ServiceRuns
  import opened LateEnqueue

  /** Every queue's record is acked at the first call. */
  const ACK: Outcome := Delivered(TRACE, [Acked])

  function AllAcked(n: nat): seq<Outcome> { seq(n, _ => ACK) }

  /** Then every queue has its record, and is among the successes. */
  lemma {:induction false} AckedAll(topic: Topic, queues: seq<QueueRef>, i: nat)
    requires i < |queues|
    ensures var r := Sequential(topic, queues, AllAcked(|queues|));
            Record(topic, queues[i].id, TRACE) in r.log && queues[i].id in r.successes
    decreases |queues|
  {
    var n := |queues| - 1;
    assert AllAcked(|queues|)[..n] == AllAcked(n);
    if i < n {
      AckedAll(topic, queues[..n], i);
    } else {
      assert SentBy(topic, queues[n], ACK)[0] == Record(topic, queues[n].id, TRACE);
    }
  }

  /** The queue's row after such an enqueue call. */
  lemma AckedRow(db: Store, topic: Topic, queues: seq<QueueRef>, i: nat)
    requires i < |queues| && queues[i].id in db.queues && !db.queues[queues[i].id].deleted
    ensures var db' := AfterEnqueue(db, topic, queues, AllAcked(|queues|), {});
            queues[i].id in db'.queues && db'.queues[queues[i].id].status == Enqueued
  {
    AckedAll(topic, queues, i);
  }

  /** The enqueue call that follows the publish call of an unscheduled message. */
  lemma Begins(s: State, mid: Id, m: Message, receivers: seq<Bytes>, at: Time, d: Draws, i: nat)
    requires Reachable(s) && CanPublish(s, mid, m, receivers, at, d) && m.scheduledAt.None?
    requires i < |ChunksOf(s, m, receivers)|
    ensures var s1 := Step(s, PublishMessage(mid, m, receivers, at, d));
            var queues := Refs(BatchOf(s, mid, m, receivers, at, d));
            && Publisher(mid) in s1.procs
            && s1.procs[Publisher(mid)] == Proc(mid, Start(TopicOf(m.mtype), queues), Before) && DistinctIds(queues)
            && i < |queues| && queues[i].id == QueueId(ChunksOf(s, m, receivers), d, i)
  {
    var s1 := Step(s, PublishMessage(mid, m, receivers, at, d));
    PublishStarts(s, mid, m, receivers, at, d);
    QueueRows(ChunksOf(s, m, receivers), CommonOf(mid, m, at), d, 0);
    assert ProcInv(s1.db, s1.now, s1.tries, s1.log, Publisher(mid), s1.procs[Publisher(mid)]);
  }

  lemma RecordAt(before: seq<Entry>, records: seq<Record>, at: Time, r: Record) returns (k: nat)
    requires r in multiset(records)
    ensures k < |before + Stamp(records, at)| && (before + Stamp(records, at))[k].record == r
  {
    var j :| 0 <= j < |records| && records[j] == r;
    k := |before| + j;
    assert Stamp(records, at)[j].record == r;
  }

  /** The queue's record is there and its row `enqueued`, yet no worker finds it, and no provider ever gets it. */
  ghost predicate Lost(s: State, q: Id, k: nat) {
    && k < |s.log| && s.log[k].record.queueId == q
    && q in s.db.queues && s.db.queues[q].status == Enqueued
    && (forall wid :: Step(s, Fetch(wid, k)) == s)
    && (forall more :: CallsFor(Run(s, more).calls, q) == 0)
  }

  lemma LostUnseen(s: State, q: Id, k: nat)
    requires k < |s.log| && s.log[k].record.queueId == q && q in s.db.queues && s.db.queues[q].status == Enqueued
    requires !Visible(s.db, q) && forall more :: CallsFor(Run(s, more).calls, q) == 0
    ensures Lost(s, q, k)
  {
  }

  /**
    Such a chunk of any unscheduled message can be acked and marked `enqueued`; its record then finds no queue, and
    in no continuation is it handed to a provider.
   */
  lemma LateChunkLost(s: State, mid: Id, m: Message, receivers: seq<Bytes>, at: Time, d: Draws, i: nat)
      returns (actions: seq<Action>, k: nat)
    requires Reachable(s) && CanPublish(s, mid, m, receivers, at, d) && m.scheduledAt.None?
    requires i < |ChunksOf(s, m, receivers)| && TimeOf(QueueId(ChunksOf(s, m, receivers), d, i)) > at
    ensures var s' := Run(Step(s, PublishMessage(mid, m, receivers, at, d)), actions);
            var q := QueueId(ChunksOf(s, m, receivers), d, i);
            Reachable(s') && Lost(s', q, k)
  {
    Begins(s, mid, m, receivers, at, d, i);
    PublishPlaces(s, mid, m, receivers, at, d, i);
    actions, k := Acks(Step(s, PublishMessage(mid, m, receivers, at, d)), Publisher(mid), i);
    NeverSeen(s, mid, m, receivers, at, d, i, actions);
    LostUnseen(Run(Step(s, PublishMessage(mid, m, receivers, at, d)), actions),
               QueueId(ChunksOf(s, m, receivers), d, i), k);
  }

  /** An enqueue call that is about to begin may go through with every queue acked. */
  lemma Acks(s: State, pid: Pid, i: nat) returns (actions: seq<Action>, k: nat)
    requires pid in s.procs && s.procs[pid].stage == Before
    requires var f := s.procs[pid].f;
             && f == Start(f.topic, f.queues) && DistinctIds(f.queues) && i < |f.queues|
             && f.queues[i].id in s.db.queues && !s.db.queues[f.queues[i].id].deleted
    ensures var s', q := Run(s, actions), s.procs[pid].f.queues[i].id;
            && k < |s'.log| && s'.log[k].record.queueId == q
            && q in s'.db.queues && s'.db.queues[q].status == Enqueued
  {
    var topic, queues := s.procs[pid].f.topic, s.procs[pid].f.queues;
    var records;
    actions, records := EnqueueRefines(s, pid, AllAcked(|queues|), {});
    AckedAll(topic, queues, i);
    assert Record(topic, queues[i].id, TRACE) in multiset(Sequential(topic, queues, AllAcked(|queues|)).log);
    k := RecordAt(s.log, records, s.now, Record(topic, queues[i].id, TRACE));
    AckedRow(s.db, topic, queues, i);
  }

  lemma NeverSeen(s: State, mid: Id, m: Message, receivers: seq<Bytes>, at: Time, d: Draws, i: nat, actions: seq<Action>)
    requires Reachable(s) && CanPublish(s, mid, m, receivers, at, d)
    requires i < |ChunksOf(s, m, receivers)| && TimeOf(QueueId(ChunksOf(s, m, receivers), d, i)) > at
    ensures var s' := Run(Step(s, PublishMessage(mid, m, receivers, at, d)), actions);
            var q := QueueId(ChunksOf(s, m, receivers), d, i);
            && Reachable(s') && !Visible(s'.db, q)
            && forall more :: CallsFor(Run(s', more).calls, q) == 0
  {
    var s1, q := Step(s, PublishMessage(mid, m, receivers, at, d)), QueueId(ChunksOf(s, m, receivers), d, i);
    ReachableStep(s, PublishMessage(mid, m, receivers, at, d));
    ReachableMore(s1, actions);
    VisibleExactly(s, mid, m, receivers, at, d, actions, i);
    forall more ensures CallsFor(Run(Run(s1, actions), more).calls, q) == 0 {
      RunOn(s1, actions, more);
      LateChunkNeverSent(s, mid, m, receivers, at, d, actions + more, i);
    }
  }

  /******* The exact condition *******/

  lemma {:induction false} FreeNumber(taken: set<nat>) returns (n: nat)
    ensures forall k :: k in taken ==> k < n
  {
    if taken == {} {
      n := 0;
    } else {
      var k :| k in taken;
      var rest := FreeNumber(taken - {k});
      n := if rest <= k then k + 1 else rest;
      assert forall j :: j in taken ==> j == k || j in taken - {k};
    }
  }

  /** A record whose queue a worker can see may be handed to a provider. */
  lemma CanBeHanded(s: State, k: nat) returns (actions: seq<Action>)
    requires k < |s.log| && Visible(s.db, s.log[k].record.queueId)
    ensures CallsFor(Run(s, actions).calls, s.log[k].record.queueId) > 0
  {
    var wid := FreeNumber(s.workers.Keys);
    var answer := if s.log[k].record.topic == NotifySms then SmsAnswer(map[]) else MailAnswer(true, "");
    HandlerRun(s, wid, k, answer, Committed);
    actions := [Fetch(wid, k), MarkSending(wid, true), Provide(wid, answer), Conclude(wid, Committed)];
  }

  /** A chunk of an unscheduled message can be handed to a provider at all iff its id is not later than `created_at`. */
  lemma DeliverableExactly(s: State, mid: Id, m: Message, receivers: seq<Bytes>, at: Time, d: Draws, i: nat)
    requires Reachable(s) && CanPublish(s, mid, m, receivers, at, d) && m.scheduledAt.None?
    requires i < |ChunksOf(s, m, receivers)|
    ensures var s1, q := Step(s, PublishMessage(mid, m, receivers, at, d)), QueueId(ChunksOf(s, m, receivers), d, i);
            (exists more :: CallsFor(Run(s1, more).calls, q) > 0) <==> TimeOf(q) <= at
  {
    var s1, q := Step(s, PublishMessage(mid, m, receivers, at, d)), QueueId(ChunksOf(s, m, receivers), d, i);
    if TimeOf(q) <= at {
      Begins(s, mid, m, receivers, at, d, i);
      PublishPlaces(s, mid, m, receivers, at, d, i);
      var actions, k := Acks(s1, Publisher(mid), i);
      SeenOnceAcked(s, mid, m, receivers, at, d, i, actions);
      var more := CanBeHanded(Run(s1, actions), k);
      RunOn(s1, actions, more);
      assert CallsFor(Run(s1, actions + more).calls, q) > 0;
    } else {
      forall more ensures CallsFor(Run(s1, more).calls, q) == 0 {
        LateChunkNeverSent(s, mid, m, receivers, at, d, more, i);
      }
    }
  }

  lemma SeenOnceAcked(s: State, mid: Id, m: Message, receivers: seq<Bytes>, at: Time, d: Draws, i: nat,
                      actions: seq<Action>)
    requires Reachable(s) && CanPublish(s, mid, m, receivers, at, d) && i < |ChunksOf(s, m, receivers)|
    requires var db' := Run(Step(s, PublishMessage(mid, m, receivers, at, d)), actions).db;
             var q := QueueId(ChunksOf(s, m, receivers), d, i);
             TimeOf(q) <= at && q in db'.queues && db'.queues[q].status == Enqueued
    ensures Visible(Run(Step(s, PublishMessage(mid, m, receivers, at, d)), actions).db,
                    QueueId(ChunksOf(s, m, receivers), d, i))
  {
    var s1 := Step(s, PublishMessage(mid, m, receivers, at, d));
    var db', q := Run(s1, actions).db, QueueId(ChunksOf(s, m, receivers), d, i);
    PublishStarts(s, mid, m, receivers, at, d);
    RunFrom(s1, actions);
    PublishedQueue(s, mid, m, receivers, at, d, actions, i);
    assert QueueOk(db'.queues[q], MessageOf(db', q));
  }

  /******* Such a chunk exists *******/

  /** One id a millisecond. */
  const SLOW: Draws := Draws((k: nat) => k * SHIFT, (k: nat) => [], (b: Bytes) => "")
  const TWO: seq<Bytes> := [[], []]

  lemma TwoChunks()
    ensures ChunksOf(Init(CONFIG, START), MESSAGE, TWO) == [[[]], [[]]]
  {
    assert TWO[0..1] == [[]] && TWO[1..2] == [[]];
    assert ChunksFrom(TWO, 1, 2) == [];
    assert ChunksFrom(TWO, 1, 1) == [[[]]];
  }

  /** With a limit of one, two receivers and one id a millisecond, the second chunk is two milliseconds late. */
  lemma SecondIsLate()
    ensures CanPublish(Init(CONFIG, START), MID, MESSAGE, TWO, START, SLOW) && Reachable(Init(CONFIG, START))
    ensures |ChunksOf(Init(CONFIG, START), MESSAGE, TWO)| == 2
    ensures TimeOf(QueueId(ChunksOf(Init(CONFIG, START), MESSAGE, TWO), SLOW, 1)) == START + 2 * MILLISECOND
  {
    TwoChunks();
    assert Init(CONFIG, START) == Run(Init(CONFIG, START), []);
    assert Increasing(SLOW.ids);
    var chunks: seq<seq<Bytes>> := [[[]], [[]]];
    assert DrawOf(chunks, 0, 1) == DrawOf(chunks[1..], 2, 0) == 2;
  }
}
