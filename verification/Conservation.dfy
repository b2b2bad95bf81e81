/** From the receivers of a publish call to the requests the providers get, over every run. */
module Conservation {
  import opened Entities
  import opened Tables
  import opened AesGcm
  import opened Publish
  import opened MitakeSms
  import opened Requests
  import opened Pipeline
  import opened PipelineInvariant
  import opened PipelineRuns
  import opened PipelineTheorems

  function AllTargets(db: Store, q: Id): set<Id> { set t | t in db.targets && db.targets[t].queueId == q }

  function QueueId(chunks: seq<seq<Bytes>>, d: Draws, i: nat): Id
    requires i < |chunks|
  {
    d.ids(DrawOf(chunks, 0, i))
  }

  function TargetDraw(chunks: seq<seq<Bytes>>, i: nat, j: nat): nat
    requires i < |chunks|
  {
    DrawOf(chunks, 0, i) + 1 + j
  }

  /** The ids of one chunk's targets, in the order of its receivers. */
  function ChunkIds(chunks: seq<seq<Bytes>>, d: Draws, i: nat): seq<Id>
    requires i < |chunks|
  {
    seq(|chunks[i]|, j requires 0 <= j < |chunks[i]| => d.ids(TargetDraw(chunks, i, j)))
  }

  /** Target j of queue i has its own receiver sealed in it, and that receiver's hash beside it. */
  ghost predicate Sealed(targets: map<Id, Target>, chunks: seq<seq<Bytes>>, a: Aead, d: Draws, i: nat, j: nat)
    requires i < |chunks| && j < |chunks[i]|
  {
    var t := ChunkIds(chunks, d, i)[j];
    && t in targets && targets[t].queueId == QueueId(chunks, d, i)
    && targets[t].receiver == Encrypt(a, chunks[i][j], d.nonces(TargetDraw(chunks, i, j)))
    && targets[t].receiverHash == d.hash(chunks[i][j])
  }

  /** The targets of queue i are those of chunk i, each with its own receiver sealed in it. */
  ghost predicate Holds(db: Store, chunks: seq<seq<Bytes>>, a: Aead, d: Draws, i: nat)
    requires i < |chunks|
  {
    && QueueId(chunks, d, i) in db.queues
    && SetOf(ChunkIds(chunks, d, i)) == AllTargets(db, QueueId(chunks, d, i))
    && (forall j :: 0 <= j < |chunks[i]| ==> Sealed(db.targets, chunks, a, d, i, j))
  }

  /** Queue ids of different chunks differ. */
  lemma SameQueue(chunks: seq<seq<Bytes>>, d: Draws, i: nat, j: nat)
    requires Increasing(d.ids) && i < |chunks| && j < |chunks|
    requires QueueId(chunks, d, i) == QueueId(chunks, d, j)
    ensures i == j
  {
    if i < j {
      DrawsIncrease(chunks, 0, i, j);
    } else if j < i {
      DrawsIncrease(chunks, 0, j, i);
    }
  }

  /** Any new target row with queue i's id sits in chunk i. */
  lemma NewTarget(chunks: seq<seq<Bytes>>, c: Common, a: Aead, d: Draws, i: nat, p: nat)
    requires Increasing(d.ids) && i < |chunks| && p < |TargetsOf(chunks, c, a, d, 0)|
    requires TargetsOf(chunks, c, a, d, 0)[p].1.queueId == QueueId(chunks, d, i)
    ensures TargetsOf(chunks, c, a, d, 0)[p].0 in ChunkIds(chunks, d, i)
  {
    var i', j := TargetOrigin(chunks, c, a, d, 0, p);
    PlacedRow(TargetsOf(chunks, c, a, d, 0)[p], chunks, c, a, d, i', j);
    SameQueue(chunks, d, i', i);
  }

  /** Receiver j of chunk i has its row. */
  lemma PlacedTarget(db: Store, mid: Id, m: Message, chunks: seq<seq<Bytes>>, c: Common, a: Aead, d: Draws, b: Batch,
                     i: nat, j: nat)
    requires DistinctKeys(b.queues) && DistinctKeys(b.targets) && b.targets == TargetsOf(chunks, c, a, d, 0)
    requires i < |chunks| && j < |chunks[i]|
    ensures Sealed(CreateTx(db, mid, m, b).targets, chunks, a, d, i, j)
  {
    var p := TargetPlace(chunks, c, a, d, 0, i, j);
    PlacedRow(b.targets[p], chunks, c, a, d, i, j);
    RowMapHas(b.targets, p);
  }

  lemma PlacedRow(row: Row, chunks: seq<seq<Bytes>>, c: Common, a: Aead, d: Draws, i: nat, j: nat)
    requires DrawnAs(row, chunks, c, a, d, 0, i, j)
    ensures row.0 == ChunkIds(chunks, d, i)[j] && row.1.queueId == QueueId(chunks, d, i)
    ensures row.1.receiver == Encrypt(a, chunks[i][j], d.nonces(TargetDraw(chunks, i, j)))
    ensures row.1.receiverHash == d.hash(chunks[i][j])
  {
    assert TargetDraw(chunks, i, j) == DrawOf(chunks, 0, i) + 1 + j;
  }

  /** And no other row points at queue i. */
  lemma OnlyTargets(db: Store, mid: Id, m: Message, chunks: seq<seq<Bytes>>, c: Common, a: Aead, d: Draws, b: Batch,
                    i: nat, t: Id)
    requires DistinctKeys(b.queues) && DistinctKeys(b.targets) && b.targets == TargetsOf(chunks, c, a, d, 0)
    requires Increasing(d.ids) && i < |chunks| && Linked(db) && QueueId(chunks, d, i) !in db.queues
    requires t in AllTargets(CreateTx(db, mid, m, b), QueueId(chunks, d, i))
    ensures t in ChunkIds(chunks, d, i)
  {
    if t in RowMap(b.targets) {
      var p := RowMapIndex(b.targets, t);
      NewTarget(chunks, c, a, d, i, p);
    } else {
      assert false;
    }
  }

  /** So queue i has exactly its chunk's targets. */
  lemma ChunkTargetsExactly(db: Store, mid: Id, m: Message, chunks: seq<seq<Bytes>>, c: Common, a: Aead, d: Draws,
                            b: Batch, i: nat)
    requires DistinctKeys(b.queues) && DistinctKeys(b.targets) && b.targets == TargetsOf(chunks, c, a, d, 0)
    requires Increasing(d.ids) && i < |chunks| && Linked(db) && QueueId(chunks, d, i) !in db.queues
    ensures SetOf(ChunkIds(chunks, d, i)) == AllTargets(CreateTx(db, mid, m, b), QueueId(chunks, d, i))
  {
    var q, ids := QueueId(chunks, d, i), ChunkIds(chunks, d, i);
    forall t | t in AllTargets(CreateTx(db, mid, m, b), q) ensures t in ids {
      OnlyTargets(db, mid, m, chunks, c, a, d, b, i, t);
    }
    forall t | t in ids ensures t in AllTargets(CreateTx(db, mid, m, b), q) {
      var j :| 0 <= j < |ids| && ids[j] == t;
      PlacedTarget(db, mid, m, chunks, c, a, d, b, i, j);
    }
  }

  /** Right after the publish transaction every chunk is in place. */
  lemma CreatedHolds(db: Store, mid: Id, m: Message, chunks: seq<seq<Bytes>>, c: Common, a: Aead, d: Draws, b: Batch,
                     i: nat)
    requires b == Batch(QueuesOf(chunks, c, d, 0), TargetsOf(chunks, c, a, d, 0)) && Increasing(d.ids)
    requires DistinctKeys(b.queues) && DistinctKeys(b.targets)
    requires Linked(db) && Fresh(db, mid, b) && i < |chunks|
    ensures Holds(CreateTx(db, mid, m, b), chunks, a, d, i)
    ensures CreateTx(db, mid, m, b).queues[QueueId(chunks, d, i)] == Queue(c.messageId, Pending, c.at, false)
  {
    QueueRows(chunks, c, d, 0);
    RowMapHas(b.queues, i);
    assert b.queues[i].0 == QueueId(chunks, d, i);
    ChunkTargetsExactly(db, mid, m, chunks, c, a, d, b, i);
    forall j | 0 <= j < |chunks[i]| ensures Sealed(CreateTx(db, mid, m, b).targets, chunks, a, d, i, j) {
      PlacedTarget(db, mid, m, chunks, c, a, d, b, i, j);
    }
  }

  lemma EvolvesHolds(db: Store, db': Store, chunks: seq<seq<Bytes>>, a: Aead, d: Draws, i: nat)
    requires i < |chunks| && Holds(db, chunks, a, d, i) && Evolves(db, db')
    ensures Holds(db', chunks, a, d, i)
  {
    var q := QueueId(chunks, d, i);
    forall t ensures t in AllTargets(db', q) <==> t in AllTargets(db, q) {
      if t in db.targets { assert TargetEvolves(db.targets[t], db'.targets[t]); }
    }
    forall j | 0 <= j < |chunks[i]| ensures Sealed(db'.targets, chunks, a, d, i, j) {
      var t := ChunkIds(chunks, d, i)[j];
      assert Sealed(db.targets, chunks, a, d, i, j);
      assert TargetEvolves(db.targets[t], db'.targets[t]);
    }
  }

  /** What the cipher must do and what a publish call draws for it. */
  ghost predicate Sealing(a: Aead, d: Draws) {
    OpenInvertsSeal(a) && forall k: nat :: |d.nonces(k)| == a.nonceSize
  }

  function ChunkMap(chunks: seq<seq<Bytes>>, d: Draws, i: nat): map<Id, Bytes>
    requires i < |chunks| && Distinct(ChunkIds(chunks, d, i))
  {
    map j | 0 <= j < |chunks[i]| :: ChunkIds(chunks, d, i)[j] := chunks[i][j]
  }

  /** Ids of one chunk differ. */
  lemma ChunkIdsDistinct(chunks: seq<seq<Bytes>>, d: Draws, i: nat)
    requires i < |chunks| && Increasing(d.ids)
    ensures Distinct(ChunkIds(chunks, d, i))
  {
    var ids := ChunkIds(chunks, d, i);
    forall x, y | 0 <= x < y < |ids| ensures ids[x] != ids[y] {
      assert d.ids(TargetDraw(chunks, i, x)) < d.ids(TargetDraw(chunks, i, y));
    }
  }

  lemma ChunkMapAt(chunks: seq<seq<Bytes>>, d: Draws, i: nat, j: nat)
    requires i < |chunks| && j < |chunks[i]| && Distinct(ChunkIds(chunks, d, i))
    ensures ChunkIds(chunks, d, i)[j] in ChunkMap(chunks, d, i)
    ensures ChunkMap(chunks, d, i)[ChunkIds(chunks, d, i)[j]] == chunks[i][j]
  {
  }

  /** A loaded row is one of the chunk's and decrypts to the receiver in the same place. */
  lemma RowDecrypts(db: Store, chunks: seq<seq<Bytes>>, a: Aead, d: Draws, i: nat, row: Row)
    requires i < |chunks| && Holds(db, chunks, a, d, i) && Sealing(a, d) && Increasing(d.ids)
    requires row.0 in AllTargets(db, QueueId(chunks, d, i)) && row.1 == db.targets[row.0]
    ensures Distinct(ChunkIds(chunks, d, i)) && row.0 in ChunkMap(chunks, d, i)
    ensures SmsEntry(a, row) == SmsReceiver(TextOf(row.0), ChunkMap(chunks, d, i)[row.0])
    ensures MailEntry(a, row) == ChunkMap(chunks, d, i)[row.0]
  {
    ChunkIdsDistinct(chunks, d, i);
    var ids := ChunkIds(chunks, d, i);
    assert row.0 in SetOf(ids);
    var j :| 0 <= j < |ids| && ids[j] == row.0;
    assert Sealed(db.targets, chunks, a, d, i, j);
    ChunkMapAt(chunks, d, i, j);
    StoredRoundTrip(a, chunks[i][j], d.nonces(TargetDraw(chunks, i, j)));
  }

  /** In whatever order the targets of queue i are loaded, the requests carry the receivers of chunk i. */
  lemma RequestHolds(db: Store, chunks: seq<seq<Bytes>>, a: Aead, d: Draws, i: nat, rows: seq<Row>)
    requires i < |chunks| && Holds(db, chunks, a, d, i) && Sealing(a, d) && Increasing(d.ids)
    requires Loads(db.targets, AllTargets(db, QueueId(chunks, d, i)), rows)
    ensures |rows| == |chunks[i]|
    ensures multiset(Receivers(SmsRequest(a, rows))) == multiset(chunks[i])
    ensures multiset(MailRequest(a, rows)) == multiset(chunks[i])
  {
    ChunkIdsDistinct(chunks, d, i);
    var ids, keys, value := ChunkIds(chunks, d, i), IdsOf(rows), ChunkMap(chunks, d, i);
    LoadedKeys(db.targets, AllTargets(db, QueueId(chunks, d, i)), rows);
    forall p | 0 <= p < |rows|
      ensures keys[p] in value && SmsEntry(a, rows[p]).receiver == value[keys[p]] == MailEntry(a, rows[p])
    {
      RowDecrypts(db, chunks, a, d, i, rows[p]);
    }
    ColumnOrderFree(keys, ids, value);
    assert Column(ids, value) == chunks[i];
    assert Receivers(SmsRequest(a, rows)) == Column(keys, value) == MailRequest(a, rows);
  }

  /******* Over every run *******/

  function ChunksOf(s: State, m: Message, receivers: seq<Bytes>): seq<seq<Bytes>> {
    Chunks(receivers, LimitOf(s.config, m.mtype))
  }

  /** The step that publishes is the publish transaction, and it leaves a good state. */
  lemma PublishStarts(s: State, mid: Id, m: Message, receivers: seq<Bytes>, at: Time, d: Draws)
    requires Reachable(s) && CanPublish(s, mid, m, receivers, at, d)
    ensures var b, s1 := BatchOf(s, mid, m, receivers, at, d), Step(s, PublishMessage(mid, m, receivers, at, d));
            && DistinctKeys(b.queues) && DistinctKeys(b.targets) && Linked(s.db)
            && s1.db == CreateTx(s.db, mid, m, b) && Inv(s1)
  {
    ReachableInv(s);
    StepKeeps(s, PublishMessage(mid, m, receivers, at, d));
    PreparedIsBatch(receivers, LimitOf(s.config, m.mtype), CommonOf(mid, m, at), s.config.aead, d);
  }

  /** The i-th queue's row and targets in the publish transaction. */
  lemma PublishPlaces(s: State, mid: Id, m: Message, receivers: seq<Bytes>, at: Time, d: Draws, i: nat)
    requires Reachable(s) && CanPublish(s, mid, m, receivers, at, d) && i < |ChunksOf(s, m, receivers)|
    ensures var db, chunks := Step(s, PublishMessage(mid, m, receivers, at, d)).db, ChunksOf(s, m, receivers);
            && Holds(db, chunks, s.config.aead, d, i)
            && db.queues[QueueId(chunks, d, i)] == Queue(mid, Pending, at, false)
  {
    PublishStarts(s, mid, m, receivers, at, d);
    CreatedHolds(s.db, mid, m, ChunksOf(s, m, receivers), CommonOf(mid, m, at), s.config.aead, d,
                 BatchOf(s, mid, m, receivers, at, d), i);
  }

  /** Whatever happens after a publish, each of its queues keeps its own targets and their receivers. */
  lemma PublishedHolds(s: State, mid: Id, m: Message, receivers: seq<Bytes>, at: Time, d: Draws, more: seq<Action>,
                       i: nat)
    requires Reachable(s) && CanPublish(s, mid, m, receivers, at, d) && i < |ChunksOf(s, m, receivers)|
    ensures Inv(Run(Step(s, PublishMessage(mid, m, receivers, at, d)), more))
    ensures Holds(Run(Step(s, PublishMessage(mid, m, receivers, at, d)), more).db, ChunksOf(s, m, receivers),
                  s.config.aead, d, i)
  {
    var s1 := Step(s, PublishMessage(mid, m, receivers, at, d));
    PublishStarts(s, mid, m, receivers, at, d);
    PublishPlaces(s, mid, m, receivers, at, d, i);
    RunFrom(s1, more);
    EvolvesHolds(s1.db, Run(s1, more).db, ChunksOf(s, m, receivers), s.config.aead, d, i);
  }

  /** The receivers in one request to the provider of a message type. */
  function RequestOf(t: MessageType, a: Aead, rows: seq<Row>): seq<Bytes> {
    match t case Sms => Receivers(SmsRequest(a, rows)) case Mail => MailRequest(a, rows)
  }

  /** All receivers of a family of requests. */
  function Handed(t: MessageType, a: Aead, requests: seq<seq<Row>>): multiset<Bytes> {
    if requests == [] then multiset{}
    else multiset(RequestOf(t, a, requests[0])) + Handed(t, a, requests[1..])
  }

  lemma {:induction false} HandedIsFlat(t: MessageType, a: Aead, requests: seq<seq<Row>>, chunks: seq<seq<Bytes>>)
    requires |requests| == |chunks|
    requires forall i :: 0 <= i < |chunks| ==> multiset(RequestOf(t, a, requests[i])) == multiset(chunks[i])
    ensures Handed(t, a, requests) == multiset(Flatten(chunks))
  {
    if chunks != [] {
      HandedIsFlat(t, a, requests[1..], chunks[1..]);
    }
  }

  /**
    End to end: load the targets of all queues of a message at any later time, each in any order;
    every request has between one and `limit` entries, and together they carry exactly the
    receivers of the publish call.
   */
  lemma ReceiversConserved(s: State, mid: Id, m: Message, receivers: seq<Bytes>, at: Time, d: Draws, more: seq<Action>,
                           requests: seq<seq<Row>>)
    requires Reachable(s) && CanPublish(s, mid, m, receivers, at, d) && Sealing(s.config.aead, d)
    requires |requests| == |ChunksOf(s, m, receivers)|
    requires var db' := Run(Step(s, PublishMessage(mid, m, receivers, at, d)), more).db;
             forall i :: 0 <= i < |requests| ==>
               Loads(db'.targets, AllTargets(db', QueueId(ChunksOf(s, m, receivers), d, i)), requests[i])
    ensures Handed(m.mtype, s.config.aead, requests) == multiset(receivers)
    ensures forall i :: 0 <= i < |requests| ==>
              1 <= |requests[i]| <= if m.mtype == Sms then s.config.smsLimit else s.config.mailLimit
  {
    var chunks, a := ChunksOf(s, m, receivers), s.config.aead;
    var db' := Run(Step(s, PublishMessage(mid, m, receivers, at, d)), more).db;
    ChunksPartition(receivers, LimitOf(s.config, m.mtype));
    forall i | 0 <= i < |chunks|
      ensures |requests[i]| == |chunks[i]| && multiset(RequestOf(m.mtype, a, requests[i])) == multiset(chunks[i])
    {
      PublishedHolds(s, mid, m, receivers, at, d, more, i);
      RequestHolds(db', chunks, a, d, i, requests[i]);
    }
    HandedIsFlat(m.mtype, a, requests, chunks);
  }

  /** Every provider call for queue i is for all of its targets, as many as chunk i has receivers. */
  lemma CallsCarryChunks(s: State, mid: Id, m: Message, receivers: seq<Bytes>, at: Time, d: Draws, more: seq<Action>,
                         i: nat)
    requires Reachable(s) && CanPublish(s, mid, m, receivers, at, d) && i < |ChunksOf(s, m, receivers)|
    ensures var s', q := Run(Step(s, PublishMessage(mid, m, receivers, at, d)), more),
            QueueId(ChunksOf(s, m, receivers), d, i);
            forall k :: 0 <= k < |s'.calls| && s'.calls[k].queueId == q ==>
              s'.calls[k].targets == AllTargets(s'.db, q) && |s'.calls[k].targets| == |ChunksOf(s, m, receivers)[i]|
  {
    var s' := Run(Step(s, PublishMessage(mid, m, receivers, at, d)), more);
    var chunks := ChunksOf(s, m, receivers);
    var q := QueueId(chunks, d, i);
    PublishedHolds(s, mid, m, receivers, at, d, more, i);
    ChunkIdsDistinct(chunks, d, i);
    DistinctCount(ChunkIds(chunks, d, i));
    forall k | 0 <= k < |s'.calls| && s'.calls[k].queueId == q ensures s'.calls[k].targets == AllTargets(s'.db, q) {
      assert CallInv(s'.db, s'.now, s'.calls[k]);
      forall t ensures t in s'.calls[k].targets <==> t in AllTargets(s'.db, q) {}
    }
  }
}
