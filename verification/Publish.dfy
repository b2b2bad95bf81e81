/** From a list of receivers to queue and target rows, and back to the providers' requests. */
module Publish {
  import opened Entities
  import opened Tables
  import opened AesGcm

  /******* Chunks *******/

  function Min(a: int, b: int): int { if a < b then a else b }

  /** The slices of `data` that start at `start` and every `size` further on. */
  function ChunksFrom<T>(data: seq<T>, size: int, start: nat): seq<seq<T>>
    requires size > 0
    decreases |data| - start
  {
    if start >= |data| then []
    else [data[start..Min(start + size, |data|)]] + ChunksFrom(data, size, start + size)
  }

  function Chunks<T>(data: seq<T>, size: int): seq<seq<T>> {
    if size <= 0 then [] else ChunksFrom(data, size, 0)
  }

  function Flatten<T>(parts: seq<seq<T>>): seq<T> {
    if parts == [] then [] else parts[0] + Flatten(parts[1..])
  }

  method ChunkArray(data: seq<Bytes>, chunkSize: int) returns (result: seq<seq<Bytes>>)
    ensures result == Chunks(data, chunkSize)
  {
    if chunkSize <= 0 {
      return [];
    }
    result := [];
    var start := 0;
    while start < |data|
      invariant 0 <= start
      invariant result + ChunksFrom(data, chunkSize, start) == Chunks(data, chunkSize)
      decreases |data| - start
    {
      var end := Min(start + chunkSize, |data|);
      result := result + [data[start..end]];
      start := start + chunkSize;
    }
  }

  lemma {:induction false} ChunksFromFlatten<T>(data: seq<T>, size: int, start: nat)
    requires size > 0
    ensures Flatten(ChunksFrom(data, size, start)) == if start >= |data| then [] else data[start..]
    decreases |data| - start
  {
    if start < |data| {
      ChunksFromFlatten(data, size, start + size);
      var end := Min(start + size, |data|);
      var parts := ChunksFrom(data, size, start);
      assert parts[1..] == ChunksFrom(data, size, start + size);
      assert data[start..end] + data[end..] == data[start..];
    }
  }

  /** Where the i-th chunk lies. */
  lemma {:induction false} ChunkAt<T>(data: seq<T>, size: int, start: nat, i: nat)
    requires size > 0
    ensures i < |ChunksFrom(data, size, start)| <==> start + i * size < |data|
    ensures start + i * size < |data| ==>
              ChunksFrom(data, size, start)[i] == data[start + i * size..Min(start + i * size + size, |data|)]
    decreases |data| - start
  {
    if start < |data| && i > 0 {
      ChunkAt(data, size, start + size, i - 1);
      assert start + size + (i - 1) * size == start + i * size;
    } else if start >= |data| {
      assert i * size >= 0;
    }
  }

  /** Chunking loses nothing, keeps the order, and every chunk has between one and `size` entries. */
  lemma ChunksPartition<T>(data: seq<T>, size: int)
    requires size > 0
    ensures Flatten(Chunks(data, size)) == data
    ensures forall i :: 0 <= i < |Chunks(data, size)| ==> 1 <= |Chunks(data, size)[i]| <= size
    ensures forall i :: 0 <= i < |Chunks(data, size)| - 1 ==> |Chunks(data, size)[i]| == size
  {
    ChunksFromFlatten(data, size, 0);
    forall i | 0 <= i < |Chunks(data, size)| ensures 1 <= |Chunks(data, size)[i]| <= size
      ensures i < |Chunks(data, size)| - 1 ==> |Chunks(data, size)[i]| == size
    {
      ChunkAt(data, size, 0, i);
      ChunkAt(data, size, 0, i + 1);
      assert (i + 1) * size == i * size + size;
    }
  }

  /******* Rows *******/

  datatype Batch = Batch(queues: seq<(Id, Queue)>, targets: seq<(Id, Target)>)

  /** What one publish call draws: the k-th id, the nonce drawn just before it, and the receiver hash. */
  datatype Draws = Draws(ids: nat -> Id, nonces: nat -> Bytes, hash: Bytes -> string)

  /** The columns all rows of one batch share. */
  datatype Common = Common(messageId: Id, mtype: MessageType, at: Time)

  function TargetRow(c: Common, a: Aead, d: Draws, qid: Id, receiver: Bytes, k: nat): Target {
    Target(c.messageId, qid, Encrypt(a, receiver, d.nonces(k)), d.hash(receiver), ProviderOf(c.mtype),
           Pending, None, NoTrace, c.at, false)
  }

  function ChunkTargets(chunk: seq<Bytes>, c: Common, a: Aead, d: Draws, k: nat): seq<(Id, Target)> {
    seq(|chunk|, j requires 0 <= j < |chunk| =>
          (d.ids(k + 1 + j), TargetRow(c, a, d, d.ids(k), chunk[j], k + 1 + j)))
  }

  function QueueRow(c: Common, d: Draws, k: nat): (Id, Queue) {
    (d.ids(k), Queue(c.messageId, Pending, c.at, false))
  }

  function QueuesOf(chunks: seq<seq<Bytes>>, c: Common, d: Draws, k: nat): seq<(Id, Queue)> {
    if chunks == [] then []
    else [QueueRow(c, d, k)] + QueuesOf(chunks[1..], c, d, k + 1 + |chunks[0]|)
  }

  function TargetsOf(chunks: seq<seq<Bytes>>, c: Common, a: Aead, d: Draws, k: nat): seq<(Id, Target)> {
    if chunks == [] then []
    else ChunkTargets(chunks[0], c, a, d, k) + TargetsOf(chunks[1..], c, a, d, k + 1 + |chunks[0]|)
  }

  function Prepared(receivers: seq<Bytes>, limit: int, c: Common, a: Aead, d: Draws): Batch {
    Batch(QueuesOf(Chunks(receivers, limit), c, d, 0), TargetsOf(Chunks(receivers, limit), c, a, d, 0))
  }

  /** Ids of one node increase strictly. */
  ghost predicate Increasing(ids: nat -> Id) {
    forall i: nat, j: nat :: i < j ==> ids(i) < ids(j)
  }

  predicate DistinctKeys<V>(rows: seq<(Id, V)>) {
    forall i, j :: 0 <= i < j < |rows| ==> rows[i].0 != rows[j].0
  }

  function RowMap<V>(rows: seq<(Id, V)>): map<Id, V>
    requires DistinctKeys(rows)
  {
    map i | 0 <= i < |rows| :: rows[i].0 := rows[i].1
  }

  lemma RowMapIndex<V>(rows: seq<(Id, V)>, k: Id) returns (i: nat)
    requires DistinctKeys(rows) && k in RowMap(rows)
    ensures i < |rows| && rows[i] == (k, RowMap(rows)[k])
  {
    i :| 0 <= i < |rows| && rows[i].0 == k;
  }

  lemma RowMapHas<V>(rows: seq<(Id, V)>, i: nat)
    requires DistinctKeys(rows) && i < |rows|
    ensures rows[i].0 in RowMap(rows) && RowMap(rows)[rows[i].0] == rows[i].1
  {
  }

  /** What the rest of the system relies on in a prepared batch. */
  ghost predicate IsBatch(b: Batch, c: Common) {
    && b.queues != [] && b.targets != []
    && DistinctKeys(b.queues) && DistinctKeys(b.targets)
    && (forall i :: 0 <= i < |b.queues| ==> b.queues[i].1 == Queue(c.messageId, Pending, c.at, false))
    && (forall j :: 0 <= j < |b.targets| ==> IsTargetRow(b.targets[j].1, b.queues, c))
    && (forall i :: 0 <= i < |b.queues| ==> HasTarget(b.queues[i].0, b.targets))
  }

  predicate IsTargetRow(t: Target, queues: seq<(Id, Queue)>, c: Common) {
    && t.messageId == c.messageId && t.createdAt == c.at && !t.deleted && t.status == Pending
    && t.provider == ProviderOf(c.mtype) && t.driverTraceId == None
    && exists i :: 0 <= i < |queues| && queues[i].0 == t.queueId
  }

  predicate HasTarget(qid: Id, targets: seq<(Id, Target)>) {
    exists j :: 0 <= j < |targets| && targets[j].1.queueId == qid
  }

  /** The draw that made the id of the i-th queue. */
  function DrawOf(chunks: seq<seq<Bytes>>, k: nat, i: nat): nat
    requires i < |chunks|
  {
    if i == 0 then k else DrawOf(chunks[1..], k + 1 + |chunks[0]|, i - 1)
  }

  lemma {:induction false} QueueRows(chunks: seq<seq<Bytes>>, c: Common, d: Draws, k: nat)
    ensures |QueuesOf(chunks, c, d, k)| == |chunks|
    ensures forall i :: 0 <= i < |chunks| ==>
              && DrawOf(chunks, k, i) >= k
              && QueuesOf(chunks, c, d, k)[i] == (d.ids(DrawOf(chunks, k, i)), Queue(c.messageId, Pending, c.at, false))
  {
    if chunks != [] {
      var k' := k + 1 + |chunks[0]|;
      QueueRows(chunks[1..], c, d, k');
      forall i | 0 < i < |chunks|
        ensures DrawOf(chunks, k, i) >= k
        ensures QueuesOf(chunks, c, d, k)[i] == (d.ids(DrawOf(chunks, k, i)), Queue(c.messageId, Pending, c.at, false))
      {
        assert DrawOf(chunks, k, i) == DrawOf(chunks[1..], k', i - 1);
        assert QueuesOf(chunks, c, d, k)[i] == QueuesOf(chunks[1..], c, d, k')[i - 1];
      }
    }
  }

  /** Draws of later chunks come later. */
  lemma {:induction false} DrawsIncrease(chunks: seq<seq<Bytes>>, k: nat, i: nat, j: nat)
    requires i < j < |chunks|
    ensures k <= DrawOf(chunks, k, i) && DrawOf(chunks, k, i) + |chunks[i]| < DrawOf(chunks, k, j)
  {
    var k' := k + 1 + |chunks[0]|;
    if i == 0 {
      DrawAfter(chunks[1..], k', j - 1);
    } else {
      DrawsIncrease(chunks[1..], k', i - 1, j - 1);
    }
  }

  lemma {:induction false} DrawAfter(chunks: seq<seq<Bytes>>, k: nat, i: nat)
    requires i < |chunks|
    ensures DrawOf(chunks, k, i) >= k
  {
    if i > 0 { DrawAfter(chunks[1..], k + 1 + |chunks[0]|, i - 1); }
  }

  /** A row was drawn for position j of chunk i. */
  ghost predicate DrawnAs(row: (Id, Target), chunks: seq<seq<Bytes>>, c: Common, a: Aead, d: Draws, k: nat, i: nat,
                          j: nat) {
    && i < |chunks| && j < |chunks[i]|
    && row == (d.ids(DrawOf(chunks, k, i) + 1 + j),
               TargetRow(c, a, d, d.ids(DrawOf(chunks, k, i)), chunks[i][j], DrawOf(chunks, k, i) + 1 + j))
  }

  /** Every target row comes from one receiver of one chunk. */
  lemma {:induction false} TargetOrigin(chunks: seq<seq<Bytes>>, c: Common, a: Aead, d: Draws, k: nat, p: nat)
      returns (i: nat, j: nat)
    requires p < |TargetsOf(chunks, c, a, d, k)|
    ensures DrawnAs(TargetsOf(chunks, c, a, d, k)[p], chunks, c, a, d, k, i, j)
    ensures DrawOf(chunks, k, i) >= k
    decreases |chunks|
  {
    if p < |chunks[0]| {
      i, j := 0, p;
    } else {
      i, j := TargetOrigin(chunks[1..], c, a, d, k + 1 + |chunks[0]|, p - |chunks[0]|);
      i := i + 1;
    }
  }

  /** And every receiver of every chunk has its row. */
  lemma {:induction false} TargetPlace(chunks: seq<seq<Bytes>>, c: Common, a: Aead, d: Draws, k: nat, i: nat, j: nat)
      returns (p: nat)
    requires i < |chunks| && j < |chunks[i]|
    ensures p < |TargetsOf(chunks, c, a, d, k)|
    ensures DrawnAs(TargetsOf(chunks, c, a, d, k)[p], chunks, c, a, d, k, i, j)
    decreases |chunks|
  {
    if i == 0 {
      p := j;
    } else {
      p := TargetPlace(chunks[1..], c, a, d, k + 1 + |chunks[0]|, i - 1, j);
      p := p + |chunks[0]|;
    }
  }

  /** The draw that made the id in place p of the target rows. */
  function PlaceDraw(chunks: seq<seq<Bytes>>, k: nat, p: nat): nat {
    if chunks == [] || p < |chunks[0]| then k + 1 + p
    else PlaceDraw(chunks[1..], k + 1 + |chunks[0]|, p - |chunks[0]|)
  }

  lemma {:induction false} PlaceDrawIncreases(chunks: seq<seq<Bytes>>, k: nat, p: nat, q: nat)
    requires p < q
    ensures k < PlaceDraw(chunks, k, p) < PlaceDraw(chunks, k, q)
    decreases |chunks|
  {
    if chunks != [] && q >= |chunks[0]| {
      var n := |chunks[0]|;
      if p >= n {
        PlaceDrawIncreases(chunks[1..], k + 1 + n, p - n, q - n);
      } else {
        PlaceDrawAfter(chunks[1..], k + 1 + n, q - n);
      }
    }
  }

  lemma {:induction false} PlaceDrawAfter(chunks: seq<seq<Bytes>>, k: nat, p: nat)
    ensures k < PlaceDraw(chunks, k, p)
  {
    if chunks != [] && p >= |chunks[0]| { PlaceDrawAfter(chunks[1..], k + 1 + |chunks[0]|, p - |chunks[0]|); }
  }

  lemma {:induction false} TargetDrawn(chunks: seq<seq<Bytes>>, c: Common, a: Aead, d: Draws, k: nat, p: nat)
    requires p < |TargetsOf(chunks, c, a, d, k)|
    ensures TargetsOf(chunks, c, a, d, k)[p].0 == d.ids(PlaceDraw(chunks, k, p))
    decreases |chunks|
  {
    if p >= |chunks[0]| { TargetDrawn(chunks[1..], c, a, d, k + 1 + |chunks[0]|, p - |chunks[0]|); }
  }

  /** Target rows are in draw order, so their ids increase. */
  lemma TargetIdsIncrease(chunks: seq<seq<Bytes>>, c: Common, a: Aead, d: Draws, k: nat, p: nat, q: nat)
    requires Increasing(d.ids)
    requires p < q < |TargetsOf(chunks, c, a, d, k)|
    ensures d.ids(k) < TargetsOf(chunks, c, a, d, k)[p].0 < TargetsOf(chunks, c, a, d, k)[q].0
  {
    TargetDrawn(chunks, c, a, d, k, p);
    TargetDrawn(chunks, c, a, d, k, q);
    PlaceDrawIncreases(chunks, k, p, q);
  }

  lemma PreparedIsBatch(receivers: seq<Bytes>, limit: int, c: Common, a: Aead, d: Draws)
    requires receivers != [] && limit > 0 && Increasing(d.ids)
    ensures IsBatch(Prepared(receivers, limit, c, a, d), c)
  {
    var chunks := Chunks(receivers, limit);
    var b := Prepared(receivers, limit, c, a, d);
    ChunksPartition(receivers, limit);
    QueueRows(chunks, c, d, 0);
    forall i, j | 0 <= i < j < |b.queues| ensures b.queues[i].0 != b.queues[j].0 {
      DrawsIncrease(chunks, 0, i, j);
    }
    forall p, q | 0 <= p < q < |b.targets| ensures b.targets[p].0 != b.targets[q].0 {
      TargetIdsIncrease(chunks, c, a, d, 0, p, q);
    }
    forall p | 0 <= p < |b.targets| ensures IsTargetRow(b.targets[p].1, b.queues, c) {
      var i, j := TargetOrigin(chunks, c, a, d, 0, p);
      assert b.queues[i].0 == b.targets[p].1.queueId;
    }
    forall i | 0 <= i < |b.queues| ensures HasTarget(b.queues[i].0, b.targets) {
      var p := TargetPlace(chunks, c, a, d, 0, i, 0);
      assert b.targets[p].1.queueId == b.queues[i].0;
    }
    assert HasTarget(b.queues[0].0, b.targets);
  }

  /** A non-positive limit, or no receivers, leaves nothing to insert. */
  lemma NothingPrepared(receivers: seq<Bytes>, limit: int, c: Common, a: Aead, d: Draws)
    ensures Prepared(receivers, limit, c, a, d).targets == [] <==> limit <= 0 || receivers == []
    ensures Prepared(receivers, limit, c, a, d).queues == [] <==> limit <= 0 || receivers == []
  {
  }

  function Refs(b: Batch): seq<QueueRef> {
    seq(|b.queues|, i requires 0 <= i < |b.queues| => QueueRef(b.queues[i].0, b.queues[i].1.messageId))
  }

  /** None of the ids is taken. */
  ghost predicate Fresh(db: Store, mid: Id, b: Batch) {
    && mid !in db.messages
    && (forall i :: 0 <= i < |b.queues| ==> b.queues[i].0 !in db.queues)
    && (forall j :: 0 <= j < |b.targets| ==> b.targets[j].0 !in db.targets)
  }

  /** Message, targets and queues in one transaction. */
  function CreateTx(s: Store, mid: Id, m: Message, b: Batch): Store
    requires DistinctKeys(b.queues) && DistinctKeys(b.targets)
  {
    s.(messages := s.messages[mid := m], queues := s.queues + RowMap(b.queues), targets := s.targets + RowMap(b.targets))
  }
}
