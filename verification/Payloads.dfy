/** From the receivers of a publish call to the bytes the SMS provider is posted. */
module Payloads {
  import opened Entities
  import opened Tables
  import opened AesGcm
  import opened Publish
  import opened MitakeSms
  import opened Requests
  import opened Handlers
  import opened Pipeline
  import opened PipelineInvariant
  import opened PipelineRuns
  import opened PipelineTheorems
  import opened Conservation
  import opened Cancellation

  /** A decoded line as it is meant: the target's id, the receiver and the text. */
  function Meant(line: (SmsReceiver, Bytes)): (Id, Bytes, Bytes) {
    (ParseId(line.0.targetId), line.0.receiver, line.1)
  }

  function AllMeant(lines: seq<(SmsReceiver, Bytes)>): seq<(Id, Bytes, Bytes)> {
    seq(|lines|, i requires 0 <= i < |lines| => Meant(lines[i]))
  }

  /** The i-th chunk as the provider should get it. */
  function ChunkLines(chunks: seq<seq<Bytes>>, d: Draws, i: nat, text: Bytes): seq<(Id, Bytes, Bytes)>
    requires i < |chunks|
  {
    seq(|chunks[i]|, j requires 0 <= j < |chunks[i]| => (ChunkIds(chunks, d, i)[j], chunks[i][j], text))
  }

  function LineMap(chunks: seq<seq<Bytes>>, d: Draws, i: nat, text: Bytes): map<Id, (Id, Bytes, Bytes)>
    requires i < |chunks| && Distinct(ChunkIds(chunks, d, i))
  {
    map t | t in ChunkMap(chunks, d, i) :: (t, ChunkMap(chunks, d, i)[t], text)
  }

  lemma LinesAreColumn(chunks: seq<seq<Bytes>>, d: Draws, i: nat, text: Bytes)
    requires i < |chunks| && Distinct(ChunkIds(chunks, d, i))
    ensures AllIn(ChunkIds(chunks, d, i), LineMap(chunks, d, i, text))
    ensures Column(ChunkIds(chunks, d, i), LineMap(chunks, d, i, text)) == ChunkLines(chunks, d, i, text)
  {
    forall j | 0 <= j < |chunks[i]|
      ensures ChunkIds(chunks, d, i)[j] in ChunkMap(chunks, d, i)
      ensures ChunkMap(chunks, d, i)[ChunkIds(chunks, d, i)[j]] == chunks[i][j]
    {
      ChunkMapAt(chunks, d, i, j);
    }
  }

  /** One loaded row makes one line of the chunk, whose fields hold no separator. */
  lemma RowMeans(db: Store, chunks: seq<seq<Bytes>>, a: Aead, d: Draws, i: nat, row: Row, text: Bytes)
    requires i < |chunks| && Holds(db, chunks, a, d, i) && Sealing(a, d) && Increasing(d.ids)
    requires row.0 in AllTargets(db, QueueId(chunks, d, i)) && row.1 == db.targets[row.0]
    requires forall j :: 0 <= j < |chunks[i]| ==> IsField(chunks[i][j])
    ensures Distinct(ChunkIds(chunks, d, i)) && row.0 in LineMap(chunks, d, i, text)
    ensures Meant((SmsEntry(a, row), text)) == LineMap(chunks, d, i, text)[row.0]
    ensures IsField(SmsEntry(a, row).targetId) && IsField(SmsEntry(a, row).receiver)
  {
    RowDecrypts(db, chunks, a, d, i, row);
    IdTextParses(row.0);
  }

  /** Without a line end in the text the posted payload is read as exactly the chunk's lines. */
  lemma CleanPosted(db: Store, chunks: seq<seq<Bytes>>, a: Aead, d: Draws, i: nat, rows: seq<Row>, text: Bytes)
    requires i < |chunks| && Holds(db, chunks, a, d, i) && Sealing(a, d) && Increasing(d.ids)
    requires Loads(db.targets, AllTargets(db, QueueId(chunks, d, i)), rows)
    requires forall j :: 0 <= j < |chunks[i]| ==> IsField(chunks[i][j])
    ensures FieldsOnly(SmsRequest(a, rows)) && |rows| == |chunks[i]|
    ensures multiset(AllMeant(Addressed(SmsRequest(a, rows), text))) == multiset(ChunkLines(chunks, d, i, text))
  {
    ChunkIdsDistinct(chunks, d, i);
    var ids, keys, value := ChunkIds(chunks, d, i), IdsOf(rows), LineMap(chunks, d, i, text);
    LoadedKeys(db.targets, AllTargets(db, QueueId(chunks, d, i)), rows);
    forall p | 0 <= p < |rows|
      ensures keys[p] in value && Meant((SmsEntry(a, rows[p]), text)) == value[keys[p]]
      ensures IsField(SmsEntry(a, rows[p]).targetId) && IsField(SmsEntry(a, rows[p]).receiver)
    {
      RowMeans(db, chunks, a, d, i, rows[p], text);
    }
    LinesAreColumn(chunks, d, i, text);
    ColumnOrderFree(keys, ids, value);
    assert AllMeant(Addressed(SmsRequest(a, rows), text)) == Column(keys, value);
  }

  /** With one, the first line already loses part of the text. */
  lemma CutPosted(request: seq<SmsReceiver>, text: Bytes, lines: seq<(Id, Bytes, Bytes)>)
    requires FieldsOnly(request) && request != [] && !NoCrlf(text)
    requires forall k :: 0 <= k < |lines| ==> lines[k].2 == text
    ensures var decoded := DecodePayload(Payload(request, text));
            decoded.Some? ==> multiset(AllMeant(decoded.value)) != multiset(lines)
  {
    var decoded := DecodePayload(Payload(request, text));
    FirstTextCut(request, text);
    if decoded.Some? {
      var meant := AllMeant(decoded.value);
      assert meant[0].2 != text;
      assert meant[0] in multiset(meant) && meant[0] !in multiset(lines);
    }
  }

  /** Exactly without a line end in the text, the payload is read as the chunk's lines. */
  ghost predicate PostsChunk(chunks: seq<seq<Bytes>>, a: Aead, d: Draws, i: nat, rows: seq<Row>, text: Bytes)
    requires i < |chunks|
  {
    var decoded := DecodePayload(Payload(SmsRequest(a, rows), text));
    NoCrlf(text) <==> decoded.Some? && multiset(AllMeant(decoded.value)) == multiset(ChunkLines(chunks, d, i, text))
  }

  lemma RowsPosted(db: Store, chunks: seq<seq<Bytes>>, a: Aead, d: Draws, i: nat, rows: seq<Row>, text: Bytes)
    requires i < |chunks| && Holds(db, chunks, a, d, i) && Sealing(a, d) && Increasing(d.ids)
    requires Loads(db.targets, AllTargets(db, QueueId(chunks, d, i)), rows)
    requires chunks[i] != [] && forall j :: 0 <= j < |chunks[i]| ==> IsField(chunks[i][j])
    ensures PostsChunk(chunks, a, d, i, rows, text)
  {
    CleanPosted(db, chunks, a, d, i, rows, text);
    if NoCrlf(text) {
      PayloadDecodes(SmsRequest(a, rows), text);
    } else {
      CutPosted(SmsRequest(a, rows), text, ChunkLines(chunks, d, i, text));
    }
  }

  /** A chunk has receivers, and only receivers of the call. */
  lemma ChunkFields(s: State, m: Message, receivers: seq<Bytes>, i: nat)
    requires i < |ChunksOf(s, m, receivers)| && forall j :: 0 <= j < |receivers| ==> IsField(receivers[j])
    ensures ChunksOf(s, m, receivers)[i] != []
    ensures forall j :: 0 <= j < |ChunksOf(s, m, receivers)[i]| ==> IsField(ChunksOf(s, m, receivers)[i][j])
  {
    ChunksPartition(receivers, LimitOf(s.config, m.mtype));
    ChunkAt(receivers, LimitOf(s.config, m.mtype), 0, i);
  }

  /** A live queue of the message loads the text of the publish call. */
  lemma PublishedText(s: State, mid: Id, m: Message, receivers: seq<Bytes>, at: Time, d: Draws, more: seq<Action>, i: nat)
    requires Reachable(s) && CanPublish(s, mid, m, receivers, at, d) && i < |ChunksOf(s, m, receivers)|
    ensures var db' := Run(Step(s, PublishMessage(mid, m, receivers, at, d)), more).db;
            var q := QueueId(ChunksOf(s, m, receivers), d, i);
            q in db'.queues && (!db'.queues[q].deleted ==> TextFor(db'.messages, db'.queues[q].messageId) == m.data)
  {
    var s1 := Step(s, PublishMessage(mid, m, receivers, at, d));
    PublishStarts(s, mid, m, receivers, at, d);
    PublishedQueue(s, mid, m, receivers, at, d, more, i);
    RunFrom(s1, more);
    assert MessageEvolves(s1.db.messages[mid], Run(s1, more).db.messages[mid]);
  }

  /** The rows a handler loads for the i-th queue are its chunk's. */
  lemma PublishedLoads(s: State, mid: Id, m: Message, receivers: seq<Bytes>, at: Time, d: Draws, more: seq<Action>,
                       i: nat, x: LoadedQueue)
    requires Reachable(s) && CanPublish(s, mid, m, receivers, at, d) && i < |ChunksOf(s, m, receivers)|
    requires LoadsQueue(Run(Step(s, PublishMessage(mid, m, receivers, at, d)), more).db,
                        QueueId(ChunksOf(s, m, receivers), d, i), x)
    ensures var db', chunks := Run(Step(s, PublishMessage(mid, m, receivers, at, d)), more).db, ChunksOf(s, m, receivers);
            && Holds(db', chunks, s.config.aead, d, i)
            && Loads(db'.targets, AllTargets(db', QueueId(chunks, d, i)), x.targets)
  {
    var db' := Run(Step(s, PublishMessage(mid, m, receivers, at, d)), more).db;
    var q := QueueId(ChunksOf(s, m, receivers), d, i);
    PublishedHolds(s, mid, m, receivers, at, d, more, i);
    LoadsAll(db', q);
    forall t ensures t in LiveTargets(db', q) <==> t in AllTargets(db', q) {}
    assert LiveTargets(db', q) == AllTargets(db', q);
  }

  /**
    What the handler posts for the i-th queue of a published message, at any later time: for receivers without
    separators the provider reads exactly the chunk's target ids and receivers, each with the whole text, if and
    only if the text has no line end.
   */
  lemma PostedExactly(s: State, mid: Id, m: Message, receivers: seq<Bytes>, at: Time, d: Draws, more: seq<Action>,
                      i: nat, x: LoadedQueue)
    requires Reachable(s) && CanPublish(s, mid, m, receivers, at, d) && i < |ChunksOf(s, m, receivers)|
    requires Sealing(s.config.aead, d)
    requires forall j :: 0 <= j < |receivers| ==> IsField(receivers[j])
    requires LoadsQueue(Run(Step(s, PublishMessage(mid, m, receivers, at, d)), more).db,
                        QueueId(ChunksOf(s, m, receivers), d, i), x)
    ensures x.data == m.data
    ensures PostsChunk(ChunksOf(s, m, receivers), s.config.aead, d, i, x.targets, m.data)
  {
    PublishedText(s, mid, m, receivers, at, d, more, i);
    PublishedLoads(s, mid, m, receivers, at, d, more, i, x);
    ChunkFields(s, m, receivers, i);
    RowsPosted(Run(Step(s, PublishMessage(mid, m, receivers, at, d)), more).db, ChunksOf(s, m, receivers),
               s.config.aead, d, i, x.targets, m.data);
  }
}
