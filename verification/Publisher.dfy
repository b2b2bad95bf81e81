/** The publish call: rows built by nested loops, stored in one transaction, then enqueued or left for later. */
module Publisher {
  import opened Entities
  import opened Tables
  import opened AesGcm
  import opened Publish
  import opened Goroutines
  import opened FanOutRefinement
  import opened Database
  import opened Enqueue

  /** The process's one id generator: the ids it will give are fixed, how many it has given is not. */
  class Node {
    const ids: nat -> Id
    var drawn: nat

    ghost predicate Valid() { Increasing(ids) }

    constructor (ids: nat -> Id)
      requires Increasing(ids)
      ensures Valid() && this.ids == ids && drawn == 0
    {
      this.ids, drawn := ids, 0;
    }

    method Generate() returns (id: Id)
      modifies this
      ensures id == ids(old(drawn)) && drawn == old(drawn) + 1
    {
      id := ids(drawn);
      drawn := drawn + 1;
    }
  }

  /** What the random source gives just before draw k: bytes, or an error. */
  type Random = nat -> Option<nat -> byte>

  function NonceOf(a: Aead, r: Option<nat -> byte>): Bytes {
    if r.None? then [] else seq(a.nonceSize, (i: nat) => r.value(i))
  }

  function DrawsFrom(ids: nat -> Id, start: nat, a: Aead, random: Random, hash: Bytes -> string): Draws {
    Draws((k: nat) => ids(start + k), (k: nat) => NonceOf(a, random(k)), hash)
  }

  /** The random source gives bytes for n draws from k on. */
  ghost predicate Lasts(random: Random, k: nat, n: nat) { forall i: nat :: k <= i < k + n ==> random(i).Some? }

  /** It does so for every receiver of every chunk. */
  ghost predicate AllNonces(chunks: seq<seq<Bytes>>, random: Random, k: nat) {
    chunks != [] ==>
      && Lasts(random, k + 1, |chunks[0]|)
      && AllNonces(chunks[1..], random, k + 1 + |chunks[0]|)
  }

  lemma RowsMore(chunk: seq<Bytes>, c: Common, a: Aead, d: Draws, k: nat, j: nat)
    requires j < |chunk|
    ensures ChunkTargets(chunk, c, a, d, k)[..j + 1] == ChunkTargets(chunk, c, a, d, k)[..j] +
              [(d.ids(k + 1 + j), TargetRow(c, a, d, d.ids(k), chunk[j], k + 1 + j))]
  {
  }

  /** One receiver sealed, hashed and given an id. */
  method MakeTarget(node: Node, a: Aead, receiver: Bytes, c: Common, random: Random, hash: Bytes -> string,
                    start: nat, queueId: Id)
      returns (row: Option<(Id, Target)>)
    requires start <= node.drawn
    modifies node
    ensures var d, n := DrawsFrom(node.ids, start, a, random, hash), old(node.drawn) - start;
            && (row.Some? <==> random(n).Some?)
            && (row.Some? ==> row.value == (d.ids(n), TargetRow(c, a, d, queueId, receiver, n)))
            && (row.Some? ==>
                  && row.value.1.queueId == queueId && row.value.1.messageId == c.messageId
                  && row.value.1.receiver == Encrypt(a, receiver, d.nonces(n))
                  && row.value.1.receiverHash == hash(receiver)
                  && row.value.1.provider == (if c.mtype == Sms then Mitake else Sendgrid))
    ensures node.drawn == old(node.drawn) + if row.Some? then 1 else 0
  {
    var sealed := AesEncrypt(a, receiver, random(node.drawn - start));
    if sealed.None? {
      return None;
    }
    var id := node.Generate();
    row := Some((id, Target(c.messageId, queueId, sealed.value, hash(receiver), ProviderOf(c.mtype),
                            Pending, None, NoTrace, c.at, false)));
  }

  /** The targets of one chunk are appended; an encryption error stops everything. */
  method AppendTargets(node: Node, a: Aead, chunk: seq<Bytes>, c: Common, random: Random, hash: Bytes -> string,
                       start: nat, k: nat, queueId: Id, before: seq<(Id, Target)>)
      returns (ok: bool, targets: seq<(Id, Target)>)
    requires node.drawn == start + k + 1 && queueId == DrawsFrom(node.ids, start, a, random, hash).ids(k)
    modifies node
    ensures ok <==> Lasts(random, k + 1, |chunk|)
    ensures ok ==>
              && node.drawn == start + k + 1 + |chunk|
              && targets == before + ChunkTargets(chunk, c, a, DrawsFrom(node.ids, start, a, random, hash), k)
  {
    ghost var d := DrawsFrom(node.ids, start, a, random, hash);
    ghost var rows := ChunkTargets(chunk, c, a, d, k);
    targets := before;
    for j := 0 to |chunk|
      invariant node.drawn == start + k + 1 + j
      invariant Lasts(random, k + 1, j)
      invariant targets == before + rows[..j]
    {
      var target := MakeTarget(node, a, chunk[j], c, random, hash, start, queueId);
      if target.None? {
        return false, [];
      }
      targets := targets + [target.value];
      RowsMore(chunk, c, a, d, k, j);
    }
    ok := true;
  }

  /** What the loop has built from the first i chunks, with k draws made, and what is left come to the whole. */
  ghost predicate Built(chunks: seq<seq<Bytes>>, i: nat, c: Common, a: Aead, d: Draws, k: nat, b: Batch)
    requires i <= |chunks|
  {
    && b.queues + QueuesOf(chunks[i..], c, d, k) == QueuesOf(chunks, c, d, 0)
    && b.targets + TargetsOf(chunks[i..], c, a, d, k) == TargetsOf(chunks, c, a, d, 0)
  }

  lemma BuiltMore(chunks: seq<seq<Bytes>>, i: nat, c: Common, a: Aead, d: Draws, k: nat, b: Batch)
    requires i < |chunks| && Built(chunks, i, c, a, d, k, b)
    ensures Built(chunks, i + 1, c, a, d, k + 1 + |chunks[i]|,
                  Batch(b.queues + [QueueRow(c, d, k)], b.targets + ChunkTargets(chunks[i], c, a, d, k)))
  {
  }

  lemma NoncesMore(chunks: seq<seq<Bytes>>, i: nat, random: Random, k: nat)
    requires i < |chunks|
    ensures AllNonces(chunks[i..], random, k) <==>
              Lasts(random, k + 1, |chunks[i]|) && AllNonces(chunks[i + 1..], random, k + 1 + |chunks[i]|)
  {
  }

  method PrepareTargetsAndQueues(node: Node, a: Aead, receivers: seq<Bytes>, c: Common, limit: int, random: Random,
                                 hash: Bytes -> string)
      returns (ok: bool, batch: Batch)
    modifies node
    ensures ok <==> AllNonces(Chunks(receivers, limit), random, 0)
    ensures ok ==> batch == Prepared(receivers, limit, c, a, DrawsFrom(node.ids, old(node.drawn), a, random, hash))
  {
    ok := true;
    var chunks := ChunkArray(receivers, limit);
    var queues: seq<(Id, Queue)>, targets: seq<(Id, Target)> := [], [];
    var start := node.drawn;
    ghost var d := DrawsFrom(node.ids, start, a, random, hash);
    var k: nat := 0;
    for i := 0 to |chunks|
      invariant ok && node.drawn == start + k
      invariant AllNonces(chunks, random, 0) <==> AllNonces(chunks[i..], random, k)
      invariant Built(chunks, i, c, a, d, k, Batch(queues, targets))
    {
      NoncesMore(chunks, i, random, k);
      BuiltMore(chunks, i, c, a, d, k, Batch(queues, targets));
      var id := node.Generate();
      queues := queues + [(id, Queue(c.messageId, Pending, c.at, false))];
      ok, targets := AppendTargets(node, a, chunks[i], c, random, hash, start, k, id, targets);
      k := k + 1 + |chunks[i]|;
      if !ok {
        return false, Batch([], []);
      }
    }
    batch := Batch(queues, targets);
  }

  /******* The whole call *******/

  datatype PublishRequest = PublishRequest(mtype: MessageType, data: Bytes, receivers: seq<Bytes>, scheduledAt: Option<Time>)

  /** What clocks, the random source, the database and the broker do during one call. */
  datatype PublishEnv = PublishEnv(
    createdAt: Time, rowsAt: Time, random: Random, hash: Bytes -> string,
    faults: set<nat>, sends: nat -> SendEnv, first: set<nat>, second: set<nat>)

  datatype PublishResult = Published(messageId: Id) | NotPrepared | NotStored | NotEnqueued

  function MessageRow(req: PublishRequest, createdAt: Time): Message {
    Message(req.mtype, req.data, req.scheduledAt, if req.scheduledAt.Some? then Scheduled else Pending, createdAt, false)
  }

  /** The rows of a call: what is prepared from its draws. */
  function RowsOf(req: PublishRequest, limit: int, a: Aead, mid: Id, ids: nat -> Id, start: nat, env: PublishEnv): Batch {
    Prepared(req.receivers, limit, Common(mid, req.mtype, env.rowsAt), a, DrawsFrom(ids, start, a, env.random, env.hash))
  }

  lemma RowsDistinct(req: PublishRequest, limit: int, a: Aead, mid: Id, ids: nat -> Id, start: nat, env: PublishEnv)
    requires Increasing(ids)
    ensures var b := RowsOf(req, limit, a, mid, ids, start, env);
            && DistinctKeys(b.queues) && DistinctKeys(b.targets)
            && (b.queues == [] <==> limit <= 0 || req.receivers == [])
            && (b.targets == [] <==> limit <= 0 || req.receivers == [])
  {
    var c, d := Common(mid, req.mtype, env.rowsAt), DrawsFrom(ids, start, a, env.random, env.hash);
    NothingPrepared(req.receivers, limit, c, a, d);
    if limit > 0 && req.receivers != [] {
      PreparedIsBatch(req.receivers, limit, c, a, d);
    }
  }

  /** The publish transaction goes through. */
  ghost predicate Stores(db: Store, req: PublishRequest, limit: int, mid: Id, b: Batch, faults: set<nat>) {
    req.receivers != [] && limit > 0 && Fresh(db, mid, b) && Passes(3, faults)
  }

  /** One transaction: the message, then the targets, then the queues, or nothing. */
  method StoreBatch(db: Db, mid: Id, m: Message, b: Batch, faults: set<nat>) returns (ok: bool)
    requires DistinctKeys(b.queues) && DistinctKeys(b.targets)
    modifies db
    ensures ok <==> b.targets != [] && b.queues != [] && Fresh(old(db.Contents()), mid, b) && Passes(3, faults)
    ensures db.Contents() == if ok then CreateTx(old(db.Contents()), mid, m, b) else old(db.Contents())
  {
    var start := db.Contents();
    ok := db.CreateMessage(mid, m);
    if ok && 0 !in faults {
      ok := db.CreateTargets(b.targets);
      if ok && 1 !in faults {
        ok := db.CreateQueues(b.queues);
        if ok && 2 !in faults && 3 !in faults {
          return true;
        }
      }
    }
    db.Rollback(start);
    ok := false;
  }

  /**
    Nothing is stored or sent unless every receiver could be sealed and the transaction commits; then
    the rows are exactly the prepared ones, and an unscheduled message is enqueued at once.
   */
  method PublishMessage(service: NotifyService, node: Node, a: Aead, limit: int, req: PublishRequest, env: PublishEnv)
      returns (r: PublishResult, ghost outcomes: seq<Outcome>)
    requires node.Valid()
    modifies node, service.db, service.broker
    ensures var before, mid := old(service.db.Contents()), node.ids(old(node.drawn));
            var m, b := MessageRow(req, env.createdAt), RowsOf(req, limit, a, mid, node.ids, old(node.drawn) + 1, env);
            && (r.NotPrepared? <==> !AllNonces(Chunks(req.receivers, limit), env.random, 0))
            && (r.NotStored? <==> !r.NotPrepared? && !Stores(before, req, limit, mid, b, env.faults))
            && (r.NotPrepared? || r.NotStored? ==> service.db.Contents() == before)
            && (!r.Published? || req.scheduledAt.Some? ==> service.broker.log == old(service.broker.log))
            && (r.Published? ==> r.messageId == mid)
            && DistinctKeys(b.queues) && DistinctKeys(b.targets)
            && (r.NotEnqueued? || (r.Published? && req.scheduledAt.Some?) ==>
                  service.db.Contents() == CreateTx(before, mid, m, b))
            && (r.NotEnqueued? <==>
                  !r.NotPrepared? && !r.NotStored? && req.scheduledAt.None? && !Commits(map[], env.first))
            && (r.Published? && req.scheduledAt.None? ==>
                  && AllFollow(outcomes, seq(|Refs(b)|, env.sends))
                  && service.broker.log == old(service.broker.log) + Sequential(TopicOf(req.mtype), Refs(b), outcomes).log
                  && service.db.Contents() ==
                     AfterEnqueue(CreateTx(before, mid, m, b), TopicOf(req.mtype), Refs(b), outcomes, env.second))
  {
    outcomes := [];
    var mid := node.Generate();
    var m := MessageRow(req, env.createdAt);
    var prepared, b := PrepareTargetsAndQueues(
      node, a, req.receivers, Common(mid, req.mtype, env.rowsAt), limit, env.random, env.hash);
    RowsDistinct(req, limit, a, mid, node.ids, old(node.drawn) + 1, env);
    if !prepared {
      return NotPrepared, [];
    }
    var stored := StoreBatch(service.db, mid, m, b, env.faults);
    if !stored {
      return NotStored, [];
    }
    if req.scheduledAt.Some? {
      return Published(mid), [];
    }
    var ok;
    ok, outcomes := service.HandleEnqueue(TopicOf(req.mtype), Refs(b), seq(|Refs(b)|, env.sends), env.first, env.second);
    r := if ok then Published(mid) else NotEnqueued;
  }
}
