/** What the status query says of a published message, at any later time. */
module StatusQueries {
  import opened Entities
  import opened AesGcm
  import opened Publish
  import opened Requests
  import opened Paging
  import opened Pipeline
  import opened PipelineInvariant
  import opened PipelineRuns
  import opened PipelineTheorems
  import opened Conservation

  /** No step adds a target to a message that exists. */
  lemma OldMessagesStep(s: State, a: Action, t: Id)
    requires Inv(s) && t in Step(s, a).db.targets && Step(s, a).db.targets[t].messageId in s.db.messages
    ensures t in s.db.targets
  {
    if Enabled(s, a) && a.PublishMessage? {
      if t !in s.db.targets { AddedTarget(s, a.mid, a.message, a.receivers, a.at, a.draws, t); }
    } else if Enabled(s, a) {
      NoNewRows(s, a);
    }
  }

  lemma {:induction false} OldMessages(s: State, more: seq<Action>, t: Id)
    requires Inv(s) && t in Run(s, more).db.targets && Run(s, more).db.targets[t].messageId in s.db.messages
    ensures t in s.db.targets
    decreases |more|
  {
    if more != [] {
      var n := |more| - 1;
      var before := Run(s, more[..n]);
      RunFrom(s, more[..n]);
      OldMessagesStep(before, more[n], t);
      StepKeeps(before, more[n]);
      assert TargetEvolves(before.db.targets[t], Run(s, more).db.targets[t]);
      OldMessages(s, more[..n], t);
    }
  }

  /** Receiver j of chunk i. */
  predicate Placed(chunks: seq<seq<Bytes>>, i: nat, j: nat) { i < |chunks| && j < |chunks[i]| }

  /** Every target of a published message is that of one receiver of one chunk. */
  lemma OwnTarget(s: State, mid: Id, m: Message, receivers: seq<Bytes>, at: Time, d: Draws, more: seq<Action>, t: Id)
      returns (i: nat, j: nat)
    requires Reachable(s) && CanPublish(s, mid, m, receivers, at, d)
    requires var db' := Run(Step(s, PublishMessage(mid, m, receivers, at, d)), more).db;
             t in db'.targets && db'.targets[t].messageId == mid
    ensures var chunks := ChunksOf(s, m, receivers);
            Placed(chunks, i, j) && t == ChunkIds(chunks, d, i)[j]
  {
    var s1, chunks, c := Step(s, PublishMessage(mid, m, receivers, at, d)), ChunksOf(s, m, receivers), CommonOf(mid, m, at);
    var b := BatchOf(s, mid, m, receivers, at, d);
    PublishStarts(s, mid, m, receivers, at, d);
    OldMessages(s1, more, t);
    RunFrom(s1, more);
    assert TargetEvolves(s1.db.targets[t], Run(s1, more).db.targets[t]);
    NotBefore(s, mid, t);
    var p := RowMapIndex(b.targets, t);
    i, j := TargetOrigin(chunks, c, s.config.aead, d, 0, p);
    PlacedRow(b.targets[p], chunks, c, s.config.aead, d, i, j);
  }

  /** A fresh message id is on no target. */
  lemma NotBefore(s: State, mid: Id, t: Id)
    requires Reachable(s) && mid !in s.db.messages
    ensures t in s.db.targets ==> s.db.targets[t].messageId != mid
  {
    ReachableInv(s);
    if t in s.db.targets {
      assert TargetOk(s.db.targets[t], QueueOf(s.db, t), MessageOf(s.db, s.db.targets[t].queueId));
    }
  }

  /** The columns a query looks at, of a published target and its message, at any later time. */
  lemma PublishedColumns(s: State, mid: Id, m: Message, receivers: seq<Bytes>, at: Time, d: Draws, more: seq<Action>,
                         i: nat, j: nat)
    requires Reachable(s) && CanPublish(s, mid, m, receivers, at, d) && Placed(ChunksOf(s, m, receivers), i, j)
    ensures var db' := Run(Step(s, PublishMessage(mid, m, receivers, at, d)), more).db;
            var chunks := ChunksOf(s, m, receivers);
            var t := ChunkIds(chunks, d, i)[j];
            && mid in db'.messages && db'.messages[mid].mtype == m.mtype && db'.messages[mid].createdAt == m.createdAt
            && t in db'.targets && db'.targets[t].messageId == mid && db'.targets[t].createdAt == at
            && db'.targets[t].receiverHash == d.hash(chunks[i][j])
  {
    var s1, chunks := Step(s, PublishMessage(mid, m, receivers, at, d)), ChunksOf(s, m, receivers);
    var db' := Run(s1, more).db;
    PublishStarts(s, mid, m, receivers, at, d);
    PublishPlaces(s, mid, m, receivers, at, d, i);
    PublishedHolds(s, mid, m, receivers, at, d, more, i);
    RunFrom(s1, more);
    assert MessageEvolves(s1.db.messages[mid], db'.messages[mid]);
    assert Sealed(db'.targets, chunks, s.config.aead, d, i, j);
    var t := ChunkIds(chunks, d, i)[j];
    assert QueueEvolves(s1.db.queues[QueueId(chunks, d, i)], db'.queues[QueueId(chunks, d, i)]);
    assert TargetOk(db'.targets[t], QueueOf(db', t), MessageOf(db', db'.targets[t].queueId));
  }

  /** The query asks for this type and a period with both creation instants in it. */
  predicate WantsMessage(req: ListRequest, m: Message, at: Time) {
    req.mtype == m.mtype && req.startAt <= m.createdAt <= req.endAt && req.startAt <= at <= req.endAt
  }

  /** And for no receiver, or one that hashes like this one. */
  predicate Wants(req: ListRequest, m: Message, at: Time, receiver: Bytes, hash: Bytes -> string) {
    WantsMessage(req, m, at) && (req.receiver.Some? ==> hash(receiver) == hash(req.receiver.value))
  }

  /** A query lists a published target iff it wants it and, if it names a message, names its own. */
  lemma ListedExactly(s: State, mid: Id, m: Message, receivers: seq<Bytes>, at: Time, d: Draws, more: seq<Action>,
                      req: ListRequest, i: nat, j: nat)
    requires Reachable(s) && CanPublish(s, mid, m, receivers, at, d) && Placed(ChunksOf(s, m, receivers), i, j)
    ensures var db' := Run(Step(s, PublishMessage(mid, m, receivers, at, d)), more).db;
            var chunks := ChunksOf(s, m, receivers);
            ChunkIds(chunks, d, i)[j] in Matching(db', req, d.hash) <==>
              (req.messageId.Some? ==> req.messageId.value == mid) && Wants(req, m, at, chunks[i][j], d.hash)
  {
    PublishedColumns(s, mid, m, receivers, at, d, more, i, j);
  }

  /** The target is that of some receiver the query wants. */
  ghost predicate IsWanted(chunks: seq<seq<Bytes>>, d: Draws, req: ListRequest, m: Message, at: Time, t: Id) {
    exists i: nat, j: nat ::
      Placed(chunks, i, j) && t == ChunkIds(chunks, d, i)[j] && Wants(req, m, at, chunks[i][j], d.hash)
  }

  /**
    A query by the id of a published message lists, canceled or not, exactly the targets of those of its receivers
    that the query wants: all of them, or those that hash like the receiver asked for, or, with the other type or a
    period that misses a creation instant, none.
   */
  lemma QueryExactly(s: State, mid: Id, m: Message, receivers: seq<Bytes>, at: Time, d: Draws, more: seq<Action>,
                     req: ListRequest, t: Id)
    requires Reachable(s) && CanPublish(s, mid, m, receivers, at, d) && req.messageId == Some(mid)
    ensures t in Matching(Run(Step(s, PublishMessage(mid, m, receivers, at, d)), more).db, req, d.hash) <==>
              IsWanted(ChunksOf(s, m, receivers), d, req, m, at, t)
  {
    var chunks := ChunksOf(s, m, receivers);
    if t in Matching(Run(Step(s, PublishMessage(mid, m, receivers, at, d)), more).db, req, d.hash) {
      var i, j := OwnTarget(s, mid, m, receivers, at, d, more, t);
      ListedExactly(s, mid, m, receivers, at, d, more, req, i, j);
    }
    if IsWanted(chunks, d, req, m, at, t) {
      var i: nat, j: nat :|
        Placed(chunks, i, j) && t == ChunkIds(chunks, d, i)[j] && Wants(req, m, at, chunks[i][j], d.hash);
      ListedExactly(s, mid, m, receivers, at, d, more, req, i, j);
    }
  }

  /******* The total *******/

  function RowIdsOf(rows: seq<(Id, Target)>): seq<Id> { seq(|rows|, p requires 0 <= p < |rows| => rows[p].0) }

  lemma {:induction false} AsManyTargets(chunks: seq<seq<Bytes>>, c: Common, a: Aead, d: Draws, k: nat)
    ensures |TargetsOf(chunks, c, a, d, k)| == |Flatten(chunks)|
  {
    if chunks != [] { AsManyTargets(chunks[1..], c, a, d, k + 1 + |chunks[0]|); }
  }

  /** The ids of all prepared rows are those of all receivers of all chunks. */
  lemma RowPlaces(chunks: seq<seq<Bytes>>, c: Common, a: Aead, d: Draws, t: Id)
    ensures t in SetOf(RowIdsOf(TargetsOf(chunks, c, a, d, 0))) <==>
              exists i: nat, j: nat :: Placed(chunks, i, j) && t == ChunkIds(chunks, d, i)[j]
  {
    var rows := TargetsOf(chunks, c, a, d, 0);
    var ids := RowIdsOf(rows);
    if t in SetOf(ids) {
      var p :| 0 <= p < |ids| && ids[p] == t;
      var i, j := TargetOrigin(chunks, c, a, d, 0, p);
      PlacedRow(rows[p], chunks, c, a, d, i, j);
      assert Placed(chunks, i, j);
    }
    forall i: nat, j: nat | Placed(chunks, i, j) && t == ChunkIds(chunks, d, i)[j] ensures t in SetOf(ids) {
      var p := TargetPlace(chunks, c, a, d, 0, i, j);
      PlacedRow(rows[p], chunks, c, a, d, i, j);
      assert ids[p] == t;
    }
  }

  /** The total of a query by the message's id and type, over a period around it, is the number of its receivers. */
  lemma TotalIsReceivers(s: State, mid: Id, m: Message, receivers: seq<Bytes>, at: Time, d: Draws, more: seq<Action>,
                         req: ListRequest)
    requires Reachable(s) && CanPublish(s, mid, m, receivers, at, d)
    requires req.messageId == Some(mid) && req.receiver.None? && WantsMessage(req, m, at)
    ensures |Matching(Run(Step(s, PublishMessage(mid, m, receivers, at, d)), more).db, req, d.hash)| == |receivers|
  {
    var chunks, c := ChunksOf(s, m, receivers), CommonOf(mid, m, at);
    var ids := RowIdsOf(TargetsOf(chunks, c, s.config.aead, d, 0));
    var listed := Matching(Run(Step(s, PublishMessage(mid, m, receivers, at, d)), more).db, req, d.hash);
    PublishStarts(s, mid, m, receivers, at, d);
    forall t ensures t in listed <==> t in SetOf(ids) {
      QueryExactly(s, mid, m, receivers, at, d, more, req, t);
      RowPlaces(chunks, c, s.config.aead, d, t);
    }
    assert listed == SetOf(ids);
    DistinctCount(ids);
    AsManyTargets(chunks, c, s.config.aead, d, 0);
    ChunksPartition(receivers, LimitOf(s.config, m.mtype));
  }
}
