/** The cancel call, and the lookups that are narrowed by the instant in an id. */
module Cancellation {
  import opened Entities
  import opened Tables
  import opened Snowflake
  import opened Publish
  import opened Database
  import opened Conservation
  import opened Pipeline
  import opened PipelineInvariant
  import opened PipelineTheorems

  datatype CancelResult = Done | Exited | QueryFailed | NotFound | AlreadyEnqueued | NotCommitted

  predicate Cancelable(db: Store, mid: Id) {
    mid in db.messages && !db.messages[mid].deleted && InWindow(db.messages[mid].createdAt, mid)
  }

  /** Which ending a cancel call has, and that only a commit changes the tables. */
  ghost predicate CancelOutcome(s: Store, after: Store, messageId: Option<Id>, queryFails: bool, faults: set<nat>,
                                r: CancelResult) {
    if messageId.None? then r.Exited? && after == s
    else
      var mid := messageId.value;
      if queryFails then r.QueryFailed? && after == s
      else if !Cancelable(s, mid) then r.NotFound? && after == s
      else if s.messages[mid].status == Enqueued then r.AlreadyEnqueued? && after == s
      else if !Passes(3, faults) then r.NotCommitted? && after == s
      else r.Done? && after == CancelTx(s, mid, TimeOf(mid) - HOUR, TimeOf(mid) + HOUR)
  }

  /** A message id that is no number ends the process; a failing statement or commit undoes the rest. */
  method CancelScheduledByMessageId(db: Db, messageId: Option<Id>, queryFails: bool, faults: set<nat>)
      returns (r: CancelResult)
    modifies db
    ensures CancelOutcome(old(db.Contents()), db.Contents(), messageId, queryFails, faults, r)
    ensures messageId.Some? && !queryFails ==>
              var mid := messageId.value;
              (r.NotFound? <==>
                 || mid !in old(db.messages) || old(db.messages)[mid].deleted
                 || old(db.messages)[mid].createdAt < TimeOf(mid) - 3_600_000_000_000
                 || old(db.messages)[mid].createdAt > TimeOf(mid) + 3_600_000_000_000)
  {
    if messageId.None? {
      return Exited;
    }
    var mid := messageId.value;
    var startAt, endAt := TimeOf(mid) - HOUR, TimeOf(mid) + HOUR;
    if queryFails {
      return QueryFailed;
    }
    if mid !in db.messages || db.messages[mid].deleted || !Within(db.messages[mid].createdAt, startAt, endAt) {
      return NotFound;
    }
    if db.messages[mid].status == Enqueued {
      return AlreadyEnqueued;
    }
    var start := db.Contents();
    if 0 !in faults {
      db.DeleteMessage(mid);
      if 1 !in faults {
        db.DeleteQueues(mid, startAt, endAt);
        if 2 !in faults {
          db.DeleteTargets(mid, startAt, endAt);
          if 3 !in faults {
            return Done;
          }
        }
      }
    }
    db.Rollback(start);
    r := NotCommitted;
  }

  /******* Narrowed and full lookups *******/

  /** Cancellation without the window. */
  function FullCancelTx(s: Store, mid: Id): Store {
    s.(messages := CancelMessage(s.messages, mid),
       queues := map q | q in s.queues ::
         if s.queues[q].messageId == mid && !s.queues[q].deleted
         then s.queues[q].(status := Canceled, deleted := true) else s.queues[q],
       targets := map t | t in s.targets ::
         if s.targets[t].messageId == mid && !s.targets[t].deleted
         then s.targets[t].(status := Canceled, deleted := true) else s.targets[t])
  }

  predicate AllInside(s: Store, mid: Id, lo: Time, hi: Time) {
    && (forall q :: q in s.queues && s.queues[q].messageId == mid && !s.queues[q].deleted ==>
              Within(s.queues[q].createdAt, lo, hi))
    && (forall t :: t in s.targets && s.targets[t].messageId == mid && !s.targets[t].deleted ==>
              Within(s.targets[t].createdAt, lo, hi))
  }

  /** The narrowed cancellation is the full one exactly when no live row lies outside the window. */
  lemma WindowedCancel(s: Store, mid: Id, lo: Time, hi: Time)
    ensures CancelTx(s, mid, lo, hi) == FullCancelTx(s, mid) <==> AllInside(s, mid, lo, hi)
  {
    var a, b := CancelTx(s, mid, lo, hi), FullCancelTx(s, mid);
    if a == b {
      forall q | q in s.queues && s.queues[q].messageId == mid && !s.queues[q].deleted
        ensures Within(s.queues[q].createdAt, lo, hi)
      {
        assert a.queues[q] == b.queues[q];
      }
      forall t | t in s.targets && s.targets[t].messageId == mid && !s.targets[t].deleted
        ensures Within(s.targets[t].createdAt, lo, hi)
      {
        assert a.targets[t] == b.targets[t];
      }
    }
    if AllInside(s, mid, lo, hi) {
      assert a.queues.Keys == b.queues.Keys && a.targets.Keys == b.targets.Keys;
      forall q | q in s.queues ensures a.queues[q] == b.queues[q] {}
      forall t | t in s.targets ensures a.targets[t] == b.targets[t] {}
    }
  }

  /** In every reachable state the window loses nothing: same lookup, same cancellation. */
  lemma CancelFindsAll(s: State, mid: Id)
    requires Reachable(s)
    ensures Cancelable(s.db, mid) <==> mid in s.db.messages && !s.db.messages[mid].deleted
    ensures CancelTx(s.db, mid, TimeOf(mid) - HOUR, TimeOf(mid) + HOUR) == FullCancelTx(s.db, mid)
  {
    ReachableInv(s);
    forall q | q in s.db.queues && s.db.queues[q].messageId == mid ensures InWindow(s.db.queues[q].createdAt, mid) {
      assert QueueOk(s.db.queues[q], MessageOf(s.db, q));
    }
    forall t | t in s.db.targets && s.db.targets[t].messageId == mid ensures InWindow(s.db.targets[t].createdAt, mid) {
      assert TargetOk(s.db.targets[t], QueueOf(s.db, t), MessageOf(s.db, s.db.targets[t].queueId));
      assert QueueOk(QueueOf(s.db, t), MessageOf(s.db, s.db.targets[t].queueId));
    }
    WindowedCancel(s.db, mid, TimeOf(mid) - HOUR, TimeOf(mid) + HOUR);
  }

  /**
    In a reachable state a call whose id is a number and whose lookup works is done exactly when its message is there,
    not canceled, not `enqueued`, and none of three statements and their commit fails.
   */
  lemma CancelMust(s: State, mid: Id, faults: set<nat>, after: Store, r: CancelResult)
    requires Reachable(s) && CancelOutcome(s.db, after, Some(mid), false, faults, r)
    ensures r.NotFound? <==> mid !in s.db.messages || s.db.messages[mid].status == Canceled
    ensures r.AlreadyEnqueued? <==> mid in s.db.messages && s.db.messages[mid].status == Enqueued
    ensures r.Done? <==>
              && mid in s.db.messages && s.db.messages[mid].status !in {Canceled, Enqueued}
              && 0 !in faults && 1 !in faults && 2 !in faults && 3 !in faults
    ensures r.Done? || r.NotFound? || r.AlreadyEnqueued? || r.NotCommitted?
  {
    CancelFindsAll(s, mid);
    ReachableInv(s);
    if mid in s.db.messages { assert MessageOk(mid, s.db.messages[mid]); }
  }

  /** Rows of the i-th queue keep its creation instant, and it lives as long as its message. */
  lemma PublishedQueue(s: State, mid: Id, m: Message, receivers: seq<Bytes>, at: Time, d: Draws, more: seq<Action>,
                       i: nat)
    requires Reachable(s) && CanPublish(s, mid, m, receivers, at, d) && i < |ChunksOf(s, m, receivers)|
    ensures var db', q := Run(Step(s, PublishMessage(mid, m, receivers, at, d)), more).db,
            QueueId(ChunksOf(s, m, receivers), d, i);
            && q in db'.queues && db'.queues[q].createdAt == at && db'.queues[q].messageId == mid
            && mid in db'.messages && db'.queues[q].deleted == db'.messages[mid].deleted
  {
    var s1, chunks := Step(s, PublishMessage(mid, m, receivers, at, d)), ChunksOf(s, m, receivers);
    var s', q := Run(s1, more), QueueId(chunks, d, i);
    PublishStarts(s, mid, m, receivers, at, d);
    PublishPlaces(s, mid, m, receivers, at, d, i);
    RunFrom(s1, more);
    assert QueueEvolves(s1.db.queues[q], s'.db.queues[q]);
    assert QueueOk(s'.db.queues[q], MessageOf(s'.db, q));
  }

  /** The worker sees the i-th queue of a live message exactly when the instant in its id is not after `created_at`. */
  lemma VisibleExactly(s: State, mid: Id, m: Message, receivers: seq<Bytes>, at: Time, d: Draws, more: seq<Action>,
                       i: nat)
    requires Reachable(s) && CanPublish(s, mid, m, receivers, at, d) && i < |ChunksOf(s, m, receivers)|
    ensures var db', q := Run(Step(s, PublishMessage(mid, m, receivers, at, d)), more).db,
            QueueId(ChunksOf(s, m, receivers), d, i);
            mid in db'.messages && (Visible(db', q) <==> !db'.messages[mid].deleted && TimeOf(q) <= at)
  {
    PublishedQueue(s, mid, m, receivers, at, d, more, i);
  }

  /** `created_at` is read once, before ever later ids: the chunks the worker can see are a prefix of the batch. */
  lemma VisiblePrefix(s: State, mid: Id, m: Message, receivers: seq<Bytes>, at: Time, d: Draws, more: seq<Action>,
                      i: nat, j: nat)
    requires Reachable(s) && CanPublish(s, mid, m, receivers, at, d) && i < j < |ChunksOf(s, m, receivers)|
    ensures var db', chunks := Run(Step(s, PublishMessage(mid, m, receivers, at, d)), more).db, ChunksOf(s, m, receivers);
            Visible(db', QueueId(chunks, d, j)) ==> Visible(db', QueueId(chunks, d, i))
  {
    var chunks := ChunksOf(s, m, receivers);
    PublishedQueue(s, mid, m, receivers, at, d, more, i);
    PublishedQueue(s, mid, m, receivers, at, d, more, j);
    DrawsIncrease(chunks, 0, i, j);
    DecodeMonotone(QueueId(chunks, d, i), QueueId(chunks, d, j));
  }

  /** A chunk whose id was generated in a later millisecond than `created_at` is never handed to a provider. */
  lemma LateChunkNeverSent(s: State, mid: Id, m: Message, receivers: seq<Bytes>, at: Time, d: Draws,
                           more: seq<Action>, i: nat)
    requires Reachable(s) && CanPublish(s, mid, m, receivers, at, d) && i < |ChunksOf(s, m, receivers)|
    requires TimeOf(QueueId(ChunksOf(s, m, receivers), d, i)) > at
    ensures CallsFor(Run(Step(s, PublishMessage(mid, m, receivers, at, d)), more).calls,
                     QueueId(ChunksOf(s, m, receivers), d, i)) == 0
  {
    var s', q := Run(Step(s, PublishMessage(mid, m, receivers, at, d)), more), QueueId(ChunksOf(s, m, receivers), d, i);
    PublishedHolds(s, mid, m, receivers, at, d, more, i);
    PublishedQueue(s, mid, m, receivers, at, d, more, i);
    forall k | 0 <= k < |s'.calls| ensures s'.calls[k].queueId != q {
      assert CallInv(s'.db, s'.now, s'.calls[k]);
    }
    NoCalls(s'.calls, q);
  }

  lemma {:induction false} NoCalls(calls: seq<Call>, q: Id)
    requires forall k :: 0 <= k < |calls| ==> calls[k].queueId != q
    ensures CallsFor(calls, q) == 0
  {
    if calls != [] { NoCalls(calls[..|calls| - 1], q); }
  }
}
