/** The database connection: tables updated in place, one method for each kind of statement. */
module Database {
  import opened Entities
  import opened Tables
  import opened Publish

  function SetDriverTrace(ts: map<Id, Target>, qid: Id, trace: Id): map<Id, Target> {
    map t | t in ts ::
      if ts[t].queueId == qid && !ts[t].deleted then ts[t].(driverTraceId := Some(trace)) else ts[t]
  }

  lemma StatusThenTrace(ts: map<Id, Target>, qid: Id, st: Status, trace: Id)
    ensures SetDriverTrace(SetTargetStatus(ts, {qid}, st), qid, trace) == SetTargetTrace(ts, map[qid := trace], st)
  {
  }

  /** None of the first n statements, nor the commit after them, fails. */
  ghost predicate Passes(n: nat, faults: set<nat>) { forall k: nat :: k <= n ==> k !in faults }

  /** None of the statements from `lo` up to `hi` fails. */
  ghost predicate Between(lo: nat, hi: nat, faults: set<nat>) { forall k: nat :: lo <= k < hi ==> k !in faults }

  lemma BetweenMore(lo: nat, k: nat, hi: nat, faults: set<nat>)
    requires lo <= k <= hi
    ensures Between(lo, hi, faults) <==> Between(lo, k, faults) && Between(k, hi, faults)
  {
  }

  lemma PassesParts(k: nat, n: nat, faults: set<nat>)
    requires k <= n
    ensures Passes(n, faults) <==> Between(0, k, faults) && Between(k, n, faults) && n !in faults
  {
  }

  class Db {
    var messages: map<Id, Message>
    var queues: map<Id, Queue>
    var targets: map<Id, Target>
    var events: multiset<Event>

    function Contents(): Store
      reads this
    {
      Store(messages, queues, targets, events)
    }

    constructor ()
      ensures Contents() == EMPTY
    {
      messages, queues, targets, events := map[], map[], map[], multiset{};
    }

    /** Rolls a transaction back to where it began. */
    method Rollback(s: Store)
      modifies this
      ensures Contents() == s
    {
      messages, queues, targets, events := s.messages, s.queues, s.targets, s.events;
    }

    /** The insert of one message; a key that is taken makes it fail. */
    method CreateMessage(mid: Id, m: Message) returns (ok: bool)
      modifies this`messages
      ensures ok <==> mid !in old(messages)
      ensures messages == if ok then old(messages)[mid := m] else old(messages)
    {
      ok := mid !in messages;
      if ok {
        messages := messages[mid := m];
      }
    }

    /** The insert of a slice; an empty one is an error, as is a key that is taken. */
    method CreateQueues(rows: seq<(Id, Queue)>) returns (ok: bool)
      requires DistinctKeys(rows)
      modifies this`queues
      ensures ok <==> rows != [] && forall i :: 0 <= i < |rows| ==> rows[i].0 !in old(queues)
      ensures queues == if ok then old(queues) + RowMap(rows) else old(queues)
    {
      ok := rows != [] && forall i :: 0 <= i < |rows| ==> rows[i].0 !in queues;
      if ok {
        queues := queues + RowMap(rows);
      }
    }

    method CreateTargets(rows: seq<(Id, Target)>) returns (ok: bool)
      requires DistinctKeys(rows)
      modifies this`targets
      ensures ok <==> rows != [] && forall i :: 0 <= i < |rows| ==> rows[i].0 !in old(targets)
      ensures targets == if ok then old(targets) + RowMap(rows) else old(targets)
    {
      ok := rows != [] && forall i :: 0 <= i < |rows| ==> rows[i].0 !in targets;
      if ok {
        targets := targets + RowMap(rows);
      }
    }

    method UpdateMessages(ids: set<Id>, st: Status)
      modifies this`messages
      ensures messages == SetMessageStatus(old(messages), ids, st)
    {
      messages := SetMessageStatus(messages, ids, st);
    }

    method UpdateQueues(ids: set<Id>, st: Status)
      modifies this`queues
      ensures queues == SetQueueStatus(old(queues), ids, st)
    {
      queues := SetQueueStatus(queues, ids, st);
    }

    method UpdateTargets(qids: set<Id>, st: Status)
      modifies this`targets
      ensures targets == SetTargetStatus(old(targets), qids, st)
    {
      targets := SetTargetStatus(targets, qids, st);
    }

    /** Status first, driver trace second, on the targets of one queue. */
    method UpdateTargetTrace(qid: Id, st: Status, trace: Id)
      modifies this`targets
      ensures targets == SetTargetTrace(old(targets), map[qid := trace], st)
    {
      targets := SetTargetStatus(targets, {qid}, st);
      targets := SetDriverTrace(targets, qid, trace);
      StatusThenTrace(old(targets), qid, st, trace);
    }

    /** One target, by its primary key. */
    method UpdateTarget(id: Id, st: Status, trace: ProviderTrace)
      modifies this`targets
      ensures targets == StampTargets(old(targets), {id}, st, trace)
    {
      if id in targets && !targets[id].deleted {
        targets := targets[id := targets[id].(status := st, providerTraceId := trace)];
      }
    }

    method MarkTargets(qid: Id, from: Time)
      modifies this`targets
      ensures targets == SendingTargets(old(targets), qid, from)
    {
      targets := SendingTargets(targets, qid, from);
    }

    method MarkQueue(qid: Id, from: Time)
      modifies this`queues
      ensures queues == SendingQueue(old(queues), qid, from)
    {
      queues := SendingQueue(queues, qid, from);
    }

    /** The soft deletion of one message. */
    method DeleteMessage(mid: Id)
      modifies this`messages
      ensures messages == CancelMessage(old(messages), mid)
    {
      messages := CancelMessage(messages, mid);
    }

    method DeleteQueues(mid: Id, lo: Time, hi: Time)
      modifies this`queues
      ensures queues == CancelQueues(old(queues), mid, lo, hi)
    {
      queues := CancelQueues(queues, mid, lo, hi);
    }

    method DeleteTargets(mid: Id, lo: Time, hi: Time)
      modifies this`targets
      ensures targets == CancelTargets(old(targets), mid, lo, hi)
    {
      targets := CancelTargets(targets, mid, lo, hi);
    }

    method InsertEvent(e: Event)
      modifies this`events
      ensures events == old(events) + multiset{e}
    {
      events := events + multiset{e};
    }
  }
}
