/** Each transaction of the pipeline keeps the store's invariant and never changes a canceled row. */
module PipelineTransactions {
  import opened Entities
  import opened Tables
  import opened Snowflake
  import opened Publish
  import opened Pipeline
  import opened PipelineInvariant

  ghost predicate SameRows(a: Store, b: Store) {
    a.messages.Keys == b.messages.Keys && a.queues.Keys == b.queues.Keys && a.targets.Keys == b.targets.Keys
  }

  lemma UpdatePopulated(a: Store, b: Store)
    requires Populated(a) && SameRows(a, b) && Evolves(a, b)
    ensures Populated(b)
  {
    forall m | m in b.messages ensures HasQueue(b, m) {
      assert HasQueue(a, m);
      var q :| q in a.queues && a.queues[q].messageId == m;
      assert b.queues[q].messageId == m;
    }
    forall q | q in b.queues ensures HasTargetRow(b, q) {
      assert HasTargetRow(a, q);
      var t :| t in a.targets && a.targets[t].queueId == q;
      assert b.targets[t].queueId == q;
    }
  }

  lemma BatchUpdateEvolves(db: Store, qids: set<Id>, mids: set<Id>, st: Status, traces: map<Id, Id>)
    requires st == Process || st == Enqueued
    ensures Evolves(db, BatchUpdate(db, qids, mids, st, traces)) && SameRows(db, BatchUpdate(db, qids, mids, st, traces))
  {
  }

  lemma BatchUpdateTarget(db: Store, qids: set<Id>, mids: set<Id>, st: Status, traces: map<Id, Id>, t: Id)
    requires Linked(db) && t in db.targets
    requires TargetOk(db.targets[t], QueueOf(db, t), MessageOf(db, db.targets[t].queueId))
    requires QueueOk(QueueOf(db, t), MessageOf(db, db.targets[t].queueId))
    requires st == Process || st == Enqueued
    requires traces == map[] || traces.Keys == qids
    ensures var db' := BatchUpdate(db, qids, mids, st, traces);
            Linked(db') && TargetOk(db'.targets[t], QueueOf(db', t), MessageOf(db', db'.targets[t].queueId))
  {
  }

  /** The invariant survives the batch updates: whole queues, and every scheduled message among them. */
  lemma BatchUpdateKeeps(db: Store, qids: set<Id>, mids: set<Id>, st: Status, traces: map<Id, Id>)
    requires RowsInv(db)
    requires st == Process || st == Enqueued
    requires traces == map[] || traces.Keys == qids
    requires forall q :: q in qids && Known(db, q) && MessageOf(db, q).status == Scheduled ==>
            db.queues[q].messageId in mids
    ensures RowsInv(BatchUpdate(db, qids, mids, st, traces))
  {
    var db' := BatchUpdate(db, qids, mids, st, traces);
    forall q | q in db'.queues ensures QueueOk(db'.queues[q], MessageOf(db', q)) {
      assert QueueOk(db.queues[q], MessageOf(db, q));
    }
    forall t | t in db'.targets ensures TargetOk(db'.targets[t], QueueOf(db', t), MessageOf(db', db'.targets[t].queueId)) {
      BatchUpdateTarget(db, qids, mids, st, traces, t);
    }
  }

  lemma CancelEvolves(db: Store, mid: Id)
    ensures Evolves(db, CancelTx(db, mid, TimeOf(mid) - HOUR, TimeOf(mid) + HOUR))
    ensures SameRows(db, CancelTx(db, mid, TimeOf(mid) - HOUR, TimeOf(mid) + HOUR))
    ensures KeepsHandled(db, CancelTx(db, mid, TimeOf(mid) - HOUR, TimeOf(mid) + HOUR))
  {
  }

  /** The invariant survives cancellation. */
  lemma CancelKeeps(db: Store, mid: Id)
    requires RowsInv(db)
    ensures RowsInv(CancelTx(db, mid, TimeOf(mid) - HOUR, TimeOf(mid) + HOUR))
  {
  }

  ghost predicate Started(db: Store, qid: Id)
  {
    Known(db, qid) && MessageOf(db, qid).status != Scheduled
  }

  lemma SendingEvolves(db: Store, qid: Id, from: Time)
    ensures Evolves(db, SendingTx(db, qid, from)) && SameRows(db, SendingTx(db, qid, from))
    ensures KeepsHandled(db, SendingTx(db, qid, from))
  {
  }

  /** The invariant survives marking a queue as sending. */
  lemma SendingKeeps(db: Store, qid: Id, from: Time)
    requires RowsInv(db)
    requires Started(db, qid)
    ensures RowsInv(SendingTx(db, qid, from))
  {
  }

  lemma FailEvolves(db: Store, qid: Id, mid: Id, events: multiset<Event>)
    ensures Evolves(db, FailTx(db, qid, mid, events)) && SameRows(db, FailTx(db, qid, mid, events))
    ensures KeepsHandled(db, FailTx(db, qid, mid, events))
  {
  }

  /** The invariant survives the failure transaction. */
  lemma FailKeeps(db: Store, qid: Id, mid: Id, events: multiset<Event>)
    requires RowsInv(db)
    requires Started(db, qid) && mid == db.queues[qid].messageId
    ensures RowsInv(FailTx(db, qid, mid, events))
  {
  }

  lemma SmsSuccessEvolves(db: Store, qid: Id, mid: Id, answer: map<Section, Status>)
    ensures Evolves(db, SmsSuccessTx(db, qid, mid, answer)) && SameRows(db, SmsSuccessTx(db, qid, mid, answer))
    ensures KeepsHandled(db, SmsSuccessTx(db, qid, mid, answer))
  {
  }

  lemma SmsSuccessTarget(db: Store, qid: Id, mid: Id, answer: map<Section, Status>, t: Id)
    requires Linked(db) && t in db.targets
    requires TargetOk(db.targets[t], QueueOf(db, t), MessageOf(db, db.targets[t].queueId))
    requires QueueOk(QueueOf(db, t), MessageOf(db, db.targets[t].queueId))
    requires TargetSection(t) in answer ==> answer[TargetSection(t)] in {Sent, Failed, Blank} && db.targets[t].queueId == qid
    requires db.targets[t].queueId == qid ==> MessageOf(db, qid).mtype == Sms && Handled(db.queues[qid].status)
    ensures var db' := SmsSuccessTx(db, qid, mid, answer);
            Linked(db') && TargetOk(db'.targets[t], QueueOf(db', t), MessageOf(db', db'.targets[t].queueId))
  {
  }

  /** The invariant survives the SMS success transaction. */
  lemma SmsSuccessKeeps(db: Store, qid: Id, mid: Id, answer: map<Section, Status>)
    requires RowsInv(db)
    requires Started(db, qid) && mid == db.queues[qid].messageId
    requires MessageOf(db, qid).mtype == Sms && Handled(db.queues[qid].status)
    requires forall n :: n in answer ==> answer[n] in {Sent, Failed, Blank}
    requires forall t :: t in db.targets && TargetSection(t) in answer ==> db.targets[t].queueId == qid
    ensures RowsInv(SmsSuccessTx(db, qid, mid, answer))
  {
    var db' := SmsSuccessTx(db, qid, mid, answer);
    forall q | q in db'.queues ensures QueueOk(db'.queues[q], MessageOf(db', q)) {
      assert QueueOk(db.queues[q], MessageOf(db, q));
    }
    forall t | t in db'.targets ensures TargetOk(db'.targets[t], QueueOf(db', t), MessageOf(db', db'.targets[t].queueId)) {
      SmsSuccessTarget(db, qid, mid, answer, t);
    }
  }

  lemma MailSuccessEvolves(db: Store, qid: Id, mid: Id, ids: set<Id>, trace: string)
    ensures Evolves(db, MailSuccessTx(db, qid, mid, ids, trace)) && SameRows(db, MailSuccessTx(db, qid, mid, ids, trace))
    ensures KeepsHandled(db, MailSuccessTx(db, qid, mid, ids, trace))
  {
  }

  /** The invariant survives the mail success transaction. */
  lemma MailSuccessKeeps(db: Store, qid: Id, mid: Id, ids: set<Id>, trace: string)
    requires RowsInv(db)
    requires Started(db, qid) && mid == db.queues[qid].messageId
    requires MessageOf(db, qid).mtype == Mail
    requires forall t :: t in ids <==> t in db.targets && db.targets[t].queueId == qid
    ensures RowsInv(MailSuccessTx(db, qid, mid, ids, trace))
  {
  }

  /** What a fresh message with its batch adds: new rows only, which refer to each other only. */
  ghost predicate Adds(a: Store, b: Store, mid: Id, m: Message, c: Common) {
    && b.messages == a.messages[mid := m]
    && (forall q :: q in a.queues ==> q in b.queues && b.queues[q] == a.queues[q])
    && (forall t :: t in a.targets ==> t in b.targets && b.targets[t] == a.targets[t])
    && (forall q :: q in b.queues && q !in a.queues ==> b.queues[q] == Queue(mid, Pending, c.at, false))
    && (forall t :: t in b.targets && t !in a.targets ==> AddedTarget(a, b, mid, c, b.targets[t]))
  }

  predicate AddedTarget(a: Store, b: Store, mid: Id, c: Common, t: Target) {
    && t.queueId in b.queues && t.queueId !in a.queues
    && t.messageId == mid && t.createdAt == c.at && t.status == Pending && !t.deleted
  }

  lemma NewQueueRow(b: Batch, c: Common, q: Id)
    requires IsBatch(b, c) && q in RowMap(b.queues)
    ensures RowMap(b.queues)[q] == Queue(c.messageId, Pending, c.at, false)
    ensures exists i :: 0 <= i < |b.queues| && b.queues[i].0 == q
    ensures exists j :: 0 <= j < |b.targets| && b.targets[j].1.queueId == q
  {
  }

  lemma NewTargetRow(b: Batch, c: Common, t: Id)
    requires IsBatch(b, c) && t in RowMap(b.targets)
    ensures var row := RowMap(b.targets)[t];
            && row.queueId in RowMap(b.queues)
            && row.messageId == c.messageId && row.createdAt == c.at && row.status == Pending && !row.deleted
    ensures exists j :: 0 <= j < |b.targets| && b.targets[j].0 == t
  {
  }

  lemma CreateAdds(db: Store, mid: Id, m: Message, b: Batch, c: Common)
    requires IsBatch(b, c) && c.messageId == mid && Fresh(db, mid, b)
    ensures Adds(db, CreateTx(db, mid, m, b), mid, m, c)
  {
    var db' := CreateTx(db, mid, m, b);
    forall q | q in RowMap(b.queues) ensures q !in db.queues && db'.queues[q] == Queue(mid, Pending, c.at, false) {
      NewQueueRow(b, c, q);
    }
    forall t | t in RowMap(b.targets) ensures t !in db.targets && AddedTarget(db, db', mid, c, db'.targets[t]) {
      NewTargetRow(b, c, t);
    }
  }

  lemma CreatePopulated(db: Store, mid: Id, m: Message, b: Batch, c: Common)
    requires IsBatch(b, c) && c.messageId == mid && Populated(db)
    requires Adds(db, CreateTx(db, mid, m, b), mid, m, c)
    ensures Populated(CreateTx(db, mid, m, b))
  {
    var db' := CreateTx(db, mid, m, b);
    forall x | x in db'.messages ensures HasQueue(db', x) {
      if x == mid {
        RowMapHas(b.queues, 0);
        assert db'.queues[b.queues[0].0].messageId == mid;
      } else {
        assert HasQueue(db, x);
        var q :| q in db.queues && db.queues[q].messageId == x;
        assert db'.queues[q].messageId == x;
      }
    }
    forall q | q in db'.queues ensures HasTargetRow(db', q) {
      if q in db.queues {
        assert HasTargetRow(db, q);
        var t :| t in db.targets && db.targets[t].queueId == q;
        assert db'.targets[t].queueId == q;
      } else {
        NewQueueRow(b, c, q);
        var j :| 0 <= j < |b.targets| && b.targets[j].1.queueId == q;
        RowMapHas(b.targets, j);
        assert db'.targets[b.targets[j].0].queueId == q;
      }
    }
  }

  lemma AddsEvolves(a: Store, b: Store, mid: Id, m: Message, c: Common)
    requires Adds(a, b, mid, m, c) && mid !in a.messages
    ensures Evolves(a, b)
  {
  }

  /** The invariant survives a new message. */
  lemma AddsKeeps(a: Store, b: Store, mid: Id, m: Message, c: Common)
    requires RowsInv(a) && Adds(a, b, mid, m, c) && mid !in a.messages
    requires m.status == (if m.scheduledAt.Some? then Scheduled else Pending) && !m.deleted
    requires InWindow(m.createdAt, mid) && InWindow(c.at, mid)
    ensures RowsInv(b)
  {
  }
}
