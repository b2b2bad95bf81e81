/** The two workers' handlers, statement by statement, and the pipeline steps they amount to. */
module Handlers {
  import opened Entities
  import opened Tables
  import opened Snowflake
  import opened AesGcm
  import opened Iteration
  import opened MitakeSms
  import opened Requests
  import opened Database
  import opened Pipeline

  /** What a handler call comes to for the consumer; `Exited` is the whole process gone. */
  datatype HandleResult = Handled | Errored | Exited

  /** What a record holds: no JSON, a queue whose id is no number, or a queue with its id. */
  datatype Body = NoJson | NoNumber | ForQueue(id: Id)

  /** A queue with its targets, its message's id and text. */
  datatype LoadedQueue = LoadedQueue(id: Id, messageId: Id, targets: seq<Row>, data: Bytes)

  /** `Find` leaves the queue empty when no live row passes the time filter. */
  datatype Fetching = FetchFailed | EmptyQueue | Found(queue: LoadedQueue)

  ghost predicate LoadsQueue(s: Store, q: Id, x: LoadedQueue) {
    && Visible(s, q) && x.id == q && x.messageId == s.queues[q].messageId
    && Loads(s.targets, LiveTargets(s, q), x.targets)
    && x.data == TextFor(s.messages, x.messageId)
  }

  /** A canceled message preloads as an empty one. */
  function TextFor(messages: map<Id, Message>, mid: Id): Bytes {
    if mid in messages && !messages[mid].deleted then messages[mid].data else []
  }

  function LiveRows(targets: map<Id, Target>, q: Id): map<Id, Target> {
    map t | t in targets && targets[t].queueId == q && !targets[t].deleted :: targets[t]
  }

  /** The preload yields the live targets of a queue in any order. */
  method PreloadTargets(db: Db, q: Id) returns (rows: seq<Row>)
    ensures Loads(db.targets, LiveTargets(db.Contents(), q), rows)
    ensures forall i :: 0 <= i < |rows| ==> rows[i].1.queueId == q && !rows[i].1.deleted
  {
    var live := LiveRows(db.targets, q);
    var order := Range(live);
    rows := [];
    for i := 0 to |order|
      invariant |rows| == i && forall k :: 0 <= k < i ==> rows[k] == (order[k], db.targets[order[k]])
    {
      rows := rows + [(order[i], live[order[i]])];
    }
    forall t | t in LiveTargets(db.Contents(), q) ensures exists i :: 0 <= i < |rows| && rows[i].0 == t {
      assert t in order;
      var i :| 0 <= i < |order| && order[i] == t;
      assert rows[i].0 == t;
    }
  }

  method FetchQueueData(db: Db, q: Id, fails: bool) returns (r: Fetching)
    ensures r.FetchFailed? <==> fails
    ensures r.EmptyQueue? <==> !fails && !Visible(db.Contents(), q)
    ensures r.Found? ==> LoadsQueue(db.Contents(), q, r.queue)
  {
    if fails {
      return FetchFailed;
    }
    var startAt := TimeOf(q);
    if q !in db.queues || db.queues[q].deleted || db.queues[q].createdAt < startAt {
      return EmptyQueue;
    }
    var rows := PreloadTargets(db, q);
    var mid := db.queues[q].messageId;
    r := Found(LoadedQueue(q, mid, rows, TextFor(db.messages, mid)));
  }

  method UpdateProcessingStatus(db: Db, q: Id, faults: set<nat>) returns (ok: bool)
    modifies db
    ensures ok <==> Passes(2, faults)
    ensures db.Contents() == if ok then SendingTx(old(db.Contents()), q, TimeOf(q)) else old(db.Contents())
  {
    var start, startAt := db.Contents(), TimeOf(q);
    if 0 !in faults {
      db.MarkTargets(q, startAt);
      if 1 !in faults {
        db.MarkQueue(q, startAt);
        if 2 !in faults {
          return true;
        }
      }
    }
    db.Rollback(start);
    ok := false;
  }

  /**
    The failure path without a response: its transaction may not begin, or an update in it may fail; else the
    missing queue or, after the updates, the missing response ends the process, and nothing of it stays.
   */
  method FailWithoutResponse(db: Db, queue: Option<LoadedQueue>, faults: set<nat>) returns (r: HandleResult)
    modifies db
    ensures db.Contents() == old(db.Contents()) && r == GivenUp(queue.Some?, faults)
  {
    if 0 in faults {
      return Errored;
    }
    if queue.None? {
      return Exited;
    }
    var start := db.Contents();
    if 1 !in faults {
      db.UpdateQueues({queue.value.id}, Failed);
      if 2 !in faults {
        db.UpdateMessages({queue.value.messageId}, Failed);
        if 3 !in faults {
          db.UpdateTargets({queue.value.id}, Failed);
          db.Rollback(start);
          return Exited;
        }
      }
    }
    db.Rollback(start);
    r := Errored;
  }

  /** What that comes to for the consumer. */
  ghost function GivenUp(found: bool, faults: set<nat>): HandleResult {
    if Between(0, if found then 4 else 1, faults) then Exited else Errored
  }

  /******* The loop over the provider's rows *******/

  function RowEvent(row: SmsRow, st: Status, q: Id): Event { Event(Mitake, st, SectionTrace(row.section), q) }

  /** A section that names no target touches none. */
  function ApplyRow(ts: map<Id, Target>, row: SmsRow): map<Id, Target> {
    if row.section.TargetSection? then StampTargets(ts, {row.section.id}, row.status, SectionTrace(row.section)) else ts
  }

  /** The targets after the loop has gone through `rows`, in their order. */
  function RowFold(ts: map<Id, Target>, rows: seq<SmsRow>): map<Id, Target> {
    if rows == [] then ts
    else ApplyRow(RowFold(ts, rows[..|rows| - 1]), rows[|rows| - 1])
  }

  function EventFold(rows: seq<SmsRow>, st: Status, q: Id): multiset<Event> {
    if rows == [] then multiset{}
    else EventFold(rows[..|rows| - 1], st, q) + multiset{RowEvent(rows[|rows| - 1], st, q)}
  }

  function RowMapOf(rows: seq<SmsRow>): map<Section, Status> {
    if rows == [] then map[]
    else RowMapOf(rows[..|rows| - 1])[rows[|rows| - 1].section := rows[|rows| - 1].status]
  }

  ghost predicate DistinctSections(rows: seq<SmsRow>) {
    forall i, j :: 0 <= i < j < |rows| ==> rows[i].section != rows[j].section
  }

  lemma {:induction false} RowMapKeys(rows: seq<SmsRow>, n: Section)
    ensures n in RowMapOf(rows) <==> exists i :: 0 <= i < |rows| && rows[i].section == n
  {
    if rows != [] {
      var init := rows[..|rows| - 1];
      RowMapKeys(init, n);
      if n in RowMapOf(init) {
        var i :| 0 <= i < |init| && init[i].section == n;
        assert rows[i].section == n;
      }
      if exists i :: 0 <= i < |rows| && rows[i].section == n {
        var i :| 0 <= i < |rows| && rows[i].section == n;
        if i < |init| { assert init[i].section == n; }
      }
    }
  }

  lemma {:induction false} RowMapValues(rows: seq<SmsRow>, i: nat)
    requires DistinctSections(rows) && i < |rows|
    ensures rows[i].section in RowMapOf(rows) && RowMapOf(rows)[rows[i].section] == rows[i].status
  {
    if i < |rows| - 1 { RowMapValues(rows[..|rows| - 1], i); }
  }

  /** Any listing of the sections is the same map. */
  lemma ListingIsMap(rows: seq<SmsRow>, m: map<Section, Status>)
    requires ListsRows(rows, m)
    ensures RowMapOf(rows) == m
  {
    forall n ensures n in RowMapOf(rows) <==> n in m {
      RowMapKeys(rows, n);
      if n in m {
        var i :| 0 <= i < |rows| && rows[i] == SmsRow(n, m[n]);
        assert rows[i].section == n;
      }
    }
    forall n | n in m ensures RowMapOf(rows)[n] == m[n] {
      var i :| 0 <= i < |rows| && rows[i] == SmsRow(n, m[n]);
      RowMapValues(rows, i);
    }
  }

  lemma EventMore(rows: seq<SmsRow>, i: nat, st: Status, q: Id)
    requires i < |rows|
    ensures EventFold(rows[..i + 1], st, q) == EventFold(rows[..i], st, q) + multiset{RowEvent(rows[i], st, q)}
  {
    assert rows[..i + 1][..i] == rows[..i];
  }

  lemma FoldMore(ts: map<Id, Target>, rows: seq<SmsRow>, i: nat)
    requires i < |rows|
    ensures RowFold(ts, rows[..i + 1]) == ApplyRow(RowFold(ts, rows[..i]), rows[i])
  {
    assert rows[..i + 1][..i] == rows[..i];
  }

  lemma AnswerMore(ts: map<Id, Target>, m: map<Section, Status>, n: Section, st: Status)
    requires n !in m
    ensures AnswerTargets(ts, m[n := st]) == ApplyRow(AnswerTargets(ts, m), SmsRow(n, st))
  {
  }

  lemma EventsMore(sections: set<Section>, n: Section, st: Status, q: Id)
    requires n !in sections
    ensures SectionEvents(sections + {n}, st, q) ==
            SectionEvents(sections, st, q) + multiset{Event(Mitake, st, SectionTrace(n), q)}
  {
  }

  /**
    The SMS result does not depend on the order in which the sections come: every order leaves the
    same targets and the same events.
   */
  lemma {:induction false} RowOrderFree(ts: map<Id, Target>, rows: seq<SmsRow>, st: Status, q: Id)
    requires DistinctSections(rows)
    ensures RowFold(ts, rows) == AnswerTargets(ts, RowMapOf(rows))
    ensures EventFold(rows, st, q) == SectionEvents(RowMapOf(rows).Keys, st, q)
  {
    if rows == [] {
      assert RowMapOf(rows) == map[];
    } else {
      var init, row := rows[..|rows| - 1], rows[|rows| - 1];
      RowOrderFree(ts, init, st, q);
      RowMapKeys(init, row.section);
      AnswerMore(ts, RowMapOf(init), row.section, row.status);
      EventsMore(RowMapOf(init).Keys, row.section, st, q);
      assert RowMapOf(rows).Keys == RowMapOf(init).Keys + {row.section};
    }
  }

  /******* SMS *******/

  /** What happens around one SMS record: the lookup, the first transaction, the provider, the last transaction. */
  datatype SmsEnv = SmsEnv(fetchFails: bool, marking: set<nat>, fallback: set<nat>, reply: Reply, concluding: set<nat>)

  class SmsHandler {
    const db: Db
    const aead: Aead

    constructor (db: Db, aead: Aead)
      ensures this.db == db && this.aead == aead
    {
      this.db, this.aead := db, aead;
    }

    /** The loop of the failure path; an insert that fails aborts the transaction like any other statement. */
    method InsertFailures(q: Id, rows: seq<SmsRow>, faults: set<nat>) returns (ok: bool)
      modifies db`events
      ensures ok <==> Between(3, 3 + |rows|, faults)
      ensures ok ==> db.events == old(db.events) + EventFold(rows, Failed, q)
    {
      ghost var events0 := db.events;
      for i := 0 to |rows|
        invariant Between(3, 3 + i, faults)
        invariant db.events == events0 + EventFold(rows[..i], Failed, q)
      {
        if 3 + i in faults {
          return false;
        }
        EventMore(rows, i, Failed, q);
        db.InsertEvent(RowEvent(rows[i], Failed, q));
      }
      assert rows[..|rows|] == rows;
      ok := true;
    }

    method CreateFailureEventAndUpdateStatus(q: Id, mid: Id, rows: seq<SmsRow>, faults: set<nat>) returns (ok: bool)
      modifies db
      ensures ok <==> Passes(3 + |rows|, faults)
      ensures db.Contents() ==
              if ok then FailTx(old(db.Contents()), q, mid, EventFold(rows, Failed, q)) else old(db.Contents())
    {
      var start := db.Contents();
      PassesParts(3, 3 + |rows|, faults);
      if 0 in faults || 1 in faults || 2 in faults {
        return false;
      }
      db.UpdateQueues({q}, Failed);
      db.UpdateMessages({mid}, Failed);
      db.UpdateTargets({q}, Failed);
      ok := InsertFailures(q, rows, faults);
      if !ok || 3 + |rows| in faults {
        db.Rollback(start);
        ok := false;
      }
    }

    /** An event and, when the row's section names a target, that target's status: statements n and n + 1. */
    method InsertAnswer(q: Id, row: SmsRow, n: nat, faults: set<nat>) returns (ok: bool)
      modifies db`events, db`targets
      ensures ok <==> Between(n, n + 2, faults)
      ensures ok ==> db.events == old(db.events) + multiset{RowEvent(row, Sent, q)}
      ensures ok ==> db.targets == ApplyRow(old(db.targets), row)
    {
      if n in faults || n + 1 in faults {
        return false;
      }
      db.InsertEvent(RowEvent(row, Sent, q));
      if row.section.TargetSection? {
        db.UpdateTarget(row.section.id, row.status, SectionTrace(row.section));
      }
      ok := true;
    }

    /** The loop of the success path. */
    method InsertAnswers(q: Id, rows: seq<SmsRow>, faults: set<nat>) returns (ok: bool)
      modifies db`events, db`targets
      ensures ok <==> Between(2, 2 + 2 * |rows|, faults)
      ensures ok ==> db.events == old(db.events) + EventFold(rows, Sent, q)
      ensures ok ==> db.targets == RowFold(old(db.targets), rows)
    {
      ghost var ts0, events0 := db.targets, db.events;
      var n: nat := 2;
      for i := 0 to |rows|
        invariant n == 2 + 2 * i && Between(2, n, faults)
        invariant db.targets == RowFold(ts0, rows[..i])
        invariant db.events == events0 + EventFold(rows[..i], Sent, q)
      {
        BetweenMore(2, n, 2 + 2 * |rows|, faults);
        BetweenMore(n, n + 2, 2 + 2 * |rows|, faults);
        BetweenMore(2, n, n + 2, faults);
        EventMore(rows, i, Sent, q);
        FoldMore(ts0, rows, i);
        ok := InsertAnswer(q, rows[i], n, faults);
        if !ok {
          return;
        }
        n := n + 2;
      }
      assert rows[..|rows|] == rows;
      ok := true;
    }

    method CreateSuccessEventAndUpdateStatus(q: Id, mid: Id, rows: seq<SmsRow>, faults: set<nat>) returns (ok: bool)
      modifies db
      ensures ok <==> Passes(2 + 2 * |rows|, faults)
      ensures db.Contents() == if ok then RowsTx(old(db.Contents()), q, mid, rows) else old(db.Contents())
    {
      var start := db.Contents();
      PassesParts(2, 2 + 2 * |rows|, faults);
      if 0 in faults || 1 in faults {
        return false;
      }
      db.UpdateQueues({q}, Success);
      db.UpdateMessages({mid}, Sent);
      ok := InsertAnswers(q, rows, faults);
      if !ok || 2 + 2 * |rows| in faults {
        db.Rollback(start);
        ok := false;
      }
    }

    method HandleSendResult(queue: LoadedQueue, response: SmsResponse, faults: set<nat>, ghost w: Worker)
        returns (r: HandleResult)
      requires w.stage.Answered? && w.stage.answer.SmsAnswer? && w.queueId == queue.id && w.messageId == queue.messageId
      requires ListsRows(response.rows, w.stage.answer.rows) && response.status == Verdict(w.stage.answer.rows)
      modifies db
      ensures var ending := SmsEnding(w.stage.answer.rows, faults);
              db.Contents() == Concluded(old(db.Contents()), w, ending) && r == ResultOf(ending)
    {
      SmsConcludes(db.Contents(), queue.id, queue.messageId, response.rows, w.stage.answer.rows);
      var ok;
      if response.status != Sent {
        ok := CreateFailureEventAndUpdateStatus(queue.id, queue.messageId, response.rows, faults);
      } else {
        ok := CreateSuccessEventAndUpdateStatus(queue.id, queue.messageId, response.rows, faults);
      }
      r := if ok then Handled else Errored;
    }

    /**
      One record.  A body that is no JSON is an error, an id that is no number or an empty lookup ends the
      process; a failed lookup or first transaction does one of both.  None of these calls the provider.
     */
    method Handle(record: Body, env: SmsEnv) returns (r: HandleResult, posted: Option<Bytes>, ghost rows: seq<Row>)
      modifies db
      ensures !record.ForQueue? ==> db.Contents() == old(db.Contents()) && posted.None?
      ensures !record.ForQueue? ==> r == if record.NoJson? then Errored else Exited
      ensures record.ForQueue? ==> SmsOutcome(old(db.Contents()), db.Contents(), record.id, env, r)
      ensures posted.Some? <==>
                record.ForQueue? && !env.fetchFails && Visible(old(db.Contents()), record.id) && Passes(2, env.marking)
      ensures posted.Some? ==>
                && Loads(old(db.targets), LiveTargets(old(db.Contents()), record.id), rows)
                && posted.value ==
                   Payload(SmsRequest(aead, rows), TextFor(old(db.messages), old(db.queues)[record.id].messageId))
    {
      posted, rows := None, [];
      if record.NoJson? {
        return Errored, None, [];
      }
      if record.NoNumber? {
        return Exited, None, [];
      }
      var fetched := FetchQueueData(db, record.id, env.fetchFails);
      if fetched.FetchFailed? {
        r := FailWithoutResponse(db, None, env.fallback);
        return;
      }
      if fetched.EmptyQueue? {
        return Exited, None, [];
      }
      var queue := fetched.queue;
      var marked := UpdateProcessingStatus(db, queue.id, env.marking);
      if !marked {
        r := FailWithoutResponse(db, Some(queue), env.fallback);
        return;
      }
      var _, payload, response := SendSms(aead, queue.targets, queue.data, env.reply);
      posted, rows := Some(payload), queue.targets;
      r := HandleSendResult(queue, response, env.concluding,
                            AnsweredWorker(old(db.Contents()), queue.id, NotifySms, SmsAnswer(StatusesOf(env.reply))));
    }
  }

  /** The success transaction, row by row. */
  function RowsTx(s: Store, q: Id, mid: Id, rows: seq<SmsRow>): Store {
    Store(SetMessageStatus(s.messages, {mid}, Sent), SetQueueStatus(s.queues, {q}, Success),
          RowFold(s.targets, rows), s.events + EventFold(rows, Sent, q))
  }

  /** What the loops over the rows come to, in terms of the sections alone. */
  lemma SmsConcludes(s: Store, q: Id, mid: Id, rows: seq<SmsRow>, m: map<Section, Status>)
    requires ListsRows(rows, m)
    ensures |rows| == |m|
    ensures FailTx(s, q, mid, EventFold(rows, Failed, q)) == FailTx(s, q, mid, SectionEvents(m.Keys, Failed, q))
    ensures RowsTx(s, q, mid, rows) == SmsSuccessTx(s, q, mid, m)
  {
    ListingIsMap(rows, m);
    RowOrderFree(s.targets, rows, Sent, q);
    RowOrderFree(s.targets, rows, Failed, q);
    RowMapSize(rows);
  }

  lemma {:induction false} RowMapSize(rows: seq<SmsRow>)
    requires DistinctSections(rows)
    ensures |RowMapOf(rows)| == |rows|
  {
    if rows != [] {
      var init, row := rows[..|rows| - 1], rows[|rows| - 1];
      RowMapSize(init);
      RowMapKeys(init, row.section);
      assert RowMapOf(rows).Keys == RowMapOf(init).Keys + {row.section};
    }
  }

  /** The worker as it stands once the provider has answered. */
  function AnsweredWorker(s: Store, q: Id, topic: Topic, answer: Answer): Worker
    requires q in s.queues
  {
    Worker(topic, q, s.queues[q].messageId, LiveTargets(s, q), Answered(answer))
  }

  /** What the consumer is told. */
  function ResultOf(ending: Ending): HandleResult { if ending == Committed then Handled else Errored }

  /** How many statements the last transaction has. */
  function SmsStatements(m: map<Section, Status>): nat { if Verdict(m) == Sent then 2 + 2 * |m| else 3 + |m| }

  ghost function SmsEnding(m: map<Section, Status>, faults: set<nat>): Ending {
    if Passes(SmsStatements(m), faults) then Committed else RolledBack
  }

  ghost predicate SmsOutcome(before: Store, after: Store, q: Id, env: SmsEnv, r: HandleResult) {
    var m := StatusesOf(env.reply);
    if env.fetchFails then r == GivenUp(false, env.fallback) && after == before
    else if !Visible(before, q) then r.Exited? && after == before
    else if !Passes(2, env.marking) then r == GivenUp(true, env.fallback) && after == before
    else
      var ending := SmsEnding(m, env.concluding);
      && after == Concluded(SendingTx(before, q, TimeOf(q)), AnsweredWorker(before, q, NotifySms, SmsAnswer(m)), ending)
      && r == ResultOf(ending)
  }

  /******* Mail *******/

  datatype MailEnv = MailEnv(
    fetchFails: bool, marking: set<nat>, fallback: set<nat>, sent: bool, trace: string, concluding: set<nat>)

  function RowIds(rows: seq<Row>): set<Id> { set i | 0 <= i < |rows| :: rows[i].0 }

  lemma StampMore(ts: map<Id, Target>, rows: seq<Row>, i: nat, trace: ProviderTrace)
    requires i < |rows|
    ensures StampTargets(StampTargets(ts, RowIds(rows[..i]), Sent, trace), {rows[i].0}, Sent, trace)
            == StampTargets(ts, RowIds(rows[..i + 1]), Sent, trace)
  {
  }

  class MailHandler {
    const db: Db
    const aead: Aead

    constructor (db: Db, aead: Aead)
      ensures this.db == db && this.aead == aead
    {
      this.db, this.aead := db, aead;
    }

    /** The event goes through another connection: it stays even when the commit then fails. */
    method CreateFailureEventAndUpdateStatus(q: Id, mid: Id, trace: string, faults: set<nat>) returns (ok: bool)
      modifies db
      ensures ok <==> Passes(4, faults)
      ensures var s, e := old(db.Contents()), multiset{Event(Sendgrid, Failed, HeaderTrace(trace), q)};
              db.Contents() ==
              if ok then FailTx(s, q, mid, e)
              else if Between(0, 4, faults) then s.(events := s.events + e)
              else s
    {
      var start := db.Contents();
      if 0 in faults || 1 in faults || 2 in faults {
        return false;
      }
      db.UpdateQueues({q}, Failed);
      db.UpdateMessages({mid}, Failed);
      db.UpdateTargets({q}, Failed);
      if 3 in faults {
        db.Rollback(start);
        return false;
      }
      db.InsertEvent(Event(Sendgrid, Failed, HeaderTrace(trace), q));
      if 4 in faults {
        db.Rollback(start.(events := db.events));
        return false;
      }
      ok := true;
    }

    /** Every loaded target takes the batch's status and trace. */
    method StampRows(rows: seq<Row>, trace: ProviderTrace, faults: set<nat>) returns (ok: bool)
      modifies db`targets
      ensures ok <==> Between(3, 3 + |rows|, faults)
      ensures ok ==> db.targets == StampTargets(old(db.targets), RowIds(rows), Sent, trace)
    {
      assert StampTargets(db.targets, RowIds(rows[..0]), Sent, trace) == db.targets;
      for i := 0 to |rows|
        invariant Between(3, 3 + i, faults)
        invariant db.targets == StampTargets(old(db.targets), RowIds(rows[..i]), Sent, trace)
      {
        if 3 + i in faults {
          return false;
        }
        StampMore(old(db.targets), rows, i, trace);
        db.UpdateTarget(rows[i].0, Sent, trace);
      }
      assert rows[..|rows|] == rows;
      ok := true;
    }

    method CreateSuccessEventAndUpdateStatus(q: Id, mid: Id, rows: seq<Row>, trace: string, faults: set<nat>)
        returns (ok: bool)
      modifies db
      ensures ok <==> Passes(3 + |rows|, faults)
      ensures db.Contents() ==
              if ok then MailSuccessTx(old(db.Contents()), q, mid, RowIds(rows), trace) else old(db.Contents())
    {
      var start := db.Contents();
      if 0 in faults || 1 in faults || 2 in faults {
        return false;
      }
      db.UpdateQueues({q}, Success);
      db.UpdateMessages({mid}, Sent);
      db.InsertEvent(Event(Sendgrid, Sent, HeaderTrace(trace), q));
      ok := StampRows(rows, HeaderTrace(trace), faults);
      if !ok || 3 + |rows| in faults {
        db.Rollback(start);
        ok := false;
      }
    }

    method HandleSendResult(queue: LoadedQueue, sent: bool, trace: string, faults: set<nat>, ghost w: Worker)
        returns (r: HandleResult)
      requires w.stage == Answered(MailAnswer(sent, trace)) && w.queueId == queue.id && w.messageId == queue.messageId
      requires w.targets == RowIds(queue.targets) && |w.targets| == |queue.targets|
      modifies db
      ensures var ending := MailEnding(sent, |w.targets|, faults);
              db.Contents() == Concluded(old(db.Contents()), w, ending) && r == ResultOf(ending)
    {
      var ok;
      if !sent {
        ok := CreateFailureEventAndUpdateStatus(queue.id, queue.messageId, trace, faults);
      } else {
        ok := CreateSuccessEventAndUpdateStatus(queue.id, queue.messageId, queue.targets, trace, faults);
      }
      r := if ok then Handled else Errored;
    }

    method Handle(record: Body, env: MailEnv) returns (r: HandleResult, posted: Option<seq<Bytes>>, ghost rows: seq<Row>)
      modifies db
      ensures !record.ForQueue? ==> db.Contents() == old(db.Contents()) && posted.None?
      ensures !record.ForQueue? ==> r == if record.NoJson? then Errored else Exited
      ensures record.ForQueue? ==> MailOutcome(old(db.Contents()), db.Contents(), record.id, env, r)
      ensures posted.Some? <==>
                record.ForQueue? && !env.fetchFails && Visible(old(db.Contents()), record.id) && Passes(2, env.marking)
      ensures posted.Some? ==>
                && Loads(old(db.targets), LiveTargets(old(db.Contents()), record.id), rows)
                && posted.value == MailRequest(aead, rows)
    {
      posted, rows := None, [];
      if record.NoJson? {
        return Errored, None, [];
      }
      if record.NoNumber? {
        return Exited, None, [];
      }
      var fetched := FetchQueueData(db, record.id, env.fetchFails);
      if fetched.FetchFailed? {
        r := FailWithoutResponse(db, None, env.fallback);
        return;
      }
      if fetched.EmptyQueue? {
        return Exited, None, [];
      }
      var queue := fetched.queue;
      var marked := UpdateProcessingStatus(db, queue.id, env.marking);
      if !marked {
        r := FailWithoutResponse(db, Some(queue), env.fallback);
        return;
      }
      var request := SendEmail(aead, queue.targets);
      posted, rows := Some(request), queue.targets;
      LoadedIds(old(db.targets), LiveTargets(old(db.Contents()), queue.id), rows);
      r := HandleSendResult(queue, env.sent, env.trace, env.concluding,
                            AnsweredWorker(old(db.Contents()), queue.id, NotifyMail, MailAnswer(env.sent, env.trace)));
    }
  }

  lemma LoadedIds(targets: map<Id, Target>, ids: set<Id>, rows: seq<Row>)
    requires Loads(targets, ids, rows)
    ensures RowIds(rows) == ids && |rows| == |ids|
  {
    var keys := IdsOf(rows);
    LoadedKeys(targets, ids, rows);
    assert RowIds(rows) == SetOf(keys) by {
      forall t ensures t in RowIds(rows) <==> t in SetOf(keys) {
        if t in RowIds(rows) {
          var i :| 0 <= i < |rows| && rows[i].0 == t;
          assert keys[i] == t;
        }
      }
    }
    DistinctCount(keys);
  }

  /** How the last mail transaction ends. */
  ghost function MailEnding(sent: bool, targets: nat, faults: set<nat>): Ending {
    if Passes(if sent then 3 + targets else 4, faults) then Committed
    else if !sent && Between(0, 4, faults) then RolledBackAfterEvent
    else RolledBack
  }

  ghost predicate MailOutcome(before: Store, after: Store, q: Id, env: MailEnv, r: HandleResult) {
    if env.fetchFails then r == GivenUp(false, env.fallback) && after == before
    else if !Visible(before, q) then r.Exited? && after == before
    else if !Passes(2, env.marking) then r == GivenUp(true, env.fallback) && after == before
    else
      var w := AnsweredWorker(before, q, NotifyMail, MailAnswer(env.sent, env.trace));
      var ending := MailEnding(env.sent, |w.targets|, env.concluding);
      && after == Concluded(SendingTx(before, q, TimeOf(q)), w, ending)
      && r == ResultOf(ending)
  }

  /******* Handlers as runs of the pipeline *******/

  /** The pipeline's steps for one handler call. */
  ghost function HandlerSteps(s: State, wid: nat, offset: nat, fetches: bool, marks: bool, answer: Answer,
                              ending: Ending): seq<Action>
    requires offset < |s.log|
  {
    if !fetches || !Visible(s.db, s.log[offset].record.queueId) then []
    else if !marks then [Fetch(wid, offset), MarkSending(wid, false)]
    else [Fetch(wid, offset), MarkSending(wid, true), Provide(wid, answer), Conclude(wid, ending)]
  }

  lemma RunTwo(s: State, a: Action, b: Action)
    ensures Run(s, [a, b]) == Step(Step(s, a), b)
  {
    assert [a, b][..1] == [a] && [a][..0] == [];
    assert Run(s, [a]) == Step(Run(s, []), a);
  }

  lemma RunFour(s: State, a: Action, b: Action, c: Action, d: Action)
    ensures Run(s, [a, b, c, d]) == Step(Step(Step(Step(s, a), b), c), d)
  {
    RunTwo(s, a, b);
    assert [a, b, c, d][..3] == [a, b, c] && [a, b, c][..2] == [a, b];
    assert Run(s, [a, b, c]) == Step(Run(s, [a, b]), c);
  }

  lemma AfterFetch(s: State, wid: nat, offset: nat, answer: Answer)
    requires offset < |s.log| && wid !in s.workers && Visible(s.db, s.log[offset].record.queueId)
    ensures var w := AnsweredWorker(s.db, s.log[offset].record.queueId, s.log[offset].record.topic, answer);
            Step(s, Fetch(wid, offset)) == s.(workers := s.workers[wid := w.(stage := Fetched)])
  {
  }

  lemma AfterMark(s: State, wid: nat, marks: bool)
    requires wid in s.workers && s.workers[wid].stage == Fetched
    ensures var w := s.workers[wid];
            Step(s, MarkSending(wid, marks)) ==
            if marks then s.(db := SendingTx(s.db, w.queueId, TimeOf(w.queueId)),
                             workers := s.workers[wid := w.(stage := Marked)])
            else s.(workers := s.workers - {wid})
  {
  }

  lemma AfterProvide(s: State, wid: nat, answer: Answer)
    requires wid in s.workers && s.workers[wid].stage == Marked && Answers(s.workers[wid], answer)
    ensures var w := s.workers[wid];
            Step(s, Provide(wid, answer)) ==
            s.(calls := s.calls + [Call(w.topic, w.queueId, w.targets, s.now, answer)],
               workers := s.workers[wid := w.(stage := Answered(answer))])
  {
  }

  lemma AfterConclude(s: State, wid: nat, ending: Ending)
    requires wid in s.workers && s.workers[wid].stage.Answered?
    ensures Step(s, Conclude(wid, ending)) ==
            s.(db := Concluded(s.db, s.workers[wid], ending), workers := s.workers - {wid})
  {
  }

  /** The same worker put in place again and again, and then removed. */
  lemma Replaced(ws: map<nat, Worker>, wid: nat, a: Worker, b: Worker, c: Worker)
    requires wid !in ws
    ensures ws[wid := a] - {wid} == ws && ws[wid := a][wid := b][wid := c] - {wid} == ws
  {
  }

  /** When the first transaction fails, the handler is gone and nothing has happened. */
  lemma HandlerStops(s: State, wid: nat, offset: nat, answer: Answer)
    requires offset < |s.log| && wid !in s.workers && Visible(s.db, s.log[offset].record.queueId)
    ensures Run(s, [Fetch(wid, offset), MarkSending(wid, false)]) == s
  {
    var w := AnsweredWorker(s.db, s.log[offset].record.queueId, s.log[offset].record.topic, answer);
    RunTwo(s, Fetch(wid, offset), MarkSending(wid, false));
    AfterFetch(s, wid, offset, answer);
    AfterMark(Step(s, Fetch(wid, offset)), wid, false);
    Replaced(s.workers, wid, w.(stage := Fetched), w, w);
  }

  /** A handler call run without interruption: one provider call, no worker left, and this store. */
  lemma HandlerRun(s: State, wid: nat, offset: nat, answer: Answer, ending: Ending)
    requires offset < |s.log| && wid !in s.workers && Visible(s.db, s.log[offset].record.queueId)
    requires Answers(AnsweredWorker(s.db, s.log[offset].record.queueId, s.log[offset].record.topic, answer), answer)
    ensures var q, topic := s.log[offset].record.queueId, s.log[offset].record.topic;
            Run(s, [Fetch(wid, offset), MarkSending(wid, true), Provide(wid, answer), Conclude(wid, ending)]) ==
            s.(db := Concluded(SendingTx(s.db, q, TimeOf(q)), AnsweredWorker(s.db, q, topic, answer), ending),
               calls := s.calls + [Call(topic, q, LiveTargets(s.db, q), s.now, answer)])
  {
    var w := AnsweredWorker(s.db, s.log[offset].record.queueId, s.log[offset].record.topic, answer);
    RunFour(s, Fetch(wid, offset), MarkSending(wid, true), Provide(wid, answer), Conclude(wid, ending));
    AfterFetch(s, wid, offset, answer);
    var s1 := Step(s, Fetch(wid, offset));
    AfterMark(s1, wid, true);
    var s2 := Step(s1, MarkSending(wid, true));
    AfterProvide(s2, wid, answer);
    AfterConclude(Step(s2, Provide(wid, answer)), wid, ending);
    Replaced(s.workers, wid, w.(stage := Fetched), w.(stage := Marked), w);
  }

  /** What the pipeline's worker transactions make of one uninterrupted call, whatever the answer names. */
  ghost function Worked(s: State, wid: nat, offset: nat, fetches: bool, marks: bool, answer: Answer,
                        ending: Ending): State
    requires offset < |s.log|
  {
    if !fetches || !Visible(s.db, s.log[offset].record.queueId) then s
    else if !marks then DoMarkSending(DoFetch(s, wid, offset), wid, false)
    else DoConclude(DoProvide(DoMarkSending(DoFetch(s, wid, offset), wid, true), wid, answer), wid, ending)
  }

  /** Every section that names a target names one of the queue's. */
  ghost predicate NamesOwn(db: Store, q: Id, m: map<Section, Status>) {
    forall n :: n in m && n.TargetSection? ==> n.id in LiveTargets(db, q)
  }

  /**
    Whatever an SMS handler call does to the tables, the pipeline's transactions do; and when the answer names
    only targets of the queue, as the pipeline takes for granted, they are steps of a run.
   */
  lemma SmsHandlerRefines(s: State, wid: nat, offset: nat, env: SmsEnv, after: Store, r: HandleResult)
    requires offset < |s.log| && wid !in s.workers && s.log[offset].record.topic == NotifySms
    requires SmsOutcome(s.db, after, s.log[offset].record.queueId, env, r)
    ensures var m := StatusesOf(env.reply);
            var answer, ending := SmsAnswer(m), SmsEnding(m, env.concluding);
            var s' := Run(s, HandlerSteps(s, wid, offset, !env.fetchFails, Passes(2, env.marking), answer, ending));
            && Worked(s, wid, offset, !env.fetchFails, Passes(2, env.marking), answer, ending).db == after
            && (NamesOwn(s.db, s.log[offset].record.queueId, m) ==> s' == s.(db := after, calls := s'.calls))
  {
    var m, q := StatusesOf(env.reply), s.log[offset].record.queueId;
    if !env.fetchFails && Visible(s.db, q) {
      HandlerStops(s, wid, offset, SmsAnswer(m));
      if NamesOwn(s.db, q, m) {
        assert Answers(AnsweredWorker(s.db, q, NotifySms, SmsAnswer(m)), SmsAnswer(m));
        HandlerRun(s, wid, offset, SmsAnswer(m), SmsEnding(m, env.concluding));
      }
    }
  }

  lemma MailHandlerRefines(s: State, wid: nat, offset: nat, env: MailEnv, after: Store, r: HandleResult)
    requires offset < |s.log| && wid !in s.workers && s.log[offset].record.topic == NotifyMail
    requires MailOutcome(s.db, after, s.log[offset].record.queueId, env, r)
    ensures var answer, n := MailAnswer(env.sent, env.trace), |LiveTargets(s.db, s.log[offset].record.queueId)|;
            var s' := Run(s, HandlerSteps(s, wid, offset, !env.fetchFails, Passes(2, env.marking), answer,
                                          MailEnding(env.sent, n, env.concluding)));
            s' == s.(db := after, calls := s'.calls)
  {
    var q := s.log[offset].record.queueId;
    if !env.fetchFails && Visible(s.db, q) {
      HandlerStops(s, wid, offset, MailAnswer(env.sent, env.trace));
      HandlerRun(s, wid, offset, MailAnswer(env.sent, env.trace),
                 MailEnding(env.sent, |LiveTargets(s.db, q)|, env.concluding));
    }
  }
}
