/**
  What a handler's last transaction writes to every table, and what the tables then say: a message, a queue or an
  event that tells of success or failure goes back to a provider call with that answer.
 */
module Conclusions {
  import opened Entities
  import opened Tables
  import opened Publish
  import opened MitakeSms
  import opened Pipeline
  import opened PipelineInvariant
  import opened PipelineRuns
  import opened PipelineTheorems
  import opened PipelineHistory
  import opened StatusFates

  /******* One conclusion *******/

  /** One event per section of an SMS answer, one for a mail answer. */
  function EventsOf(answer: Answer, q: Id): multiset<Event> {
    var st := if Accepts(answer) then Sent else Failed;
    match answer
    case SmsAnswer(rows) => multiset(set n | n in rows :: Event(Mitake, st, SectionTrace(n), q))
    case MailAnswer(_, trace) => multiset{Event(Sendgrid, st, HeaderTrace(trace), q)}
  }

  /** The live row of the one queue or message that a conclusion is about takes a status; all others stay. */
  ghost predicate OneMessageSet(a: map<Id, Message>, b: map<Id, Message>, m: Id, st: Status) {
    m in a && b == if a[m].deleted then a else a[m := a[m].(status := st)]
  }

  ghost predicate OneQueueSet(a: map<Id, Queue>, b: map<Id, Queue>, q: Id, st: Status) {
    q in a && b == if a[q].deleted then a else a[q := a[q].(status := st)]
  }

  /**
    A committed conclusion: the handler's message is `sent` and its queue `success` if the provider accepted, both are
    `failed` if it refused, unless they were canceled meanwhile; there are the answer's events; and no other message
    or queue is touched.
   */
  lemma ConclusionExactly(s: State, wid: nat)
    requires Reachable(s) && wid in s.workers && s.workers[wid].stage.Answered?
    ensures var w, db' := s.workers[wid], Step(s, Conclude(wid, Committed)).db;
            && w.queueId in s.db.queues && w.messageId == s.db.queues[w.queueId].messageId
            && OneMessageSet(s.db.messages, db'.messages, w.messageId, if Accepts(w.stage.answer) then Sent else Failed)
            && OneQueueSet(s.db.queues, db'.queues, w.queueId, if Accepts(w.stage.answer) then Success else Failed)
            && db'.events == s.db.events + EventsOf(w.stage.answer, w.queueId)
  {
    ReachableInv(s);
    assert WorkerInv(s.db, s.log, s.workers[wid]);
    ConcludedRows(s.db, s.workers[wid]);
  }

  lemma ConcludedRows(db: Store, w: Worker)
    requires w.stage.Answered? && w.queueId in db.queues && w.messageId in db.messages
    ensures var db' := Concluded(db, w, Committed);
            && OneMessageSet(db.messages, db'.messages, w.messageId, if Accepts(w.stage.answer) then Sent else Failed)
            && OneQueueSet(db.queues, db'.queues, w.queueId, if Accepts(w.stage.answer) then Success else Failed)
            && db'.events == db.events + EventsOf(w.stage.answer, w.queueId)
  {
    var db' := Concluded(db, w, Committed);
    assert db'.messages.Keys == db.messages.Keys && db'.queues.Keys == db.queues.Keys;
    forall m | m in db.messages ensures db'.messages[m] ==
      if m == w.messageId && !db.messages[m].deleted
      then db.messages[m].(status := if Accepts(w.stage.answer) then Sent else Failed) else db.messages[m]
    {
      ConcludedMessage(db, w, Committed, m);
    }
    forall q | q in db.queues ensures db'.queues[q] ==
      if q == w.queueId && !db.queues[q].deleted
      then db.queues[q].(status := if Accepts(w.stage.answer) then Success else Failed) else db.queues[q]
    {
      ConcludedQueue(db, w, Committed, q);
    }
  }

  /** And each target of the queue: failed, its section's status, or the mail's, with where that came from. */
  lemma TargetsConcluded(s: State, wid: nat, t: Id)
    requires Reachable(s) && wid in s.workers && s.workers[wid].stage.Answered? && t in s.db.targets
    ensures var w, row, db' := s.workers[wid], s.db.targets[t], Step(s, Conclude(wid, Committed)).db;
            && t in db'.targets
            && (row.queueId != w.queueId || row.deleted ==> db'.targets[t] == row)
            && (row.queueId == w.queueId && !row.deleted ==>
                  match w.stage.answer
                  case SmsAnswer(rows) =>
                    var n := TargetSection(t);
                    db'.targets[t] == if Verdict(rows) != Sent then row.(status := Failed)
                                      else if n in rows then row.(status := rows[n], providerTraceId := SectionTrace(n))
                                      else row
                  case MailAnswer(sent, trace) =>
                    db'.targets[t] == if sent then row.(status := Sent, providerTraceId := HeaderTrace(trace))
                                      else row.(status := Failed))
  {
    ReachableInv(s);
    assert WorkerInv(s.db, s.log, s.workers[wid]);
    ConcludedTarget(s.db, s.log, s.workers[wid], Committed, t);
  }

  /******* Every run *******/

  ghost predicate AcceptedFor(calls: seq<Call>, q: Id) {
    exists i :: 0 <= i < |calls| && calls[i].queueId == q && Accepts(calls[i].answer)
  }

  ghost predicate MessageAccepted(db: Store, calls: seq<Call>, m: Id) {
    exists q :: q in db.queues && db.queues[q].messageId == m && AcceptedFor(calls, q)
  }

  ghost predicate MessageRefused(db: Store, calls: seq<Call>, m: Id) {
    exists q :: q in db.queues && db.queues[q].messageId == m && Refused(calls, q)
  }

  ghost predicate EventTold(calls: seq<Call>, e: Event) {
    exists i :: 0 <= i < |calls| && calls[i].queueId == e.queueId && e in EventsOf(calls[i].answer, e.queueId)
  }

  ghost predicate MessageTold(db: Store, calls: seq<Call>, m: Id, st: Status) {
    && (st == Sent ==> MessageAccepted(db, calls, m)) && (st == Failed ==> MessageRefused(db, calls, m))
  }

  ghost predicate QueueTold(calls: seq<Call>, q: Id, st: Status) {
    (st == Success ==> AcceptedFor(calls, q)) && (st == Failed ==> Refused(calls, q)) && st !in {Sent, Blank}
  }

  /** Every outcome in the tables is some provider's answer. */
  ghost predicate Told(s: State) {
    && (forall m :: m in s.db.messages ==> MessageTold(s.db, s.calls, m, s.db.messages[m].status))
    && (forall q :: q in s.db.queues ==> QueueTold(s.calls, q, s.db.queues[q].status))
    && (forall e :: e in s.db.events ==> EventTold(s.calls, e))
  }

  /** Calls and queues only come on top. */
  ghost predicate Grows(s: State, s': State) {
    && s.calls <= s'.calls
    && forall q :: q in s.db.queues ==> q in s'.db.queues && s'.db.queues[q].messageId == s.db.queues[q].messageId
  }

  lemma GrowsRefused(a: seq<Call>, b: seq<Call>, q: Id)
    requires a <= b
    ensures (AcceptedFor(a, q) ==> AcceptedFor(b, q)) && (Refused(a, q) ==> Refused(b, q))
  {
    if AcceptedFor(a, q) {
      var i :| 0 <= i < |a| && a[i].queueId == q && Accepts(a[i].answer);
      assert b[i] == a[i];
    }
    if Refused(a, q) {
      var i :| 0 <= i < |a| && a[i].queueId == q && !Accepts(a[i].answer);
      assert b[i] == a[i];
    }
  }

  lemma GrowsMessage(s: State, s': State, m: Id, st: Status)
    requires Grows(s, s') && MessageTold(s.db, s.calls, m, st)
    ensures MessageTold(s'.db, s'.calls, m, st)
  {
    if st == Sent {
      var q :| q in s.db.queues && s.db.queues[q].messageId == m && AcceptedFor(s.calls, q);
      GrowsRefused(s.calls, s'.calls, q);
    } else if st == Failed {
      var q :| q in s.db.queues && s.db.queues[q].messageId == m && Refused(s.calls, q);
      GrowsRefused(s.calls, s'.calls, q);
    }
  }

  lemma GrowsEvent(a: seq<Call>, b: seq<Call>, e: Event)
    requires a <= b && EventTold(a, e)
    ensures EventTold(b, e)
  {
    var i :| 0 <= i < |a| && a[i].queueId == e.queueId && e in EventsOf(a[i].answer, e.queueId);
    assert b[i] == a[i];
  }

  lemma StepGrows(s: State, a: Action)
    requires Inv(s)
    ensures Grows(s, Step(s, a))
  {
    StepKeeps(s, a);
    CallsGrow(s, a);
    forall q | q in s.db.queues ensures QueueEvolves(s.db.queues[q], Step(s, a).db.queues[q]) {}
  }

  lemma CallsGrow(s: State, a: Action)
    ensures s.calls <= Step(s, a).calls
  {
  }

  /** A handler about to conclude has called the provider and got its answer. */
  lemma AnswerBehind(s: State, wid: nat)
    requires Inv(s) && AnswersAsked(s.workers, s.calls) && wid in s.workers && s.workers[wid].stage.Answered?
    ensures var w := s.workers[wid];
            && w.queueId in s.db.queues && w.messageId == s.db.queues[w.queueId].messageId
            && (if Accepts(w.stage.answer) then AcceptedFor(s.calls, w.queueId) else Refused(s.calls, w.queueId))
            && forall e :: e in EventsOf(w.stage.answer, w.queueId) ==> EventTold(s.calls, e)
  {
    var w := s.workers[wid];
    assert WorkerInv(s.db, s.log, w);
    var i :| 0 <= i < |s.calls| && s.calls[i].queueId == w.queueId && s.calls[i].answer == w.stage.answer;
    forall e | e in EventsOf(w.stage.answer, w.queueId) ensures EventTold(s.calls, e) {
      assert s.calls[i].queueId == e.queueId;
    }
  }

  lemma MessageStaysTold(s: State, a: Action, m: Id)
    requires Inv(s) && AnswersAsked(s.workers, s.calls) && Told(s) && m in s.db.messages
    ensures var s' := Step(s, a);
            m in s'.db.messages && MessageTold(s'.db, s'.calls, m, s'.db.messages[m].status)
  {
    StepMessage(s, a, m);
    StepGrows(s, a);
    var write := MessageWrite(s, a, m);
    if write.Some? && a.Conclude? {
      AnswerBehind(s, a.wid);
      GrowsMessage(s, Step(s, a), m, write.value);
    } else if write.None? {
      GrowsMessage(s, Step(s, a), m, s.db.messages[m].status);
    }
  }

  lemma QueueStaysTold(s: State, a: Action, q: Id)
    requires Inv(s) && AnswersAsked(s.workers, s.calls) && Told(s) && q in s.db.queues
    ensures var s' := Step(s, a);
            q in s'.db.queues && QueueTold(s'.calls, q, s'.db.queues[q].status)
  {
    StepQueue(s, a, q);
    StepGrows(s, a);
    GrowsRefused(s.calls, Step(s, a).calls, q);
    OutcomeWriter(s, a, q);
    if QueueWrite(s, a, q) in {Some(Success), Some(Failed)} { AnswerBehind(s, a.wid); }
  }

  /** Only a conclusion on the queue writes its outcome. */
  lemma OutcomeWriter(s: State, a: Action, q: Id)
    ensures QueueWrite(s, a, q) !in {Some(Sent), Some(Blank)}
    ensures QueueWrite(s, a, q) in {Some(Success), Some(Failed)} ==>
              && a.Conclude? && Enabled(s, a) && s.workers[a.wid].queueId == q
              && (QueueWrite(s, a, q) == Some(Success) <==> Accepts(s.workers[a.wid].stage.answer))
  {
  }

  /** Only conclusions add events. */
  lemma EventsAdded(s: State, a: Action)
    requires Enabled(s, a)
    ensures a.Conclude? ==>
              Step(s, a).db.events == s.db.events +
                if a.ending == Committed || (a.ending == RolledBackAfterEvent && s.workers[a.wid].stage.answer.MailAnswer?
                                             && !Accepts(s.workers[a.wid].stage.answer))
                then EventsOf(s.workers[a.wid].stage.answer, s.workers[a.wid].queueId) else multiset{}
    ensures !a.Conclude? ==> Step(s, a).db.events == s.db.events
  {
  }

  lemma EventsStayTold(s: State, a: Action)
    requires Inv(s) && AnswersAsked(s.workers, s.calls) && Told(s)
    ensures forall e :: e in Step(s, a).db.events ==> EventTold(Step(s, a).calls, e)
  {
    var s' := Step(s, a);
    CallsGrow(s, a);
    if Enabled(s, a) {
      EventsAdded(s, a);
      if a.Conclude? { AnswerBehind(s, a.wid); }
    }
    forall e | e in s'.db.events ensures EventTold(s'.calls, e) { GrowsEvent(s.calls, s'.calls, e); }
  }

  /** A new message and its queues tell of nothing. */
  lemma NewRowsSilent(s: State, a: Action)
    ensures var db' := Step(s, a).db;
            && (forall m :: m in db'.messages && m !in s.db.messages ==> db'.messages[m].status !in {Sent, Failed})
            && (forall q :: q in db'.queues && q !in s.db.queues ==> db'.queues[q].status == Pending)
  {
    if Enabled(s, a) && a.PublishMessage? {
      PublishedSilent(s, a.mid, a.message, a.receivers, a.at, a.draws);
    } else if Enabled(s, a) {
      NoNewRows(s, a);
    }
  }

  lemma PublishedSilent(s: State, mid: Id, m: Message, receivers: seq<Bytes>, at: Time, d: Draws)
    requires CanPublish(s, mid, m, receivers, at, d)
    ensures var db' := DoPublish(s, mid, m, receivers, at, d).db;
            && (forall x :: x in db'.messages && x !in s.db.messages ==> db'.messages[x].status !in {Sent, Failed})
            && (forall q :: q in db'.queues && q !in s.db.queues ==> db'.queues[q].status == Pending)
  {
    var b, db' := BatchOf(s, mid, m, receivers, at, d), DoPublish(s, mid, m, receivers, at, d).db;
    var c, chunks := CommonOf(mid, m, at), Chunks(receivers, LimitOf(s.config, m.mtype));
    PreparedIsBatch(receivers, LimitOf(s.config, m.mtype), c, s.config.aead, d);
    QueueRows(chunks, c, d, 0);
    forall q | q in db'.queues && q !in s.db.queues ensures db'.queues[q].status == Pending {
      var i := RowMapIndex(b.queues, q);
    }
  }

  lemma StepTold(s: State, a: Action)
    requires Inv(s) && AnswersAsked(s.workers, s.calls) && Told(s)
    ensures Told(Step(s, a))
  {
    var s' := Step(s, a);
    NewRowsSilent(s, a);
    EventsStayTold(s, a);
    forall m | m in s'.db.messages ensures MessageTold(s'.db, s'.calls, m, s'.db.messages[m].status) {
      if m in s.db.messages { MessageStaysTold(s, a, m); }
    }
    forall q | q in s'.db.queues ensures QueueTold(s'.calls, q, s'.db.queues[q].status) {
      if q in s.db.queues { QueueStaysTold(s, a, q); }
    }
  }

  lemma {:induction false} RunTold(config: Config, now: Time, actions: seq<Action>)
    ensures Told(Run(Init(config, now), actions))
  {
    if actions != [] {
      var n := |actions| - 1;
      RunTold(config, now, actions[..n]);
      RunKeeps(config, now, actions[..n]);
      RunHistory(config, now, actions[..n]);
      StepTold(Run(Init(config, now), actions[..n]), actions[n]);
    }
  }

  /**
    In every reachable state a message that is `sent` has an accepted call for one of its queues, a `failed` one a
    refused call; a successful queue has an accepted call of its own, a failed one a refused call; and every event is
    one of a call's for its queue.
   */
  lemma OutcomesTold(s: State)
    requires Reachable(s)
    ensures Told(s)
  {
    var config, now, actions :| s == Run(Init(config, now), actions);
    RunTold(config, now, actions);
  }
}
