/**
  The relational store.  Every statement carries the soft-delete filter
  `deleted_at IS NULL`; every transaction is one function from store to store.
 */
module Tables {
  import opened Entities

  datatype Store = Store(
    messages: map<Id, Message>, queues: map<Id, Queue>,
    targets: map<Id, Target>, events: multiset<Event>)

  const EMPTY: Store := Store(map[], map[], map[], multiset{})

  /******* Statements *******/

  function SetMessageStatus(ms: map<Id, Message>, ids: set<Id>, st: Status): map<Id, Message> {
    map m | m in ms :: if m in ids && !ms[m].deleted then ms[m].(status := st) else ms[m]
  }

  function SetQueueStatus(qs: map<Id, Queue>, ids: set<Id>, st: Status): map<Id, Queue> {
    map q | q in qs :: if q in ids && !qs[q].deleted then qs[q].(status := st) else qs[q]
  }

  function SetTargetStatus(ts: map<Id, Target>, qids: set<Id>, st: Status): map<Id, Target> {
    map t | t in ts ::
      if ts[t].queueId in qids && !ts[t].deleted then ts[t].(status := st) else ts[t]
  }

  /** Status and driver trace of the targets of every queue that `traces` names. */
  function SetTargetTrace(ts: map<Id, Target>, traces: map<Id, Id>, st: Status): map<Id, Target> {
    map t | t in ts ::
      if ts[t].queueId in traces && !ts[t].deleted
      then ts[t].(status := st, driverTraceId := Some(traces[ts[t].queueId])) else ts[t]
  }

  predicate Within(at: Time, lo: Time, hi: Time) { lo <= at <= hi }

  function CancelMessage(ms: map<Id, Message>, mid: Id): map<Id, Message> {
    map m | m in ms ::
      if m == mid && !ms[m].deleted then ms[m].(status := Canceled, deleted := true) else ms[m]
  }

  function CancelQueues(qs: map<Id, Queue>, mid: Id, lo: Time, hi: Time): map<Id, Queue> {
    map q | q in qs ::
      if qs[q].messageId == mid && Within(qs[q].createdAt, lo, hi) && !qs[q].deleted
      then qs[q].(status := Canceled, deleted := true) else qs[q]
  }

  function CancelTargets(ts: map<Id, Target>, mid: Id, lo: Time, hi: Time): map<Id, Target> {
    map t | t in ts ::
      if ts[t].messageId == mid && Within(ts[t].createdAt, lo, hi) && !ts[t].deleted
      then ts[t].(status := Canceled, deleted := true) else ts[t]
  }

  function SendingQueue(qs: map<Id, Queue>, qid: Id, from: Time): map<Id, Queue> {
    map q | q in qs ::
      if q == qid && qs[q].createdAt >= from && !qs[q].deleted
      then qs[q].(status := Sending) else qs[q]
  }

  function SendingTargets(ts: map<Id, Target>, qid: Id, from: Time): map<Id, Target> {
    map t | t in ts ::
      if ts[t].queueId == qid && ts[t].createdAt >= from && !ts[t].deleted
      then ts[t].(status := Sending) else ts[t]
  }

  /** Every target a section names takes that section's status and name. */
  function AnswerTargets(ts: map<Id, Target>, answer: map<Section, Status>): map<Id, Target> {
    map t | t in ts ::
      if TargetSection(t) in answer && !ts[t].deleted
      then ts[t].(status := answer[TargetSection(t)], providerTraceId := SectionTrace(TargetSection(t)))
      else ts[t]
  }

  /** The mail batch's one status and trace, on every target the handler loaded. */
  function StampTargets(ts: map<Id, Target>, ids: set<Id>, st: Status, trace: ProviderTrace): map<Id, Target> {
    map t | t in ts ::
      if t in ids && !ts[t].deleted then ts[t].(status := st, providerTraceId := trace) else ts[t]
  }

  function SectionEvents(sections: set<Section>, st: Status, qid: Id): multiset<Event> {
    multiset(set n | n in sections :: Event(Mitake, st, SectionTrace(n), qid))
  }

  /******* Transactions *******/

  /** One status over queues, messages and targets; with traces, the targets of the traced queues only. */
  function BatchUpdate(s: Store, qids: set<Id>, mids: set<Id>, st: Status, traces: map<Id, Id>): Store {
    s.(queues := SetQueueStatus(s.queues, qids, st),
       messages := SetMessageStatus(s.messages, mids, st),
       targets := if traces != map[] then SetTargetTrace(s.targets, traces, st)
                  else SetTargetStatus(s.targets, qids, st))
  }

  function CancelTx(s: Store, mid: Id, lo: Time, hi: Time): Store {
    s.(messages := CancelMessage(s.messages, mid),
       queues := CancelQueues(s.queues, mid, lo, hi),
       targets := CancelTargets(s.targets, mid, lo, hi))
  }

  function SendingTx(s: Store, qid: Id, from: Time): Store {
    s.(targets := SendingTargets(s.targets, qid, from), queues := SendingQueue(s.queues, qid, from))
  }

  function FailTx(s: Store, qid: Id, mid: Id, events: multiset<Event>): Store {
    s.(queues := SetQueueStatus(s.queues, {qid}, Failed),
       messages := SetMessageStatus(s.messages, {mid}, Failed),
       targets := SetTargetStatus(s.targets, {qid}, Failed),
       events := s.events + events)
  }

  function SmsSuccessTx(s: Store, qid: Id, mid: Id, answer: map<Section, Status>): Store {
    s.(queues := SetQueueStatus(s.queues, {qid}, Success),
       messages := SetMessageStatus(s.messages, {mid}, Sent),
       targets := AnswerTargets(s.targets, answer),
       events := s.events + SectionEvents(answer.Keys, Sent, qid))
  }

  function MailSuccessTx(s: Store, qid: Id, mid: Id, ids: set<Id>, trace: string): Store {
    s.(queues := SetQueueStatus(s.queues, {qid}, Success),
       messages := SetMessageStatus(s.messages, {mid}, Sent),
       targets := StampTargets(s.targets, ids, Sent, HeaderTrace(trace)),
       events := s.events + multiset{Event(Sendgrid, Sent, HeaderTrace(trace), qid)})
  }
}
