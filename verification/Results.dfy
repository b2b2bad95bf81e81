/** What a handler reports to the consumer, against what it has done to the tables, and what the consumer makes of it. */
module Results {
  import opened Entities
  import opened Tables
  import opened Snowflake
  import opened MitakeSms
  import opened Handlers
  import opened Pipeline

  /** None of the statements numbered 0 to n, the last being the commit, fails. */
  ghost predicate AllWork(n: nat, faults: set<nat>) { forall k: nat :: k <= n ==> k !in faults }

  /** The lookup works and finds the queue, and the first transaction's two statements and commit work. */
  ghost predicate Begun(db: Store, q: Id, fetchFails: bool, marking: set<nat>) {
    !fetchFails && Visible(db, q) && AllWork(2, marking)
  }

  /** The queue as the first transaction leaves it. */
  ghost predicate StillMarked(before: Store, after: Store, q: Id) {
    && q in before.queues && q in after.queues && after.queues[q] == before.queues[q].(status := Sending)
    && after.messages == before.messages
  }

  /** The message, if it is there and not canceled, has the status. */
  ghost predicate MessageHas(db: Store, m: Id, st: Status) {
    m in db.messages && !db.messages[m].deleted ==> db.messages[m].status == st
  }

  /**
    An SMS record counts as handled exactly when its queue was found and marked and no statement of the last
    transaction fails: queue, message, an event per row, for an accepted batch a target update per row and else one
    for all targets, and the commit.  Then queue and message have their final status; otherwise it is as it was marked, or as it
    was before.
   */
  lemma SmsResultExactly(before: Store, after: Store, q: Id, env: SmsEnv, r: HandleResult)
    requires SmsOutcome(before, after, q, env, r)
    ensures var m := StatusesOf(env.reply);
            && (r == Handled <==>
                  && Begun(before, q, env.fetchFails, env.marking)
                  && AllWork(if Verdict(m) == Sent then 2 + 2 * |m| else 3 + |m|, env.concluding))
            && (r == Handled ==>
                  && q in after.queues && after.queues[q].status == (if Verdict(m) == Sent then Success else Failed)
                  && MessageHas(after, before.queues[q].messageId, if Verdict(m) == Sent then Sent else Failed))
    ensures Begun(before, q, env.fetchFails, env.marking) && r != Handled ==>
              r == Errored && StillMarked(before, after, q) && after.events == before.events
    ensures !Begun(before, q, env.fetchFails, env.marking) ==> r in {Errored, Exited} && after == before
  {
  }

  /** And a mail record likewise; the event of a refused batch stays when only the commit fails. */
  lemma MailResultExactly(before: Store, after: Store, q: Id, env: MailEnv, r: HandleResult)
    requires MailOutcome(before, after, q, env, r)
    ensures r == Handled <==>
              && Begun(before, q, env.fetchFails, env.marking)
              && AllWork(if env.sent then 3 + |LiveTargets(before, q)| else 4, env.concluding)
    ensures r == Handled ==>
              && q in after.queues && after.queues[q].status == (if env.sent then Success else Failed)
              && MessageHas(after, before.queues[q].messageId, if env.sent then Sent else Failed)
    ensures Begun(before, q, env.fetchFails, env.marking) && r != Handled ==>
              && r == Errored && StillMarked(before, after, q)
              && after.targets == SendingTargets(before.targets, q, TimeOf(q))
              && after.events == before.events +
                   if !env.sent && forall k: nat :: k < 4 ==> k !in env.concluding
                   then multiset{Event(Sendgrid, Failed, HeaderTrace(env.trace), q)} else multiset{}
    ensures !Begun(before, q, env.fetchFails, env.marking) ==> r in {Errored, Exited} && after == before
  {
  }

  /** No handler hides a queue. */
  ghost predicate KeepsVisible(before: Store, after: Store) { forall x :: Visible(before, x) ==> Visible(after, x) }

  lemma ConcludedVisible(db: Store, w: Worker, ending: Ending)
    requires w.stage.Answered?
    ensures KeepsVisible(db, Concluded(db, w, ending))
  {
  }

  lemma WorkedVisible(before: Store, q: Id, w: Worker, ending: Ending)
    requires w.stage.Answered?
    ensures KeepsVisible(before, Concluded(SendingTx(before, q, TimeOf(q)), w, ending))
  {
    ConcludedVisible(SendingTx(before, q, TimeOf(q)), w, ending);
    assert KeepsVisible(before, SendingTx(before, q, TimeOf(q)));
  }

  lemma SmsVisible(before: Store, after: Store, q: Id, env: SmsEnv, r: HandleResult)
    requires SmsOutcome(before, after, q, env, r)
    ensures KeepsVisible(before, after)
  {
    if Visible(before, q) {
      var m := StatusesOf(env.reply);
      WorkedVisible(before, q, AnsweredWorker(before, q, NotifySms, SmsAnswer(m)), SmsEnding(m, env.concluding));
    }
  }

  lemma MailVisible(before: Store, after: Store, q: Id, env: MailEnv, r: HandleResult)
    requires MailOutcome(before, after, q, env, r)
    ensures KeepsVisible(before, after)
  {
    if Visible(before, q) {
      var w := AnsweredWorker(before, q, NotifyMail, MailAnswer(env.sent, env.trace));
      WorkedVisible(before, q, w, MailEnding(env.sent, |w.targets|, env.concluding));
    }
  }
}
