/** The consumer loop: what it marks, what it commits, and what a restart goes back to. */
module Consumer {
  import opened Entities
  import opened Tables
  import opened Database
  import opened Handlers
  import opened Pipeline
  import opened Results

  /******* One partition over its whole life *******/

  /** Where a partition's consumer stands, and every call of a handler so far with its result. */
  datatype Progress = Progress(next: nat, marked: nat, committed: nat, attempts: seq<(nat, HandleResult)>)

  const FROM_OLDEST: Progress := Progress(0, 0, 0, [])

  function Max(a: nat, b: nat): nat { if a < b then b else a }

  /** A new process, or a new session, starts from the committed offset. */
  function Restarted(p: Progress): Progress { p.(next := p.committed, marked := p.committed) }

  /** The next record without a handler: marked, and committed only when another claim's success is. */
  function Skip(p: Progress): Progress { p.(next := p.next + 1, marked := Max(p.marked, p.next + 1)) }

  /** The next record with a handler; the commit after a success may be lost on its way. */
  function Deliver(p: Progress, r: HandleResult, lands: bool): Progress {
    var seen := p.(attempts := p.attempts + [(p.next, r)]);
    match r
    case Handled =>
      var marked := Max(p.marked, p.next + 1);
      seen.(next := p.next + 1, marked := marked, committed := if lands then marked else p.committed)
    case Errored => seen.(next := p.next + 1)
    case Exited => Restarted(seen)
  }

  /** A commit is the session's: it takes the marks of all its partitions along. */
  function Flushed(p: Progress): Progress { p.(committed := p.marked) }

  datatype PartitionStep = Delivery(result: HandleResult, lands: bool) | OtherCommits | Restart

  function Advanced(p: Progress, registered: bool, st: PartitionStep): Progress {
    match st
    case Restart => Restarted(p)
    case OtherCommits => Flushed(p)
    case Delivery(r, lands) => if registered then Deliver(p, r, lands) else Skip(p)
  }

  function Life(p: Progress, registered: bool, steps: seq<PartitionStep>): Progress {
    if steps == [] then p else Advanced(Life(p, registered, steps[..|steps| - 1]), registered, steps[|steps| - 1])
  }

  ghost predicate Attempted(p: Progress, offset: nat) { exists i :: 0 <= i < |p.attempts| && p.attempts[i].0 == offset }

  ghost predicate Succeeded(p: Progress, offset: nat) { (offset, Handled) in p.attempts }

  /**
    With a handler, the committed offset only moves to just after a success, and nothing below is skipped
    unattempted; without one nothing is ever attempted.
   */
  ghost predicate Sound(p: Progress, registered: bool) {
    && p.committed <= p.marked <= p.next
    && (!registered ==> p.attempts == [])
    && (registered ==>
          && (p.committed == 0 || Succeeded(p, p.committed - 1))
          && (p.marked == 0 || Succeeded(p, p.marked - 1))
          && (forall k: nat :: k < p.next ==> Attempted(p, k)))
  }

  lemma AttemptsGrow(p: Progress, r: HandleResult)
    ensures var p' := p.(attempts := p.attempts + [(p.next, r)]);
            && Attempted(p', p.next) && (r == Handled ==> Succeeded(p', p.next))
            && (forall k: nat :: Attempted(p, k) ==> Attempted(p', k))
            && (forall k: nat :: Succeeded(p, k) ==> Succeeded(p', k))
  {
    var p' := p.(attempts := p.attempts + [(p.next, r)]);
    assert p'.attempts[|p.attempts|] == (p.next, r);
    forall k: nat | Attempted(p, k) ensures Attempted(p', k) {
      var i :| 0 <= i < |p.attempts| && p.attempts[i].0 == k;
      assert p'.attempts[i].0 == k;
    }
  }

  lemma SoundStep(p: Progress, registered: bool, st: PartitionStep)
    requires Sound(p, registered)
    ensures Sound(Advanced(p, registered, st), registered)
    ensures p.committed <= Advanced(p, registered, st).committed
  {
    if registered && st.Delivery? {
      AttemptsGrow(p, st.result);
      var p' := p.(attempts := p.attempts + [(p.next, st.result)]);
      forall k: nat | k < p.next + 1 ensures Attempted(p', k) {}
      forall k: nat | k < Deliver(p, st.result, st.lands).next ensures Attempted(Deliver(p, st.result, st.lands), k) {
        assert Attempted(p', k);
      }
    } else if registered {
      var p' := Advanced(p, registered, st);
      forall k: nat | k < p'.next ensures Attempted(p', k) { assert Attempted(p, k); }
    }
  }

  /**
    Over every run of deliveries, failures, exits, lost commits, commits of other partitions and restarts: the
    committed offset never decreases; with a handler it is zero or just after a handled record, and every offset
    below it was attempted.
   */
  lemma {:induction false} AtLeastOnce(registered: bool, steps: seq<PartitionStep>, more: seq<PartitionStep>)
    ensures Sound(Life(FROM_OLDEST, registered, steps), registered)
    ensures Life(FROM_OLDEST, registered, steps).committed <= Life(FROM_OLDEST, registered, steps + more).committed
    decreases |steps| + |more|
  {
    if more != [] {
      var n := |more| - 1;
      AtLeastOnce(registered, steps, more[..n]);
      AtLeastOnce(registered, steps + more[..n], []);
      assert (steps + more)[..|steps + more| - 1] == steps + more[..n];
      SoundStep(Life(FROM_OLDEST, registered, steps + more[..n]), registered, more[n]);
    } else {
      assert steps + more == steps;
      if steps != [] {
        var n := |steps| - 1;
        AtLeastOnce(registered, steps[..n], []);
        SoundStep(Life(FROM_OLDEST, registered, steps[..n]), registered, steps[n]);
      }
    }
  }

  /******* Which records come again *******/

  function AttemptsAt(attempts: seq<(nat, HandleResult)>, k: nat): nat {
    if attempts == [] then 0
    else AttemptsAt(attempts[..|attempts| - 1], k) + if attempts[|attempts| - 1].0 == k then 1 else 0
  }

  lemma OneMoreAttempt(attempts: seq<(nat, HandleResult)>, a: (nat, HandleResult), k: nat)
    ensures AttemptsAt(attempts + [a], k) == AttemptsAt(attempts, k) + if a.0 == k then 1 else 0
  {
  }

  lemma {:induction false} LifeGoesOn(p: Progress, registered: bool, a: seq<PartitionStep>, b: seq<PartitionStep>)
    ensures Life(p, registered, a + b) == Life(Life(p, registered, a), registered, b)
  {
    if b == [] {
      assert a + b == a;
    } else {
      var n := |b| - 1;
      LifeGoesOn(p, registered, a, b[..n]);
      assert (a + b)[..|a + b| - 1] == a + b[..n];
    }
  }

  /** Once an offset is committed over, nobody sees that record again, handled or not. */
  lemma {:induction false} BehindCommit(p: Progress, more: seq<PartitionStep>, k: nat)
    requires Sound(p, true) && k < p.committed
    ensures AttemptsAt(Life(p, true, more).attempts, k) == AttemptsAt(p.attempts, k)
    ensures Sound(Life(p, true, more), true) && k < Life(p, true, more).committed
  {
    if more != [] {
      var n := |more| - 1;
      BehindCommit(p, more[..n], k);
      var before := Life(p, true, more[..n]);
      SoundStep(before, true, more[n]);
      if more[n].Delivery? { OneMoreAttempt(before.attempts, (before.next, more[n].result), k); }
    }
  }

  function Failures(n: nat): seq<PartitionStep> { seq(n, _ => Delivery(Errored, false)) }

  lemma {:induction false} FailuresReach(p: Progress, n: nat)
    ensures var p' := Life(p, true, Failures(n));
            && p'.next == p.next + n
            && forall k: nat :: AttemptsAt(p'.attempts, k) ==
                 AttemptsAt(p.attempts, k) + if p.next <= k < p.next + n then 1 else 0
  {
    if n > 0 {
      FailuresReach(p, n - 1);
      assert Failures(n)[..n - 1] == Failures(n - 1);
      var before := Life(p, true, Failures(n - 1));
      forall k: nat ensures AttemptsAt(before.attempts + [(before.next, Errored)], k) ==
                            AttemptsAt(before.attempts, k) + if before.next == k then 1 else 0
      {
        OneMoreAttempt(before.attempts, (before.next, Errored), k);
      }
    }
  }

  /**
    A record can still be attempted again exactly while its offset is not below the committed one; so a
    failed record that a later success commits over is lost.
   */
  lemma RedeliveredExactly(steps: seq<PartitionStep>, k: nat)
    ensures var p := Life(FROM_OLDEST, true, steps);
            (exists more :: AttemptsAt(Life(p, true, more).attempts, k) > AttemptsAt(p.attempts, k)) <==> k >= p.committed
  {
    var p := Life(FROM_OLDEST, true, steps);
    AtLeastOnce(true, steps, []);
    if k < p.committed {
      forall more ensures AttemptsAt(Life(p, true, more).attempts, k) == AttemptsAt(p.attempts, k) {
        BehindCommit(p, more, k);
      }
    } else {
      var n: nat := k - p.committed + 1;
      var more := [Restart] + Failures(n);
      LifeGoesOn(p, true, [Restart], Failures(n));
      assert [Restart][..0] == [];
      assert Life(p, true, [Restart]) == Restarted(p);
      FailuresReach(Restarted(p), n);
      assert AttemptsAt(Life(p, true, more).attempts, k) > AttemptsAt(p.attempts, k);
    }
  }

  /******* The loop *******/

  /** The offset of a topic's partition; a topic that was never touched is at its start. */
  function At(offsets: map<Topic, nat>, topic: Topic): nat { if topic in offsets then offsets[topic] else 0 }

  /** The session's view of its partitions, one for each topic. */
  class Session {
    var marked: map<Topic, nat>
    var committed: map<Topic, nat>

    constructor (committed: map<Topic, nat>)
      ensures marked == committed == this.committed
    {
      this.marked, this.committed := committed, committed;
    }

    /** Marks only ever move forward. */
    method MarkMessage(topic: Topic, offset: nat)
      modifies this`marked
      ensures forall t :: At(marked, t) == if t == topic then Max(old(At(marked, t)), offset + 1) else old(At(marked, t))
    {
      if At(marked, topic) < offset + 1 {
        marked := marked[topic := offset + 1];
      }
    }

    /** All marks of the session, or, when the request is lost, none. */
    method Commit(lands: bool)
      modifies this`committed
      ensures forall t :: At(committed, t) == if lands then At(marked, t) else old(At(committed, t))
    {
      if lands {
        committed := marked;
      }
    }
  }

  datatype TopicHandler = ForSms(sms: SmsHandler) | ForMail(mail: MailHandler)

  /** One record of the claim, with what happens while its handler runs and to its commit. */
  datatype ClaimMessage = ClaimMessage(record: Body, sms: SmsEnv, mail: MailEnv, lands: bool)

  /** What one handler call may leave behind. */
  ghost predicate HandleOutcome(h: TopicHandler, before: Store, after: Store, m: ClaimMessage, r: HandleResult) {
    if !m.record.ForQueue? then after == before && r == if m.record.NoJson? then Errored else Exited
    else match h
      case ForSms(_) => SmsOutcome(before, after, m.record.id, m.sms, r)
      case ForMail(_) => MailOutcome(before, after, m.record.id, m.mail, r)
  }

  /** Each result belongs to its message and takes one store to the next. */
  ghost predicate Trace(h: TopicHandler, stores: seq<Store>, claim: seq<ClaimMessage>, results: seq<HandleResult>) {
    && |stores| == |results| + 1 && |results| <= |claim|
    && forall i :: 0 <= i < |results| ==> HandleOutcome(h, stores[i], stores[i + 1], claim[i], results[i])
  }

  function Deliveries(claim: seq<ClaimMessage>, results: seq<HandleResult>): seq<PartitionStep>
    requires |results| <= |claim|
  {
    seq(|results|, i requires 0 <= i < |results| => Delivery(results[i], claim[i].lands))
  }

  /** The record names a queue a worker can see, and nothing fails on its way, its commit included. */
  ghost predicate Smooth(h: TopicHandler, db: Store, m: ClaimMessage) {
    && m.record.ForQueue? && m.lands && Visible(db, m.record.id)
    && match h
       case ForSms(_) => !m.sms.fetchFails && m.sms.marking == {} && m.sms.concluding == {}
       case ForMail(_) => !m.mail.fetchFails && m.mail.marking == {} && m.mail.concluding == {}
  }

  /** Such a record is handled, and hides no queue from later ones. */
  lemma SmoothHandled(h: TopicHandler, before: Store, after: Store, m: ClaimMessage, r: HandleResult)
    requires HandleOutcome(h, before, after, m, r)
    ensures Smooth(h, before, m) ==> r == Handled
    ensures KeepsVisible(before, after)
  {
    if m.record.ForQueue? {
      match h {
        case ForSms(_) =>
          SmsResultExactly(before, after, m.record.id, m.sms, r);
          SmsVisible(before, after, m.record.id, m.sms, r);
        case ForMail(_) =>
          MailResultExactly(before, after, m.record.id, m.mail, r);
          MailVisible(before, after, m.record.id, m.mail, r);
      }
    }
  }

  ghost predicate AllSmooth(h: TopicHandler, db: Store, claim: seq<ClaimMessage>) {
    forall i :: 0 <= i < |claim| ==> Smooth(h, db, claim[i])
  }

  /** When nothing goes wrong everything is handled, and committed up to its end. */
  lemma {:induction false} SmoothClaim(h: TopicHandler, stores: seq<Store>, claim: seq<ClaimMessage>,
                                       results: seq<HandleResult>, p: Progress)
    requires Trace(h, stores, claim, results) && AllSmooth(h, stores[0], claim)
    ensures forall i :: 0 <= i < |results| ==> results[i] == Handled
    ensures KeepsVisible(stores[0], stores[|results|])
    ensures var p' := Life(p, true, Deliveries(claim, results));
            && p'.next == p.next + |results|
            && (results != [] ==> p'.committed == p'.marked == if p.marked < p'.next then p'.next else p.marked)
    decreases |results|
  {
    if results != [] {
      var n := |results| - 1;
      SmoothClaim(h, stores[..n + 1], claim, results[..n], p);
      assert HandleOutcome(h, stores[n], stores[n + 1], claim[n], results[n]);
      assert Smooth(h, stores[0], claim[n]);
      SmoothHandled(h, stores[n], stores[n + 1], claim[n], results[n]);
      assert results == results[..n] + [results[n]];
      DeliveriesMore(claim, results[..n], results[n]);
    }
  }

  lemma SmoothEnds(h: TopicHandler, stores: seq<Store>, claim: seq<ClaimMessage>, results: seq<HandleResult>, p: Progress)
    requires Trace(h, stores, claim, results)
    ensures AllSmooth(h, stores[0], claim) ==> Exited !in results
    ensures AllSmooth(h, stores[0], claim) && results != [] ==>
              Life(p, true, Deliveries(claim, results)).committed ==
              if p.marked < p.next + |results| then p.next + |results| else p.marked
  {
    if AllSmooth(h, stores[0], claim) { SmoothClaim(h, stores, claim, results, p); }
  }

  /** Partitions the claim is not about: their marks stay, and are committed once a commit goes through. */
  ghost predicate Bystanders(m0: map<Topic, nat>, c0: map<Topic, nat>, m: map<Topic, nat>, c: map<Topic, nat>,
                             topic: Topic, lands: bool) {
    forall t :: t != topic ==> At(m, t) == At(m0, t) && At(c, t) == if lands then At(m, t) else At(c0, t)
  }

  /** Some success of the claim had its commit go through. */
  ghost predicate AnyLands(claim: seq<ClaimMessage>, results: seq<HandleResult>) {
    exists i :: 0 <= i < |results| && i < |claim| && results[i] == Handled && claim[i].lands
  }

  lemma LandsMore(claim: seq<ClaimMessage>, results: seq<HandleResult>, r: HandleResult)
    requires |results| < |claim|
    ensures AnyLands(claim, results + [r]) <==> AnyLands(claim, results) || (r == Handled && claim[|results|].lands)
  {
  }

  /** A partition as a session starts to claim it from an offset. */
  function Claimed(session: Session, topic: Topic, first: nat): Progress
    reads session
  {
    Progress(first, At(session.marked, topic), At(session.committed, topic), [])
  }

  class GroupConsumer {
    var handlers: map<Topic, TopicHandler>

    constructor ()
      ensures handlers == map[]
    {
      handlers := map[];
    }

    method RegisterHandler(topic: Topic, handler: TopicHandler)
      modifies this
      ensures handlers == old(handlers)[topic := handler]
    {
      handlers := handlers[topic := handler];
    }

    /** Without a handler for its topic every record of the claim is marked and passed by. */
    method SkipClaim(session: Session, topic: Topic, first: nat, claim: seq<ClaimMessage>)
      modifies session`marked
      ensures forall t :: At(session.marked, t) ==
                          if t != topic || claim == [] then old(At(session.marked, t))
                          else Max(old(At(session.marked, t)), first + |claim|)
    {
      for i := 0 to |claim|
        invariant forall t :: At(session.marked, t) ==
                              if t != topic || i == 0 then old(At(session.marked, t))
                              else Max(old(At(session.marked, t)), first + i)
      {
        session.MarkMessage(topic, first + i);
      }
    }

    /**
      With a handler an error is logged and passed by unmarked; only a success commits, and then the marks of
      every partition.  The records of a claim are all of one topic, so the lookup is made once here.
     */
    method ConsumeClaim(session: Session, topic: Topic, first: nat, claim: seq<ClaimMessage>, ghost db: Db)
        returns (exited: bool, ghost results: seq<HandleResult>, ghost stores: seq<Store>)
      requires topic in handlers ==> DbOf(handlers[topic]) == db
      modifies session, db
      ensures topic !in handlers ==>
                && !exited && results == []
                && db.Contents() == old(db.Contents()) && session.committed == old(session.committed)
                && At(session.marked, topic) ==
                   if claim == [] then old(At(session.marked, topic))
                   else Max(old(At(session.marked, topic)), first + |claim|)
      ensures topic in handlers ==>
                && Trace(handlers[topic], stores, claim, results)
                && stores[0] == old(db.Contents()) && stores[|results|] == db.Contents()
                && (exited <==> Exited in results) && (!exited ==> |results| == |claim|)
                && var p := Life(old(Claimed(session, topic, first)), true, Deliveries(claim, results));
                && At(session.committed, topic) == p.committed && (!exited ==> At(session.marked, topic) == p.marked)
      ensures topic in handlers && claim != []
              && AllSmooth(handlers[topic], old(db.Contents()), claim) ==>
                && !exited
                && At(session.committed, topic) ==
                   if old(At(session.marked, topic)) < first + |claim| then first + |claim| else old(At(session.marked, topic))
      ensures Bystanders(old(session.marked), old(session.committed), session.marked, session.committed, topic,
                         AnyLands(claim, results))
    {
      results, stores, exited := [], [db.Contents()], false;
      if topic !in handlers {
        SkipClaim(session, topic, first, claim);
        return;
      }
      var handler := handlers[topic];
      ghost var p, p0 := Claimed(session, topic, first), Claimed(session, topic, first);
      ghost var marked0, committed0 := session.marked, session.committed;
      for i := 0 to |claim|
        invariant |results| == i && Trace(handler, stores, claim, results) && Exited !in results
        invariant stores[0] == old(db.Contents()) && stores[i] == db.Contents()
        invariant p == Life(p0, true, Deliveries(claim, results)) && p.next == first + i
        invariant At(session.marked, topic) == p.marked && At(session.committed, topic) == p.committed
        invariant Bystanders(marked0, committed0, session.marked, session.committed, topic, AnyLands(claim, results))
      {
        var r := DeliverOne(session, handler, topic, first + i, claim[i], db);
        DeliveriesMore(claim, results, r);
        LandsMore(claim, results, r);
        results, stores := results + [r], stores + [db.Contents()];
        p := Deliver(p, r, claim[i].lands);
        if r == Exited {
          SmoothEnds(handler, stores, claim, results, p0);
          return true, results, stores;
        }
      }
      SmoothEnds(handler, stores, claim, results, p0);
    }
  }

  function DbOf(h: TopicHandler): Db { match h case ForSms(x) => x.db case ForMail(x) => x.db }

  method CallHandler(h: TopicHandler, m: ClaimMessage, ghost db: Db) returns (r: HandleResult)
    requires DbOf(h) == db
    modifies db
    ensures HandleOutcome(h, old(db.Contents()), db.Contents(), m, r)
  {
    match h {
      case ForSms(x) => var handled, _, _ := x.Handle(m.record, m.sms); r := handled;
      case ForMail(x) => var handled, _, _ := x.Handle(m.record, m.mail); r := handled;
    }
  }

  /** One record: its handler is called; an error leaves the session as it is, a success marks and commits. */
  method DeliverOne(session: Session, h: TopicHandler, topic: Topic, offset: nat, m: ClaimMessage, ghost db: Db)
      returns (r: HandleResult)
    requires DbOf(h) == db
    modifies session, db
    ensures HandleOutcome(h, old(db.Contents()), db.Contents(), m, r)
    ensures r != Handled ==> session.marked == old(session.marked) && session.committed == old(session.committed)
    ensures r == Handled ==> forall t ::
              && At(session.marked, t) == (if t == topic then Max(old(At(session.marked, t)), offset + 1)
                                           else old(At(session.marked, t)))
              && At(session.committed, t) == if m.lands then At(session.marked, t) else old(At(session.committed, t))
  {
    r := CallHandler(h, m, db);
    if r != Handled {
      return;
    }
    session.MarkMessage(topic, offset);
    session.Commit(m.lands);
  }

  lemma DeliveriesMore(claim: seq<ClaimMessage>, results: seq<HandleResult>, r: HandleResult)
    requires |results| < |claim|
    ensures Deliveries(claim, results + [r]) == Deliveries(claim, results) + [Delivery(r, claim[|results|].lands)]
    ensures forall p :: Life(p, true, Deliveries(claim, results + [r])) ==
                        Deliver(Life(p, true, Deliveries(claim, results)), r, claim[|results|].lands)
  {
  }
}
