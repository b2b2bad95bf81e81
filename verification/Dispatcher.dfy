/** The cron job: select what is due, enqueue it message by message, go on after a failure. */
module Dispatcher {
  import opened Entities
  import opened Tables
  import opened Goroutines
  import opened FanOutRefinement
  import opened Database
  import opened Iteration
  import opened Enqueue
  import opened Scheduling
  import opened Pipeline

  /** The preload yields a message's live queues in any order. */
  method PreloadQueues(db: Db, mid: Id) returns (queues: seq<QueueRef>)
    ensures LoadsQueues(db.Contents(), mid, queues)
  {
    var live := map q | q in db.queues && db.queues[q].messageId == mid && !db.queues[q].deleted :: db.queues[q];
    var order := Range(live);
    queues := [];
    for i := 0 to |order|
      invariant |queues| == i && forall k :: 0 <= k < i ==> queues[k] == QueueRef(order[k], mid)
    {
      queues := queues + [QueueRef(order[i], mid)];
    }
    forall q | q in live ensures q in Ids(queues) {
      assert q in order;
      var i :| 0 <= i < |order| && order[i] == q;
      assert queues[i].id == q;
    }
  }

  function DueMessages(ms: map<Id, Message>, now: Time, limitDays: int): map<Id, Message> {
    map m | m in ms && EligibleAt(ms[m], now, limitDays) :: ms[m]
  }

  predicate IsSelected(db: Store, mid: Id, x: Selected)
    requires mid in db.messages
  {
    x.messageId == mid && x.mtype == db.messages[mid].mtype
  }

  lemma ListingSelects(db: Store, now: Time, limitDays: int, order: seq<Id>, found: seq<Selected>)
    requires ListsKeys(order, DueMessages(db.messages, now, limitDays)) && |found| == |order|
    requires forall k :: 0 <= k < |order| ==>
               IsSelected(db, order[k], found[k]) && LoadsQueues(db, order[k], found[k].queues)
    ensures SelectsAll(db, now, limitDays, found)
  {
    forall i, j | 0 <= i < j < |found| ensures found[i].messageId != found[j].messageId {
      assert IsSelected(db, order[i], found[i]) && IsSelected(db, order[j], found[j]);
    }
    forall m | m in db.messages && EligibleAt(db.messages[m], now, limitDays)
      ensures exists i :: 0 <= i < |found| && found[i].messageId == m
    {
      assert m in order;
      var i :| 0 <= i < |order| && order[i] == m;
      assert found[i].messageId == m;
    }
  }

  method FindDue(db: Db, now: Time, limitDays: int) returns (found: seq<Selected>)
    ensures SelectsAll(db.Contents(), now, limitDays, found)
  {
    var due := DueMessages(db.messages, now, limitDays);
    var order := Range(due);
    found := [];
    for i := 0 to |order|
      invariant |found| == i
      invariant forall k :: 0 <= k < i ==>
                  IsSelected(db.Contents(), order[k], found[k]) && LoadsQueues(db.Contents(), order[k], found[k].queues)
    {
      var queues := PreloadQueues(db, order[i]);
      found := found + [Selected(order[i], due[order[i]].mtype, queues)];
    }
    ListingSelects(db.Contents(), now, limitDays, order, found);
  }

  /** What happens around the enqueue call of one selected message: does the transaction around it begin, and so on. */
  datatype EnqueueEnv = EnqueueEnv(begins: bool, sends: nat -> SendEnv, first: set<nat>, second: set<nat>)

  /** How the turn of one message went: never begun or given up at its first batch, or fanned out. */
  datatype Pass = Skipped | Fanned(outcomes: seq<Outcome>, second: set<nat>)

  predicate PassOf(x: Selected, p: Pass) { p.Fanned? ==> |p.outcomes| == |x.queues| }

  ghost predicate PassesOf(found: seq<Selected>, passes: seq<Pass>) {
    |passes| <= |found| && forall i :: 0 <= i < |passes| ==> PassOf(found[i], passes[i])
  }

  ghost function AfterPass(s: Store, x: Selected, p: Pass): Store
    requires PassOf(x, p)
  {
    match p
    case Skipped => s
    case Fanned(outcomes, second) => AfterEnqueue(s, TopicOf(x.mtype), x.queues, outcomes, second)
  }

  /** One turn of a run: whether it fanned out is decided by its transaction's begin and its first batch. */
  ghost predicate PassedBy(a: Store, b: Store, x: Selected, e: EnqueueEnv, p: Pass) {
    && PassOf(x, p) && b == AfterPass(a, x, p)
    && (p.Fanned? <==> e.begins && Commits(map[], e.first))
    && (p.Fanned? ==> AllFollow(p.outcomes, seq(|x.queues|, e.sends)) && p.second == e.second)
  }

  /** The stores a run goes through, one pass after another. */
  ghost predicate Chain(stores: seq<Store>, found: seq<Selected>, passes: seq<Pass>, env: nat -> EnqueueEnv) {
    && |passes| <= |found| && |stores| == |passes| + 1
    && forall i :: 0 <= i < |passes| ==> PassedBy(stores[i], stores[i + 1], found[i], env(i), passes[i])
  }

  lemma ChainMore(stores: seq<Store>, found: seq<Selected>, passes: seq<Pass>, env: nat -> EnqueueEnv, s: Store, p: Pass)
    requires Chain(stores, found, passes, env) && |passes| < |found|
    requires PassedBy(stores[|passes|], s, found[|passes|], env(|passes|), p)
    ensures Chain(stores + [s], found, passes + [p], env)
  {
  }

  function PassLog(x: Selected, p: Pass): seq<Record>
    requires PassOf(x, p)
  {
    match p
    case Skipped => []
    case Fanned(outcomes, _) => Sequential(TopicOf(x.mtype), x.queues, outcomes).log
  }

  ghost function PassesLog(found: seq<Selected>, passes: seq<Pass>): seq<Record>
    requires PassesOf(found, passes)
  {
    if passes == [] then []
    else
      var n := |passes| - 1;
      PassesLog(found, passes[..n]) + PassLog(found[n], passes[n])
  }

  lemma PassesMore(log: seq<Record>, found: seq<Selected>, passes: seq<Pass>, p: Pass)
    requires PassesOf(found, passes) && |passes| < |found| && PassOf(found[|passes|], p)
    ensures PassesOf(found, passes + [p])
    ensures log + PassesLog(found, passes + [p]) == log + PassesLog(found, passes) + PassLog(found[|passes|], p)
  {
    var all, n := passes + [p], |passes|;
    assert all[..n] == passes && all[n] == p;
    assert PassesLog(found, all) == PassesLog(found, passes) + PassLog(found[n], p);
    Concat(log, PassesLog(found, passes), PassLog(found[n], p));
  }

  /**
    The transaction opened around the call holds no statement of its own, since the call goes through other
    connections; when it cannot begin, the call is not made.
   */
  method EnqueueOne(service: NotifyService, x: Selected, e: EnqueueEnv) returns (enqueued: bool, ghost p: Pass)
    modifies service.db, service.broker
    ensures PassedBy(old(service.db.Contents()), service.db.Contents(), x, e, p) && (p.Fanned? <==> enqueued)
    ensures service.broker.log == old(service.broker.log) + PassLog(x, p)
  {
    if !e.begins {
      return false, Skipped;
    }
    ghost var outcomes;
    enqueued, outcomes := service.HandleEnqueue(TopicOf(x.mtype), x.queues, seq(|x.queues|, e.sends), e.first, e.second);
    p := if enqueued then Fanned(outcomes, e.second) else Skipped;
  }

  /** One run of the job: a message whose turn fails is passed over, the others still go out. */
  method Execute(service: NotifyService, now: Time, limitDays: int, queryFails: bool, env: nat -> EnqueueEnv)
      returns (ok: bool, found: seq<Selected>, ghost passes: seq<Pass>, ghost stores: seq<Store>)
    modifies service.db, service.broker
    ensures ok <==> !queryFails
    ensures !ok ==> service.db.Contents() == old(service.db.Contents()) && service.broker.log == old(service.broker.log)
    ensures ok ==>
              && SelectsAll(old(service.db.Contents()), now, limitDays, found)
              && |passes| == |found| && Chain(stores, found, passes, env) && PassesOf(found, passes)
              && stores[0] == old(service.db.Contents()) && stores[|found|] == service.db.Contents()
              && service.broker.log == old(service.broker.log) + PassesLog(found, passes)
  {
    passes, stores := [], [service.db.Contents()];
    if queryFails {
      return false, [], [], stores;
    }
    ok := true;
    found := FindDue(service.db, now, limitDays);
    ghost var log0 := service.broker.log;
    for i := 0 to |found|
      invariant |passes| == i && Chain(stores, found, passes, env) && PassesOf(found, passes)
      invariant stores[0] == old(service.db.Contents()) && stores[i] == service.db.Contents()
      invariant service.broker.log == log0 + PassesLog(found, passes)
    {
      // Whether it was enqueued or not, the loop goes on with the next message.
      ghost var p;
      var enqueued;
      enqueued, p := EnqueueOne(service, found[i], env(i));
      ChainMore(stores, found, passes, env, service.db.Contents(), p);
      PassesMore(log0, found, passes, p);
      passes, stores := passes + [p], stores + [service.db.Contents()];
    }
  }

  /******* What a run leaves to the next one *******/

  lemma {:induction false} SuccessesWithin(topic: Topic, queues: seq<QueueRef>, outcomes: seq<Outcome>)
    requires |queues| == |outcomes|
    ensures ValuesOf(Sequential(topic, queues, outcomes).successes) <= MessageIds(queues)
    decreases |queues|
  {
    if queues != [] {
      var n := |queues| - 1;
      SuccessesWithin(topic, queues[..n], outcomes[..n]);
      assert MessageIds(queues) == MessageIds(queues[..n]) + {queues[n].messageId};
    }
  }

  /** One enqueue call moves its own live messages out of `scheduled` and leaves the others alone. */
  lemma EnqueueMessage(s: Store, topic: Topic, queues: seq<QueueRef>, outcomes: seq<Outcome>, second: set<nat>, m: Id)
    requires |queues| == |outcomes| && m in s.messages
    ensures var after := AfterEnqueue(s, topic, queues, outcomes, second).messages;
            && m in after
            && (m !in MessageIds(queues) ==> after[m] == s.messages[m])
            && (m in MessageIds(queues) && !s.messages[m].deleted ==> after[m].status in {Process, Enqueued})
  {
    SuccessesWithin(topic, queues, outcomes);
  }

  /** The message was selected with queues and, in the first n passes, got past its first batch. */
  ghost predicate FannedOut(found: seq<Selected>, passes: seq<Pass>, n: nat, m: Id)
    requires n <= |passes| <= |found|
  {
    exists i :: 0 <= i < n && found[i].messageId == m && passes[i].Fanned? && found[i].queues != []
  }

  lemma SelectedMessages(s: Store, now: Time, limitDays: int, found: seq<Selected>, i: nat)
    requires SelectsAll(s, now, limitDays, found) && i < |found|
    ensures MessageIds(found[i].queues) == if found[i].queues == [] then {} else {found[i].messageId}
    ensures found[i].messageId in s.messages && !s.messages[found[i].messageId].deleted
  {
    assert LoadsQueues(s, found[i].messageId, found[i].queues);
    if found[i].queues != [] { assert found[i].queues[0].messageId == found[i].messageId; }
  }

  /** One pass. */
  lemma PassMessage(s: Store, x: Selected, p: Pass, m: Id)
    requires PassOf(x, p) && m in s.messages
    requires MessageIds(x.queues) == if x.queues == [] then {} else {x.messageId}
    ensures var after := AfterPass(s, x, p).messages;
            && m in after
            && (x.messageId != m || p.Skipped? || x.queues == [] ==> after[m] == s.messages[m])
            && (x.messageId == m && p.Fanned? && x.queues != [] && !s.messages[m].deleted ==>
                  after[m].status in {Process, Enqueued})
  {
    if p.Fanned? {
      EnqueueMessage(s, TopicOf(x.mtype), x.queues, p.outcomes, p.second, m);
    }
  }

  lemma FannedMore(s: Store, now: Time, limitDays: int, found: seq<Selected>, passes: seq<Pass>, n: nat, m: Id)
    requires SelectsAll(s, now, limitDays, found) && n < |passes| <= |found|
    ensures FannedOut(found, passes, n + 1, m) <==>
              FannedOut(found, passes, n, m) || (found[n].messageId == m && passes[n].Fanned? && found[n].queues != [])
    ensures FannedOut(found, passes, n, m) ==> found[n].messageId != m
  {
  }

  /** The first n passes. */
  lemma {:induction false} PassedMessage(stores: seq<Store>, now: Time, limitDays: int, found: seq<Selected>,
                                         passes: seq<Pass>,
                                          env: nat -> EnqueueEnv, n: nat, m: Id)
    requires Chain(stores, found, passes, env) && SelectsAll(stores[0], now, limitDays, found)
    requires n <= |passes| && m in stores[0].messages
    ensures m in stores[n].messages
    ensures FannedOut(found, passes, n, m) ==> stores[n].messages[m].status in {Process, Enqueued}
    ensures !FannedOut(found, passes, n, m) ==> stores[n].messages[m] == stores[0].messages[m]
  {
    if n > 0 {
      var x := found[n - 1];
      PassedMessage(stores, now, limitDays, found, passes, env, n - 1, m);
      SelectedMessages(stores[0], now, limitDays, found, n - 1);
      assert PassedBy(stores[n - 1], stores[n - 1 + 1], x, env(n - 1), passes[n - 1]);
      PassMessage(stores[n - 1], x, passes[n - 1], m);
      FannedMore(stores[0], now, limitDays, found, passes, n - 1, m);
      if FannedOut(found, passes, n - 1, m) {
        assert x.messageId != m;
      } else if x.messageId == m && passes[n - 1].Fanned? && x.queues != [] {
        assert !stores[n - 1].messages[m].deleted;
      }
    }
  }

  /** Of the messages a run finds, exactly those it did not fan out can be found again. */
  lemma FoundAgainExactly(stores: seq<Store>, now: Time, limitDays: int, found: seq<Selected>, passes: seq<Pass>,
                          env: nat -> EnqueueEnv, later: Time, m: Id)
    requires Chain(stores, found, passes, env) && SelectsAll(stores[0], now, limitDays, found)
    requires |passes| == |found| && m in stores[0].messages
    ensures var after := stores[|found|].messages;
            m in after && (EligibleAt(after[m], later, limitDays) <==>
                             EligibleAt(stores[0].messages[m], later, limitDays) && !FannedOut(found, passes, |found|, m))
  {
    PassedMessage(stores, now, limitDays, found, passes, env, |found|, m);
  }
}
