/** Every step of publishers, fan-outs and the dispatcher keeps the pipeline's invariant. */
module PipelineSteps {
  import opened Entities
  import opened Tables
  import opened Publish
  import opened Goroutines
  import opened Pipeline
  import opened PipelineInvariant
  import opened PipelineTransactions

  /******* Processes *******/

  /** A process keeps its invariant while its own queues' tries and records stay. */
  lemma ProcFrame(db: Store, now: Time, tries: map<Id, seq<Try>>, log: seq<Entry>,
                  tries': map<Id, seq<Try>>, log': seq<Entry>, pid: Pid, p: Proc)
    requires ProcInv(db, now, tries, log, pid, p)
    requires forall i :: 0 <= i < |p.f.queues| ==> SameHistory(tries, log, tries', log', p.f.queues[i].id)
    ensures ProcInv(db, now, tries', log', pid, p)
  {
  }

  ghost predicate SameHistory(tries: map<Id, seq<Try>>, log: seq<Entry>, tries': map<Id, seq<Try>>, log': seq<Entry>,
                              q: Id) {
    TriesFor(tries', q) == TriesFor(tries, q) && (Recorded(log', q) ==> Recorded(log, q))
  }

  /** One process is put in place of whatever `pid` ran before. */
  lemma SetProc(s: State, pid: Pid, p: Proc)
    requires Inv(s) && ProcInv(s.db, s.now, s.tries, s.log, pid, p)
    requires pid == Cron ==> Busy(s.procs) == Some(p.messageId)
    ensures Inv(s.(procs := s.procs[pid := p]))
  {
  }

  /** The enqueueing process is gone, and the dispatcher's run with it. */
  lemma DispatcherStops(s: State, pid: Pid)
    requires Inv(s)
    ensures Inv(DoProcCrash(s, pid))
  {
  }

  /** A publisher gives up, or the dispatcher goes on with its next message. */
  lemma ProcEnds(s: State, pid: Pid)
    requires Inv(s)
    ensures Inv(s.(procs := s.procs - {pid}))
  {
  }

  /******* Publishing *******/

  lemma PublishDb(s: State, mid: Id, m: Message, b: Batch, c: Common)
    requires Inv(s) && IsBatch(b, c) && c.messageId == mid && Fresh(s.db, mid, b)
    requires m.status == (if m.scheduledAt.Some? then Scheduled else Pending) && !m.deleted
    requires InWindow(m.createdAt, mid) && InWindow(c.at, mid)
    ensures var db' := CreateTx(s.db, mid, m, b);
            Inv(s.(db := db')) && Evolves(s.db, db') && RefsInv(db', mid, Refs(b))
            && AllUntouched(s.tries, s.log, Refs(b)) && db'.messages[mid] == m
  {
    var db' := CreateTx(s.db, mid, m, b);
    CreateAdds(s.db, mid, m, b, c);
    CreatePopulated(s.db, mid, m, b, c);
    AddsEvolves(s.db, db', mid, m, c);
    AddsKeeps(s.db, db', mid, m, c);
    FreshRefs(s, mid, m, b, c);
    AddsHandled(s.db, db', s.log, s.workers, mid, m, c);
    EvolveInv(s, db');
  }

  lemma AddsHandled(a: Store, b: Store, log: seq<Entry>, workers: map<nat, Worker>, mid: Id, m: Message, c: Common)
    requires Adds(a, b, mid, m, c) && WorkersInv(a, log, workers)
    ensures forall w :: w in workers && workers[w].stage != Fetched ==>
              workers[w].queueId in b.queues && Handled(b.queues[workers[w].queueId].status)
  {
  }

  lemma FreshRefs(s: State, mid: Id, m: Message, b: Batch, c: Common)
    requires LogInv(s.db, s.now, s.log) && TriesInv(s.db, s.tries)
    requires IsBatch(b, c) && c.messageId == mid && Fresh(s.db, mid, b)
    ensures RefsInv(CreateTx(s.db, mid, m, b), mid, Refs(b)) && AllUntouched(s.tries, s.log, Refs(b))
  {
    forall i | 0 <= i < |b.queues|
      ensures CreateTx(s.db, mid, m, b).queues[b.queues[i].0].messageId == mid
      ensures Untouched(s.tries, s.log, b.queues[i].0)
    {
      RowMapHas(b.queues, i);
      FreshUntouched(s.db, s.now, s.tries, s.log, b.queues[i].0);
    }
  }

  lemma FreshUntouched(db: Store, now: Time, tries: map<Id, seq<Try>>, log: seq<Entry>, q: Id)
    requires LogInv(db, now, log) && TriesInv(db, tries) && q !in db.queues
    ensures Untouched(tries, log, q)
  {
  }

  lemma PublishStep(s: State, mid: Id, m: Message, receivers: seq<Bytes>, at: Time, d: Draws)
    requires Inv(s) && CanPublish(s, mid, m, receivers, at, d)
    ensures Inv(DoPublish(s, mid, m, receivers, at, d))
    ensures Evolves(s.db, DoPublish(s, mid, m, receivers, at, d).db)
  {
    var b, c := BatchOf(s, mid, m, receivers, at, d), CommonOf(mid, m, at);
    PreparedIsBatch(receivers, LimitOf(s.config, m.mtype), c, s.config.aead, d);
    PublishDb(s, mid, m, b, c);
    if m.scheduledAt.None? {
      StartConsistent(TopicOf(m.mtype), Refs(b));
      SetProc(s.(db := CreateTx(s.db, mid, m, b)), Publisher(mid), Proc(mid, Start(TopicOf(m.mtype), Refs(b)), Before));
    }
  }

  /******* The two batch transactions *******/

  lemma ProcessDb(db: Store, mid: Id, queues: seq<QueueRef>)
    requires DbInv(db) && RefsInv(db, mid, queues) && mid in db.messages
    ensures var db' := BatchUpdate(db, Ids(queues), MessageIds(queues), Process, map[]);
            DbInv(db') && Evolves(db, db') && db'.messages[mid].status != Scheduled
  {
    var ids, mids := Ids(queues), MessageIds(queues);
    BatchUpdateEvolves(db, ids, mids, Process, map[]);
    assert forall q :: q in ids ==> db.queues[q].messageId == mid;
    assert queues[0].messageId in mids;
    BatchUpdateKeeps(db, ids, mids, Process, map[]);
    UpdatePopulated(db, BatchUpdate(db, ids, mids, Process, map[]));
    assert MessageOk(mid, db.messages[mid]);
  }

  /** No handler works on a queue that has not been sent yet, so the first batch disturbs none. */
  lemma ProcessHandled(db: Store, tries: map<Id, seq<Try>>, log: seq<Entry>, workers: map<nat, Worker>,
                       queues: seq<QueueRef>, mids: set<Id>)
    requires WorkersInv(db, log, workers) && AllUntouched(tries, log, queues)
    ensures var db' := BatchUpdate(db, Ids(queues), mids, Process, map[]);
            forall w :: w in workers && workers[w].stage != Fetched ==>
              workers[w].queueId in db'.queues && Handled(db'.queues[workers[w].queueId].status)
  {
  }

  /** The first batch commits. */
  lemma ProcessCommits(s: State, pid: Pid)
    requires Inv(s) && pid in s.procs && s.procs[pid].stage == Before
    ensures var f := s.procs[pid].f;
            var db' := BatchUpdate(s.db, Ids(f.queues), MessageIds(f.queues), Process, map[]);
            Inv(s.(db := db')) && Evolves(s.db, db')
            && ProcInv(db', s.now, s.tries, s.log, pid, s.procs[pid].(stage := Fanning))
  {
    var p := s.procs[pid];
    var db' := BatchUpdate(s.db, Ids(p.f.queues), MessageIds(p.f.queues), Process, map[]);
    assert ProcInv(s.db, s.now, s.tries, s.log, pid, p);
    ProcessDb(s.db, p.messageId, p.f.queues);
    ProcessHandled(s.db, s.tries, s.log, s.workers, p.f.queues, MessageIds(p.f.queues));
    EvolveInv(s, db');
    ProcessStarts(db', s.now, s.tries, s.log, pid, p);
  }

  lemma ProcessStep(s: State, pid: Pid, commits: bool)
    requires Inv(s) && pid in s.procs && s.procs[pid].stage == Before
    ensures Inv(DoProcessTx(s, pid, commits)) && Evolves(s.db, DoProcessTx(s, pid, commits).db)
  {
    if !commits {
      EvolvesSame(s.db);
      ProcEnds(s, pid);
    } else {
      var p := s.procs[pid];
      ProcessCommits(s, pid);
      SetProc(s.(db := BatchUpdate(s.db, Ids(p.f.queues), MessageIds(p.f.queues), Process, map[])), pid,
              p.(stage := Fanning));
    }
  }

  lemma EvolvesSame(db: Store)
    ensures Evolves(db, db)
  {
  }

  /** After the first batch the process may fan out: its message is no longer scheduled. */
  lemma ProcessStarts(db: Store, now: Time, tries: map<Id, seq<Try>>, log: seq<Entry>, pid: Pid, p: Proc)
    requires ProcInv(db, now, tries, log, pid, p) && p.stage == Before
    requires db.messages[p.messageId].status != Scheduled
    ensures ProcInv(db, now, tries, log, pid, p.(stage := Fanning))
  {
  }

  lemma JoinedKeys(f: FanOut)
    requires Consistent(f) && f.pc.Joined?
    ensures f.successes.Keys == f.traceIds.Keys <= Ids(f.queues)
  {
  }

  lemma EnqueuedDb(db: Store, ids: set<Id>, mids: set<Id>, traces: map<Id, Id>)
    requires DbInv(db) && traces.Keys == ids
    requires forall q :: q in ids && Known(db, q) ==> MessageOf(db, q).status != Scheduled
    ensures var db' := BatchUpdate(db, ids, mids, Enqueued, traces);
            DbInv(db') && Evolves(db, db') && KeepsHandled(db, db')
  {
    BatchUpdateEvolves(db, ids, mids, Enqueued, traces);
    BatchUpdateKeeps(db, ids, mids, Enqueued, traces);
    UpdatePopulated(db, BatchUpdate(db, ids, mids, Enqueued, traces));
  }

  lemma RefsNotWaiting(db: Store, mid: Id, queues: seq<QueueRef>, q: Id)
    requires RefsInv(db, mid, queues) && mid in db.messages && db.messages[mid].status != Scheduled && q in Ids(queues)
    ensures Known(db, q) && MessageOf(db, q).status != Scheduled
  {
  }

  /** One transaction that disturbs no handler. */
  lemma TxStep(s: State, db: Store)
    requires Inv(s) && DbInv(db) && Evolves(s.db, db) && KeepsHandled(s.db, db)
    ensures Inv(s.(db := db))
  {
    forall w | w in s.workers && s.workers[w].stage != Fetched
      ensures s.workers[w].queueId in db.queues && Handled(db.queues[s.workers[w].queueId].status)
    {
      assert WorkerInv(s.db, s.log, s.workers[w]);
    }
    EvolveInv(s, db);
  }

  lemma EnqueuedStep(s: State, pid: Pid, commits: bool)
    requires Inv(s) && pid in s.procs && s.procs[pid].stage == Fanning && s.procs[pid].f.pc.Joined?
    ensures Inv(DoEnqueuedTx(s, pid, commits)) && Evolves(s.db, DoEnqueuedTx(s, pid, commits).db)
  {
    var p := s.procs[pid];
    ProcEnds(s, pid);
    if commits {
      assert ProcInv(s.db, s.now, s.tries, s.log, pid, p);
      JoinedKeys(p.f);
      forall q | q in p.f.successes ensures Known(s.db, q) && MessageOf(s.db, q).status != Scheduled {
        RefsNotWaiting(s.db, p.messageId, p.f.queues, q);
      }
      EnqueuedDb(s.db, p.f.successes.Keys, ValuesOf(p.f.successes), p.f.traceIds);
      TxStep(s.(procs := s.procs - {pid}), BatchUpdate(s.db, p.f.successes.Keys, ValuesOf(p.f.successes),
                                                            Enqueued, p.f.traceIds));
    } else {
      EvolvesSame(s.db);
    }
  }

  /******* Moves of the goroutines *******/

  function LogAfter(s: State, pid: Pid, mv: Move): seq<Entry>
    requires pid in s.procs && CanMove(s.procs[pid].f, mv)
  {
    DoFanOutMove(s, pid, mv).log
  }

  function TriesAfter(s: State, pid: Pid, mv: Move): map<Id, seq<Try>>
    requires pid in s.procs && CanMove(s.procs[pid].f, mv)
  {
    DoFanOutMove(s, pid, mv).tries
  }

  /** A move touches the history of at most one queue, and that queue is the process's own. */
  lemma MoveHistory(s: State, pid: Pid, mv: Move, q: Id)
    requires pid in s.procs && CanMove(s.procs[pid].f, mv)
    requires forall i :: 0 <= i < |s.procs[pid].f.queues| ==> s.procs[pid].f.queues[i].id != q
    ensures SameHistory(s.tries, s.log, TriesAfter(s, pid, mv), LogAfter(s, pid, mv), q)
  {
  }

  lemma MoveLog(s: State, pid: Pid, mv: Move)
    requires LogInv(s.db, s.now, s.log) && pid in s.procs && CanMove(s.procs[pid].f, mv)
    requires ProcInv(s.db, s.now, s.tries, s.log, pid, s.procs[pid]) && s.procs[pid].stage == Fanning
    ensures LogInv(s.db, s.now, LogAfter(s, pid, mv))
  {
  }

  /** The tries of every queue of a fanning process are those of its goroutine, before and after a move. */
  lemma MoveTries(s: State, pid: Pid, mv: Move)
    requires pid in s.procs && CanMove(s.procs[pid].f, mv)
    requires Consistent(s.procs[pid].f) && TriesMatch(s.tries, s.procs[pid].f)
    ensures TriesMatch(TriesAfter(s, pid, mv), DoMove(s.procs[pid].f, mv))
    ensures IsSend(s.procs[pid].f, mv) ==> WithinRetry(TriesFor(TriesAfter(s, pid, mv), s.procs[pid].f.queues[mv.i].id))
  {
    var f := s.procs[pid].f;
    match mv
    case Main =>
      if f.pc.Acquiring? { assert f.gs[f.next].Idle?; }
    case Go(i, c) =>
      AdvanceGood(f.gs[i], c);
      assert DoMove(f, mv).gs == f.gs[i := Advance(f.gs[i], c)];
  }

  lemma MoveTriesInv(s: State, pid: Pid, mv: Move)
    requires TriesInv(s.db, s.tries) && pid in s.procs && CanMove(s.procs[pid].f, mv)
    requires ProcInv(s.db, s.now, s.tries, s.log, pid, s.procs[pid]) && s.procs[pid].stage == Fanning
    ensures TriesInv(s.db, TriesAfter(s, pid, mv))
  {
  }

  /** Two processes never work on the same message. */
  lemma OtherQueues(db: Store, now: Time, tries: map<Id, seq<Try>>, log: seq<Entry>, pid: Pid, p: Proc, other: Pid,
                    o: Proc)
    requires pid != other && ProcInv(db, now, tries, log, pid, p) && ProcInv(db, now, tries, log, other, o)
    ensures forall i, j :: 0 <= i < |p.f.queues| && 0 <= j < |o.f.queues| ==> p.f.queues[i].id != o.f.queues[j].id
  {
  }

  lemma MoveProcs(s: State, pid: Pid, mv: Move)
    requires ProcsInv(s.db, s.now, s.tries, s.log, s.procs) && pid in s.procs
    requires s.procs[pid].stage == Fanning && CanMove(s.procs[pid].f, mv)
    ensures ProcsInv(s.db, s.now, TriesAfter(s, pid, mv), LogAfter(s, pid, mv), DoFanOutMove(s, pid, mv).procs)
  {
    var p, procs' := s.procs[pid], DoFanOutMove(s, pid, mv).procs;
    assert ProcInv(s.db, s.now, s.tries, s.log, pid, p);
    forall o | o in procs' ensures ProcInv(s.db, s.now, TriesAfter(s, pid, mv), LogAfter(s, pid, mv), o, procs'[o]) {
      if o == pid {
        MoveTries(s, pid, mv);
        MoveConsistent(p.f, mv);
      } else {
        OtherUnmoved(s, pid, mv, o);
      }
    }
  }

  lemma OtherUnmoved(s: State, pid: Pid, mv: Move, o: Pid)
    requires ProcsInv(s.db, s.now, s.tries, s.log, s.procs) && pid in s.procs && o in s.procs && o != pid
    requires CanMove(s.procs[pid].f, mv)
    ensures ProcInv(s.db, s.now, TriesAfter(s, pid, mv), LogAfter(s, pid, mv), o, s.procs[o])
  {
    OtherQueues(s.db, s.now, s.tries, s.log, pid, s.procs[pid], o, s.procs[o]);
    forall i | 0 <= i < |s.procs[o].f.queues|
      ensures SameHistory(s.tries, s.log, TriesAfter(s, pid, mv), LogAfter(s, pid, mv), s.procs[o].f.queues[i].id)
    {
      MoveHistory(s, pid, mv, s.procs[o].f.queues[i].id);
    }
    ProcFrame(s.db, s.now, s.tries, s.log, TriesAfter(s, pid, mv), LogAfter(s, pid, mv), o, s.procs[o]);
  }

  lemma MoveTodo(s: State, pid: Pid, mv: Move)
    requires TodoInv(s.db, s.now, s.tries, s.log, Busy(s.procs), s.todo) && pid in s.procs
    requires ProcInv(s.db, s.now, s.tries, s.log, pid, s.procs[pid]) && CanMove(s.procs[pid].f, mv)
    ensures TodoInv(s.db, s.now, TriesAfter(s, pid, mv), LogAfter(s, pid, mv), Busy(s.procs), s.todo)
  {
    var p := s.procs[pid];
    if s.todo.Some? {
      forall k | 0 <= k < |s.todo.value|
        ensures SelectedInv(s.db, s.now, TriesAfter(s, pid, mv), LogAfter(s, pid, mv), s.todo.value[k])
      {
        var x := s.todo.value[k];
        assert SelectedInv(s.db, s.now, s.tries, s.log, x) && x.messageId != p.messageId;
        forall i | 0 <= i < |x.queues| ensures Untouched(TriesAfter(s, pid, mv), LogAfter(s, pid, mv), x.queues[i].id) {
          assert Untouched(s.tries, s.log, x.queues[i].id);
          MoveHistory(s, pid, mv, x.queues[i].id);
        }
      }
    }
  }

  lemma MoveWorkers(s: State, pid: Pid, mv: Move)
    requires WorkersInv(s.db, s.log, s.workers) && pid in s.procs && CanMove(s.procs[pid].f, mv)
    ensures WorkersInv(s.db, LogAfter(s, pid, mv), s.workers)
  {
    forall w | w in s.workers ensures WorkerInv(s.db, LogAfter(s, pid, mv), s.workers[w]) {
      assert WorkerInv(s.db, s.log, s.workers[w]);
      var i :| 0 <= i < |s.log| && s.log[i].record.queueId == s.workers[w].queueId && s.log[i].record.topic ==
        s.workers[w].topic;
      assert LogAfter(s, pid, mv)[i] == s.log[i];
    }
  }

  lemma FanOutStep(s: State, pid: Pid, mv: Move)
    requires Inv(s) && pid in s.procs && s.procs[pid].stage == Fanning && CanMove(s.procs[pid].f, mv)
    ensures Inv(DoFanOutMove(s, pid, mv))
  {
    assert ProcInv(s.db, s.now, s.tries, s.log, pid, s.procs[pid]);
    MoveLog(s, pid, mv);
    MoveTriesInv(s, pid, mv);
    MoveProcs(s, pid, mv);
    MoveTodo(s, pid, mv);
    MoveWorkers(s, pid, mv);
    assert Busy(DoFanOutMove(s, pid, mv).procs) == Busy(s.procs);
  }

  /******* The dispatcher *******/

  lemma WaitingUntouched(db: Store, now: Time, tries: map<Id, seq<Try>>, log: seq<Entry>, q: Id)
    requires LogInv(db, now, log) && TriesInv(db, tries)
    requires Known(db, q) && MessageOf(db, q).status == Scheduled
    ensures Untouched(tries, log, q)
  {
  }

  /** A live message has a live queue for the preload to find. */
  lemma LoadsSome(db: Store, mid: Id, queues: seq<QueueRef>)
    requires DbInv(db) && mid in db.messages && !db.messages[mid].deleted && LoadsQueues(db, mid, queues)
    ensures queues != []
  {
    assert HasQueue(db, mid);
    var q :| q in db.queues && db.queues[q].messageId == mid;
    assert QueueOk(db.queues[q], MessageOf(db, q));
    assert q in Ids(queues);
  }

  lemma SelectedGood(s: State, x: Selected)
    requires Inv(s) && x.messageId in s.db.messages
    requires Eligible(s, s.db.messages[x.messageId]) && x.mtype == s.db.messages[x.messageId].mtype
    requires LoadsQueues(s.db, x.messageId, x.queues)
    ensures SelectedInv(s.db, s.now, s.tries, s.log, x)
  {
    LoadsSome(s.db, x.messageId, x.queues);
    forall i | 0 <= i < |x.queues| ensures Untouched(s.tries, s.log, x.queues[i].id) {
      WaitingUntouched(s.db, s.now, s.tries, s.log, x.queues[i].id);
    }
  }

  lemma SelectStep(s: State, found: seq<Selected>)
    requires Inv(s) && s.todo.None? && IsSelection(s, found)
    ensures Inv(s.(todo := Some(found)))
  {
    forall i | 0 <= i < |found| ensures SelectedInv(s.db, s.now, s.tries, s.log, found[i]) {
      SelectedGood(s, found[i]);
    }
  }

  lemma DispatchNextProc(s: State)
    requires s.todo.Some? && s.todo.value != []
    requires SelectedInv(s.db, s.now, s.tries, s.log, s.todo.value[0])
    ensures ProcInv(s.db, s.now, s.tries, s.log, Cron, DoDispatchNext(s).procs[Cron])
  {
    StartConsistent(TopicOf(s.todo.value[0].mtype), s.todo.value[0].queues);
  }

  lemma DispatchNextTodo(s: State)
    requires s.todo.Some? && s.todo.value != []
    requires TodoInv(s.db, s.now, s.tries, s.log, Busy(s.procs), s.todo)
    ensures var s' := DoDispatchNext(s);
            TodoInv(s.db, s.now, s.tries, s.log, Busy(s'.procs), s'.todo)
  {
  }

  lemma DispatchNextStep(s: State)
    requires Inv(s) && s.todo.Some? && s.todo.value != [] && Cron !in s.procs
    ensures Inv(DoDispatchNext(s))
  {
    DispatchNextProc(s);
    DispatchNextTodo(s);
  }
}
