/** The service's methods as runs of the pipeline: publishing, enqueueing, cancelling. */
module ServiceRuns {
  import opened Entities
  import opened Tables
  import opened Publish
  import opened Goroutines
  import opened FanOutRefinement
  import opened FanOutCompleteness
  import opened Enqueue
  import opened Publisher
  import opened Pipeline
  import opened PipelineInvariant
  import opened PipelineTheorems
  import opened Cancellation
  import opened Handlers

  /** A publish call that stores its rows is one step, and an unscheduled message's enqueue call then begins. */
  lemma PublishRefines(s: State, req: PublishRequest, mid: Id, ids: nat -> Id, start: nat, env: PublishEnv)
    requires Increasing(ids)
    requires InWindow(env.createdAt, mid) && InWindow(env.rowsAt, mid)
    requires var limit := LimitOf(s.config, req.mtype);
             Stores(s.db, req, limit, mid, RowsOf(req, limit, s.config.aead, mid, ids, start, env), env.faults)
    ensures var m, b := MessageRow(req, env.createdAt),
            RowsOf(req, LimitOf(s.config, req.mtype), s.config.aead, mid, ids, start, env);
            var d := DrawsFrom(ids, start, s.config.aead, env.random, env.hash);
            var s' := Step(s, PublishMessage(mid, m, req.receivers, env.rowsAt, d));
            && m.mtype == req.mtype && m.data == req.data && m.scheduledAt == req.scheduledAt && m.createdAt == env.createdAt
            && m.status == (if req.scheduledAt.Some? then Scheduled else Pending)
            && DistinctKeys(b.queues) && DistinctKeys(b.targets) && s'.db == CreateTx(s.db, mid, m, b) && s'.log == s.log
            && (req.scheduledAt.Some? ==> s'.procs == s.procs)
            && (req.scheduledAt.None? ==>
                  s'.procs == s.procs[Publisher(mid) := Proc(mid, Start(TopicOf(req.mtype), Refs(b)), Before)])
  {
    var d := DrawsFrom(ids, start, s.config.aead, env.random, env.hash);
    assert Increasing(d.ids);
    RowsDistinct(req, LimitOf(s.config, req.mtype), s.config.aead, mid, ids, start, env);
    assert BatchOf(s, mid, MessageRow(req, env.createdAt), req.receivers, env.rowsAt, d) ==
           RowsOf(req, LimitOf(s.config, req.mtype), s.config.aead, mid, ids, start, env);
  }

  ghost predicate AllCanceled(db: Store, mid: Id) {
    && mid in db.messages && db.messages[mid].deleted && db.messages[mid].status == Canceled
    && (forall q :: q in db.queues && db.queues[q].messageId == mid ==>
              db.queues[q].deleted && db.queues[q].status == Canceled)
    && (forall t :: t in db.targets && db.targets[t].messageId == mid ==>
              db.targets[t].deleted && db.targets[t].status == Canceled)
  }

  /**
    Whatever a cancel call does to the tables, a run of the pipeline does.  A call that reports success has
    canceled the message with every one of its queues and targets, for all that may follow; any other has
    changed nothing.
   */
  lemma CancelRefines(s: State, messageId: Option<Id>, queryFails: bool, faults: set<nat>, after: Store,
                      r: CancelResult, more: seq<Action>)
    requires Reachable(s) && CancelOutcome(s.db, after, messageId, queryFails, faults, r)
    ensures !r.Done? ==> after == s.db
    ensures r.Done? ==>
              && messageId.Some?
              && var s' := Run(s, [CancelCheck(messageId.value), CancelCommit(messageId.value)]);
              && s'.db == after && Reachable(s')
              && AllCanceled(Run(s', more).db, messageId.value)
  {
    if r.Done? {
      var mid := messageId.value;
      var s' := Run(s, [CancelCheck(mid), CancelCommit(mid)]);
      RunTwo(s, CancelCheck(mid), CancelCommit(mid));
      ReachableMore(s, [CancelCheck(mid), CancelCommit(mid)]);
      assert s'.db.messages[mid].deleted;
      ReachableInv(s');
      RunFrom(s', more);
      ReachableMore(s', more);
      CanceledAll(Run(s', more), mid);
    }
  }

  lemma CanceledAll(s: State, mid: Id)
    requires Reachable(s) && mid in s.db.messages && s.db.messages[mid].deleted
    ensures AllCanceled(s.db, mid)
  {
    ReachableInv(s);
    CancelCoherence(s, mid);
    forall q | q in s.db.queues && s.db.queues[q].messageId == mid ensures s.db.queues[q].status == Canceled {
      assert QueueOk(s.db.queues[q], MessageOf(s.db, q));
    }
    forall t | t in s.db.targets && s.db.targets[t].messageId == mid ensures s.db.targets[t].status == Canceled {
      assert TargetOk(s.db.targets[t], QueueOf(s.db, t), MessageOf(s.db, s.db.targets[t].queueId));
    }
  }

  function Moves(pid: Pid, moves: seq<Move>): seq<Action> {
    seq(|moves|, i requires 0 <= i < |moves| => FanOutMove(pid, moves[i]))
  }

  /** In the pipeline a fan-out goes where its schedule leads, and its records reach the log. */
  lemma {:induction false} FanOutRun(s: State, pid: Pid, moves: seq<Move>)
    requires pid in s.procs && s.procs[pid].stage == Fanning
    ensures var s', (f, log) := Run(s, Moves(pid, moves)), Schedule(s.procs[pid].f, moves);
            s' == s.(log := s.log + Stamp(log, s.now), procs := s.procs[pid := s.procs[pid].(f := f)], tries := s'.tries)
    decreases |moves|
  {
    if moves == [] {
      assert s.procs[pid := s.procs[pid].(f := Schedule(s.procs[pid].f, moves).0)] == s.procs;
      assert s.log + Stamp([], s.now) == s.log;
    } else {
      var n := |moves| - 1;
      FanOutRun(s, pid, moves[..n]);
      assert Moves(pid, moves)[..n] == Moves(pid, moves[..n]);
      OneMoveRun(Run(s, Moves(pid, moves[..n])), pid, moves[n]);
    }
  }

  lemma OneMoveRun(s: State, pid: Pid, mv: Move)
    requires pid in s.procs && s.procs[pid].stage == Fanning
    ensures var s', f := Step(s, FanOutMove(pid, mv)), s.procs[pid].f;
            s' == s.(log := s.log + (if CanMove(f, mv) then Stamp(Emitted(f, mv), s.now) else []),
                     procs := s.procs[pid := s.procs[pid].(f := if CanMove(f, mv) then DoMove(f, mv) else f)],
                     tries := s'.tries)
  {
  }

  lemma RunAround(s: State, a: Action, middle: seq<Action>, b: Action)
    ensures Run(s, [a] + middle + [b]) == Step(Run(Step(s, a), middle), b)
  {
    assert [a][..0] == [];
    assert Run(s, [a]) == Step(Run(s, []), a);
    RunOn(s, [a], middle);
    var all := [a] + middle + [b];
    assert all[..|all| - 1] == [a] + middle;
  }

  lemma FirstBatch(s: State, pid: Pid)
    requires pid in s.procs && s.procs[pid].stage == Before
    ensures var p := s.procs[pid];
            Step(s, ProcessTx(pid, true)) ==
            s.(db := BatchUpdate(s.db, Ids(p.f.queues), MessageIds(p.f.queues), Process, map[]),
               procs := s.procs[pid := p.(stage := Fanning)])
  {
  }

  lemma LastBatch(s: State, pid: Pid, commits: bool)
    requires pid in s.procs && s.procs[pid].stage == Fanning && s.procs[pid].f.pc.Joined?
    ensures var f := s.procs[pid].f;
            Step(s, EnqueuedTx(pid, commits)) ==
            s.(db := if commits
                     then BatchUpdate(s.db, f.successes.Keys, ValuesOf(f.successes), Enqueued, f.traceIds) else s.db,
               procs := s.procs - {pid})
  {
  }

  lemma GoneAgain(procs: map<Pid, Proc>, pid: Pid, a: Proc, b: Proc)
    ensures procs[pid := a][pid := b] - {pid} == procs - {pid}
  {
  }

  /**
    Whatever a whole enqueue call does, some run of the pipeline does: same tables, and the same
    multiset of records appended to the log.
   */
  lemma EnqueueRefines(s: State, pid: Pid, outcomes: seq<Outcome>, second: set<nat>)
      returns (actions: seq<Action>, records: seq<Record>)
    requires pid in s.procs && s.procs[pid].stage == Before
    requires var f := s.procs[pid].f;
             f == Start(f.topic, f.queues) && DistinctIds(f.queues) && |outcomes| == |f.queues|
    requires forall k :: 0 <= k < |outcomes| ==> GoodOutcome(outcomes[k])
    ensures var s', f := Run(s, actions), s.procs[pid].f;
            && s' == s.(db := AfterEnqueue(s.db, f.topic, f.queues, outcomes, second),
                        log := s.log + Stamp(records, s.now),
                        procs := s.procs - {pid}, tries := s'.tries)
            && multiset(records) == multiset(Sequential(f.topic, f.queues, outcomes).log)
  {
    var p := s.procs[pid];
    var moves := EveryOutcomeReached(p.f.topic, p.f.queues, outcomes);
    var (f, log) := Schedule(p.f, moves);
    var commits := Commits(Sequential(p.f.topic, p.f.queues, outcomes).traceIds, second);
    FanOutRefines(p.f.topic, p.f.queues, moves, s.db);
    assert Outcomes(f) == outcomes;
    FirstBatch(s, pid);
    FanOutRun(Step(s, ProcessTx(pid, true)), pid, moves);
    LastBatch(Run(Step(s, ProcessTx(pid, true)), Moves(pid, moves)), pid, commits);
    GoneAgain(s.procs, pid, p.(stage := Fanning), p.(stage := Fanning, f := f));
    RunAround(s, ProcessTx(pid, true), Moves(pid, moves), EnqueuedTx(pid, commits));
    actions, records := [ProcessTx(pid, true)] + Moves(pid, moves) + [EnqueuedTx(pid, commits)], log;
  }
}
