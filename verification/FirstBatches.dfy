/** A message is fanned out at most once: its first batch commits at most once over any run. */
module FirstBatches {
  import opened Entities
  import opened Goroutines
  import opened Pipeline
  import opened PipelineInvariant
  import opened PipelineRuns
  import opened PipelineTheorems

  /** Once out of `scheduled`, a message is never eligible for dispatch again, whatever comes of its fan-out. */
  lemma NeverEligibleAgain(s: State, more: seq<Action>, m: Id)
    requires Reachable(s) && m in s.db.messages && s.db.messages[m].status != Scheduled
    ensures var s' := Run(s, more);
            m in s'.db.messages && s'.db.messages[m].status != Scheduled && !Eligible(s', s'.db.messages[m])
  {
    ReachableInv(s);
    RunFrom(s, more);
    assert MessageEvolves(s.db.messages[m], Run(s, more).db.messages[m]);
  }

  /** The step commits the first batch of an enqueue call for the message. */
  ghost predicate CommitsFirst(s: State, a: Action, m: Id) {
    Enabled(s, a) && a.ProcessTx? && a.commits && s.procs[a.pid].messageId == m
  }

  ghost function FirstBatchesOf(s: State, actions: seq<Action>, m: Id): nat {
    if actions == [] then 0
    else
      var n := |actions| - 1;
      FirstBatchesOf(s, actions[..n], m) + if CommitsFirst(Run(s, actions[..n]), actions[n], m) then 1 else 0
  }

  /** No enqueue call for the message is still before its first batch, and none can begin. */
  ghost predicate Settled(s: State, m: Id) {
    && m in s.db.messages && s.db.messages[m].status != Scheduled
    && (forall pid :: pid in s.procs && s.procs[pid].messageId == m ==> s.procs[pid].stage == Fanning)
    && (s.todo.Some? ==> forall i :: 0 <= i < |s.todo.value| ==> s.todo.value[i].messageId != m)
  }

  lemma SettledStays(s: State, a: Action, m: Id)
    requires Settled(s, m) && Inv(s)
    ensures Settled(Step(s, a), m) && !CommitsFirst(s, a, m)
  {
    StepKeeps(s, a);
    assert MessageEvolves(s.db.messages[m], Step(s, a).db.messages[m]);
    SettledProcs(s, a, m);
  }

  lemma SettledProcs(s: State, a: Action, m: Id)
    requires Settled(s, m)
    ensures var s' := Step(s, a);
            && (forall pid :: pid in s'.procs && s'.procs[pid].messageId == m ==> s'.procs[pid].stage == Fanning)
            && (s'.todo.Some? ==> forall i :: 0 <= i < |s'.todo.value| ==> s'.todo.value[i].messageId != m)
  {
  }

  /** Two enqueue calls of one message would be the same process, and it would not be waiting for dispatch too. */
  lemma OnlyCall(s: State, pid: Pid)
    requires Inv(s) && pid in s.procs
    ensures forall other :: other in s.procs && s.procs[other].messageId == s.procs[pid].messageId ==> other == pid
    ensures s.todo.Some? ==> forall i :: 0 <= i < |s.todo.value| ==> s.todo.value[i].messageId != s.procs[pid].messageId
  {
    assert ProcInv(s.db, s.now, s.tries, s.log, pid, s.procs[pid]);
    forall other | other in s.procs && s.procs[other].messageId == s.procs[pid].messageId ensures other == pid {
      assert ProcInv(s.db, s.now, s.tries, s.log, other, s.procs[other]);
    }
    if s.todo.Some? {
      forall i | 0 <= i < |s.todo.value| ensures s.todo.value[i].messageId != s.procs[pid].messageId {
        assert SelectedInv(s.db, s.now, s.tries, s.log, s.todo.value[i]);
      }
    }
  }

  /** The first batch takes the message out of `scheduled`, unless it is canceled already. */
  lemma FirstBatchMoves(s: State, pid: Pid)
    requires Inv(s) && pid in s.procs && s.procs[pid].stage == Before
    ensures var s' := Step(s, ProcessTx(pid, true));
            s.procs[pid].messageId in s'.db.messages && s'.db.messages[s.procs[pid].messageId].status != Scheduled
  {
    var p := s.procs[pid];
    assert ProcInv(s.db, s.now, s.tries, s.log, pid, p);
    assert p.f.queues[0].messageId in MessageIds(p.f.queues);
    assert MessageOk(p.messageId, s.db.messages[p.messageId]);
  }

  lemma FirstBatchProcs(s: State, pid: Pid)
    requires pid in s.procs && s.procs[pid].stage == Before
    requires forall other :: other in s.procs && s.procs[other].messageId == s.procs[pid].messageId ==> other == pid
    ensures var s', m := Step(s, ProcessTx(pid, true)), s.procs[pid].messageId;
            && s'.todo == s.todo
            && forall other :: other in s'.procs && s'.procs[other].messageId == m ==> s'.procs[other].stage == Fanning
  {
  }

  lemma Settles(s: State, pid: Pid)
    requires Inv(s) && pid in s.procs && s.procs[pid].stage == Before
    ensures Settled(Step(s, ProcessTx(pid, true)), s.procs[pid].messageId)
  {
    FirstBatchMoves(s, pid);
    OnlyCall(s, pid);
    FirstBatchProcs(s, pid);
  }

  /** Over any run a message's first batch commits at most once, so it is fanned out at most once. */
  lemma {:induction false} AtMostOneFirstBatch(s: State, more: seq<Action>, m: Id)
    requires Reachable(s)
    ensures FirstBatchesOf(s, more, m) <= 1
    ensures FirstBatchesOf(s, more, m) == 1 ==> Settled(Run(s, more), m)
    decreases |more|
  {
    if more != [] {
      var n := |more| - 1;
      var before := Run(s, more[..n]);
      AtMostOneFirstBatch(s, more[..n], m);
      ReachableMore(s, more[..n]);
      ReachableInv(before);
      if FirstBatchesOf(s, more[..n], m) == 1 {
        SettledStays(before, more[n], m);
      } else if CommitsFirst(before, more[n], m) {
        Settles(before, more[n].pid);
      }
    }
  }
}
