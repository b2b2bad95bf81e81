/**
  Concrete runs in which another actor's transaction falls between a handler's two: a cancellation, and a second
  handler of the same record.  They start where the run of `LateEnqueue` has its handler waiting for the provider.
 */
module DisturbedRuns {
  import opened Entities
  import opened Tables
  import opened Snowflake
  import opened MitakeSms
  import opened Handlers
  import opened Pipeline
  import opened PipelineTheorems
  import opened LateEnqueue

  /** Worker 0 has marked the rows and waits for its answer. */
  const WAITING: State := Busy(MARKED, [ENTRY], TRIES, ACKED, LateEnqueue.Handler(Marked))

  /** The answer of worker 0, a success that names no target, and its second transaction. */
  const ENDING: seq<Action> := [Provide(0, SmsAnswer(ANSWER)), Conclude(0, Committed)]

  /** What `ENDING` does to the store of any state in which worker 0 waits. */
  lemma Ends(s: State)
    requires 0 in s.workers && s.workers[0] == LateEnqueue.Handler(Marked)[0]
    ensures Run(s, ENDING).db == SmsSuccessTx(s.db, 0, MID, ANSWER)
  {
    RunTwo(s, Provide(0, SmsAnswer(ANSWER)), Conclude(0, Committed));
    AfterProvide(s, 0, SmsAnswer(ANSWER));
    AfterConclude(Step(s, Provide(0, SmsAnswer(ANSWER))), 0, Committed);
  }

  /** A cancellation in between: the target and its queue are canceled, and the success changes neither. */
  lemma CanceledBetween()
    ensures var s' := Run(Run(WAITING, [CancelCheck(MID), CancelCommit(MID)]), ENDING);
            && Reachable(s') && TargetSection(1) !in ANSWER
            && 0 in s'.db.queues && s'.db.queues[0].status == Canceled
            && 1 in s'.db.targets && s'.db.targets[1].queueId == 0 && s'.db.targets[1].status == Canceled
  {
    var s1 := Run(WAITING, [CancelCheck(MID), CancelCommit(MID)]);
    UpToMarked();
    assert TimeOf(MID) == START;
    RunTwo(WAITING, CancelCheck(MID), CancelCommit(MID));
    ReachableMore(WAITING, [CancelCheck(MID), CancelCommit(MID)]);
    ReachableMore(s1, ENDING);
    Ends(s1);
  }

  /** What the provider may answer to a second handler of the record. */
  predicate MayAnswer(rows: map<Section, Status>) {
    forall n :: n in rows ==> (n.TargetSection? ==> n.id == 1) && rows[n] in {Sent, Failed, Blank}
  }

  /** A second worker handles the same record from fetch to conclusion. */
  function Second(rows: map<Section, Status>): seq<Action> {
    [Fetch(1, 0), MarkSending(1, true), Provide(1, SmsAnswer(rows)), Conclude(1, Committed)]
  }

  /** The store a second handler leaves. */
  function SecondStore(rows: map<Section, Status>): Store {
    if Verdict(rows) == Sent then SmsSuccessTx(MARKED, 0, MID, rows)
    else FailTx(MARKED, 0, MID, SectionEvents(rows.Keys, Failed, 0))
  }

  lemma SecondRuns(rows: map<Section, Status>)
    requires MayAnswer(rows)
    ensures Run(WAITING, Second(rows)).workers == WAITING.workers && Run(WAITING, Second(rows)).db == SecondStore(rows)
  {
    assert TimeOf(0) == START;
    assert LiveTargets(MARKED, 0) == {1};
    assert SendingTx(MARKED, 0, START) == MARKED;
    HandlerRun(WAITING, 1, 0, SmsAnswer(rows), Committed);
  }

  lemma SecondRows(rows: map<Section, Status>)
    ensures var db := SmsSuccessTx(SecondStore(rows), 0, MID, ANSWER);
            && 0 in db.queues && db.queues[0].status == Success
            && 1 in db.targets && db.targets[1].queueId == 0
            && db.targets[1].status == if Verdict(rows) != Sent then Failed
                                       else if TargetSection(1) in rows then rows[TargetSection(1)] else Sending
  {
  }

  /**
    A second handler in between, whatever it is answered: the queue ends successful, and the target, which worker
    0's answer does not name, failed if the second batch was refused, as the second answer says if that names it,
    and `sending` otherwise.
   */
  lemma AnsweredTwice(rows: map<Section, Status>)
    requires MayAnswer(rows)
    ensures var s' := Run(Run(WAITING, Second(rows)), ENDING);
            && Reachable(s') && TargetSection(1) !in ANSWER
            && 0 in s'.db.queues && s'.db.queues[0].status == Success
            && 1 in s'.db.targets && s'.db.targets[1].queueId == 0
            && s'.db.targets[1].status == if Verdict(rows) != Sent then Failed
                                          else if TargetSection(1) in rows then rows[TargetSection(1)] else Sending
  {
    UpToMarked();
    SecondRuns(rows);
    SecondRows(rows);
    ReachableMore(WAITING, Second(rows));
    ReachableMore(Run(WAITING, Second(rows)), ENDING);
    Ends(Run(WAITING, Second(rows)));
  }
}
