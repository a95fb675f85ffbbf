/** Runs of a pool with one worker and one task, in which the task is taken back. */
module WorkerScenarios {
  import opened Prelude
  import opened QueueBody
  import opened TaskTable
  import opened WorkerDiscipline
  import opened WorkerHarm
  import opened WorkerPool
  import opened WorkerRuns
  import opened WorkerSafety
  import opened WorkerTheorems
  import opened WorkerWeights

  /** A pool with one worker, one task and nothing else. */
  function Single(row: Row, queue: seq<Message>, slot: Slot, printable: char -> bool, log: Log): State {
    State(map[1 := row], 2, {}, queue, [slot], printable, log)
  }

  lemma FirstCreate(userId: int, taskType: string, printable: char -> bool)
    requires userId != 0 && taskType != "" && IsInt64(userId)
    ensures Enabled(Start(1, printable), Create(userId, taskType, 0))
    ensures Apply(Start(1, printable), Create(userId, taskType, 0)) ==
            State(map[1 := Row(1, userId, taskType, PENDING, None, None, 0, 0)],
                  2, {1}, [], [Idle], printable, EMPTY_LOG)
  {
  }

  lemma FirstPublish(row: Row, printable: char -> bool)
    ensures Enabled(State(map[1 := row], 2, {1}, [], [Idle], printable, EMPTY_LOG), Publish(1))
    ensures Apply(State(map[1 := row], 2, {1}, [], [Idle], printable, EMPTY_LOG), Publish(1)) ==
            Single(row, [Message(PayloadOf(row), None)], Idle, printable, EMPTY_LOG.(published := [1]))
  {
  }

  lemma FirstDelivery(row: Row, m: Message, printable: char -> bool, log: Log)
    ensures Enabled(Single(row, [m], Idle, printable, log), Deliver(0, 0))
    ensures Apply(Single(row, [m], Idle, printable, log), Deliver(0, 0)) ==
            Single(row, [], Busy(m, Received, true), printable, log.(workerSteps := log.workerSteps + 1))
  {
  }

  lemma DeliveredTask(printable: char -> bool) returns (row: Row, m: Message, log: Log)
    ensures row.id == 1 && m.payload == PayloadOf(row) && row.userId == 7 && row.taskType == "send_email"
    ensures Reachable(Single(row, [], Busy(m, Received, true), printable, log)) && log.redelivered == []
  {
    row := Row(1, 7, "send_email", PENDING, None, None, 0, 0);
    m := Message(PayloadOf(row), None);
    var s0 := Start(1, printable);
    ReachableStart(1, printable);
    FirstCreate(7, "send_email", printable);
    ReachableStep(s0, Create(7, "send_email", 0));
    var s1 := State(map[1 := row], 2, {1}, [], [Idle], printable, EMPTY_LOG);
    FirstPublish(row, printable);
    ReachableStep(s1, Publish(1));
    log := EMPTY_LOG.(published := [1]);
    var s2 := Single(row, [m], Idle, printable, log);
    FirstDelivery(row, m, printable, log);
    ReachableStep(s2, Deliver(0, 0));
    log := log.(workerSteps := log.workerSteps + 1);
  }

  predicate Holds(s: State, id: int, phase: Phase) {
    && |s.slots| == 1 && At(s, 0, phase) && s.slots[0].connected && s.queue == [] && s.log.redelivered == []
    && id in s.rows && s.slots[0].msg.payload == PayloadOf(s.rows[id]) && s.rows[id].id == id
    && KnownType(s.rows[id].taskType) && Encodable(s.rows[id].taskType, s.printable)
    && Decode(s, s.slots[0].msg) == Some(s.slots[0].msg.payload)
  }

  lemma MarkingStep(s: State, id: int, now: int)
    requires Holds(s, id, Received)
    ensures Enabled(s, Tx1(0, now)) && Holds(Apply(s, Tx1(0, now)), id, Marked)
    ensures Apply(s, Tx1(0, now)).rows[id].status == PROCESSING
  {
  }

  lemma HandlingStep(s: State, id: int)
    requires Holds(s, id, Marked)
    ensures Enabled(s, Handle(0)) && Holds(Apply(s, Handle(0)), id, Handled(None))
    ensures Apply(s, Handle(0)).rows == s.rows
  {
  }

  lemma FinalStep(s: State, id: int, now: int)
    requires Holds(s, id, Handled(None))
    ensures Enabled(s, Tx2(0, now)) && Holds(Apply(s, Tx2(0, now)), id, Settling(Remove))
    ensures Apply(s, Tx2(0, now)).rows[id].status == SUCCESS
  {
  }

  lemma SingleHolds(row: Row, m: Message, printable: char -> bool, log: Log)
    requires row.id == 1 && m.payload == PayloadOf(row) && KnownType(row.taskType) && IsInt64(row.userId)
    requires Encodable(row.taskType, printable) && log.redelivered == []
    ensures Holds(Single(row, [], Busy(m, Received, true), printable, log), 1, Received)
  {
    BodyRoundTrip(m.payload, printable);
  }

  lemma DeliveredTaskHolds(printable: char -> bool) returns (s: State)
    ensures Reachable(s) && Holds(s, 1, Received)
  {
    var row, m, log := DeliveredTask(printable);
    s := Single(row, [], Busy(m, Received, true), printable, log);
    assert Encodable("send_email", printable);
    SingleHolds(row, m, printable, log);
  }

  lemma HandledTask(printable: char -> bool) returns (s: State)
    ensures Reachable(s) && Holds(s, 1, Handled(None)) && s.rows[1].status == PROCESSING
  {
    var s0 := DeliveredTaskHolds(printable);
    MarkingStep(s0, 1, 1);
    ReachableStep(s0, Tx1(0, 1));
    var s1 := Apply(s0, Tx1(0, 1));
    HandlingStep(s1, 1);
    ReachableStep(s1, Handle(0));
    s := Apply(s1, Handle(0));
  }

  lemma SucceededTask(printable: char -> bool) returns (s: State)
    ensures Reachable(s) && Holds(s, 1, Settling(Remove)) && s.rows[1].status == SUCCESS
  {
    var s0 := HandledTask(printable);
    FinalStep(s0, 1, 2);
    ReachableStep(s0, Tx2(0, 2));
    s := Apply(s0, Tx2(0, 2));
  }

  lemma LosingTakesBack(s: State)
    requires Invariant(s) && Holds(s, 1, Settling(Remove)) && Terminal(s.rows[1])
    ensures Enabled(s, Lose(0)) && Harms(s, Lose(0), 1) && TakesBack(Apply(s, Lose(0)), 1)
  {
    LostLeavesIdle(s, 0);
    InvariantAfter(s, Lose(0));
    IdleWorkerTakesBack(Apply(s, Lose(0)), 0, 0, 1);
  }

  /** A worker is lost after its second transaction: nothing has harmed the task before, and the loss lets a
      run that harms it no further take it from SUCCESS back to PROCESSING. */
  lemma LostWorkerReopensTask(printable: char -> bool)
    ensures exists s ::
      && ReachableUndisturbed(s, 1) && 1 in s.rows && s.rows[1].status == SUCCESS
      && Enabled(s, Lose(0)) && Harms(s, Lose(0), 1) && TakesBack(Apply(s, Lose(0)), 1)
  {
    var s := SucceededTask(printable);
    NotRedeliveredIsUndisturbed(s, 1);
    ReachableInvariant(s);
    LosingTakesBack(s);
  }

  lemma HolderActs(s: State, id: int)
    requires |s.slots| == 1 && Active(s.slots[0]) && s.slots[0].msg.payload.id == id
    ensures Weight(Actors(id), s) + Creators(s, id) >= 1
  {
    QueueWeightNonNegative(Actors(id), s.queue);
    SlotsWeightNonNegative(Actors(id), s.slots);
    assert SlotWeight(Actors(id), s.slots[0]) == 1;
  }

  /** A worker is cut off between its handler and its second transaction: nothing has harmed the task before,
      and the cut lets a run that harms it no further finish it and take it back to PROCESSING. */
  lemma CutOffWorkerReopensTask(printable: char -> bool)
    ensures exists s ::
      && ReachableUndisturbed(s, 1) && 1 in s.rows && s.rows[1].status == PROCESSING
      && Enabled(s, CutOff(0)) && Harms(s, CutOff(0), 1) && FinishesAndTakesBack(Apply(s, CutOff(0)), 1)
  {
    var s := HandledTask(printable);
    NotRedeliveredIsUndisturbed(s, 1);
    ReachableInvariant(s);
    HolderActs(s, 1);
    HarmByWorkingWorker(s, 0, 1);
  }
}
