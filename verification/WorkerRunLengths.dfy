/** The bounds as statements about the steps of a run: the logs count them. */
module WorkerRunLengths {
  import opened Prelude
  import opened TaskTable
  import opened WorkerBounds
  import opened WorkerOutcomes
  import opened WorkerPool
  import opened WorkerTheorems
  import opened WorkerWeights

  datatype Kind =
    | AnyWorkerStep
    | Publishing
    | FailingFirst
    | Handling(task: int)
    | GivingBack(only: Option<int>)
    | FailingSecond(id: int)

  predicate IsOf(kind: Kind, s: State, st: Step)
    requires Enabled(s, st)
  {
    match kind
    case AnyWorkerStep =>
      || st.Deliver? || st.Reject? || st.Tx1? || st.Tx1Fails? || st.Handle? || st.Tx2? || st.Tx2Fails?
      || st.GiveUp? || st.GiveUpFails? || st.Republish? || st.RepublishFails? || st.Settle? || st.SettleFails?
    case Publishing => st.Publish?
    case FailingFirst => st.Tx1Fails?
    case Handling(id) => st.Handle? && s.slots[st.w].msg.payload.id == id
    case GivingBack(only) =>
      (st.CutOff? || (st.Lose? && s.slots[st.w].connected)) &&
      (only.Some? ==> s.slots[st.w].msg.payload.id == only.value)
    case FailingSecond(id) => st.Tx2Fails? && s.slots[st.w].msg.payload.id == id
  }

  /** How many steps of a run are of a kind. */
  function Tally(kind: Kind, s: State, steps: seq<Step>): nat
    requires CanRun(s, steps)
    decreases |steps|
  {
    if steps == [] then 0
    else (if IsOf(kind, s, steps[0]) then 1 else 0) + Tally(kind, Apply(s, steps[0]), steps[1..])
  }

  lemma {:induction false} HandlingIsLogged(s: State, steps: seq<Step>, id: int)
    requires CanRun(s, steps)
    ensures Count(Final(s, steps).log.handled, Some(id)) ==
            Count(s.log.handled, Some(id)) + Tally(Handling(id), s, steps)
    decreases |steps|
  {
    if steps == [] {
    } else {
      HandledAfter(s, steps[0], Some(id));
      HandlingIsLogged(Apply(s, steps[0]), steps[1..], id);
    }
  }

  lemma {:induction false} GivingBackIsLogged(s: State, steps: seq<Step>, only: Option<int>)
    requires CanRun(s, steps)
    ensures Count(Final(s, steps).log.redelivered, only) ==
            Count(s.log.redelivered, only) + Tally(GivingBack(only), s, steps)
    decreases |steps|
  {
    if steps == [] {
    } else {
      RedeliveredAfter(s, steps[0], only);
      GivingBackIsLogged(Apply(s, steps[0]), steps[1..], only);
    }
  }

  lemma {:induction false} FailingSecondIsLogged(s: State, steps: seq<Step>, id: int)
    requires CanRun(s, steps)
    ensures Count(Final(s, steps).log.unfinalised, Some(id)) ==
            Count(s.log.unfinalised, Some(id)) + Tally(FailingSecond(id), s, steps)
    decreases |steps|
  {
    if steps == [] {
    } else {
      LogGrows(s, steps[0], id);
      FailingSecondIsLogged(Apply(s, steps[0]), steps[1..], id);
    }
  }

  lemma StepIsLogged(s: State, st: Step)
    requires Enabled(s, st)
    ensures var l, m := s.log, Apply(s, st).log;
      && m.workerSteps == l.workerSteps + (if IsOf(AnyWorkerStep, s, st) then 1 else 0)
      && |m.published| == |l.published| + (if IsOf(Publishing, s, st) then 1 else 0)
      && |m.redelivered| == |l.redelivered| + (if IsOf(GivingBack(None), s, st) then 1 else 0)
      && m.firstFailures == l.firstFailures + (if IsOf(FailingFirst, s, st) then 1 else 0)
  {
    StepCounters(s, st);
  }

  lemma {:induction false} StepsAreLogged(s: State, steps: seq<Step>)
    requires CanRun(s, steps)
    ensures var l, m := s.log, Final(s, steps).log;
      && m.workerSteps == l.workerSteps + Tally(AnyWorkerStep, s, steps)
      && |m.published| == |l.published| + Tally(Publishing, s, steps)
      && |m.redelivered| == |l.redelivered| + Tally(GivingBack(None), s, steps)
      && m.firstFailures == l.firstFailures + Tally(FailingFirst, s, steps)
    decreases |steps|
  {
    if steps == [] {
    } else {
      StepIsLogged(s, steps[0]);
      StepsAreLogged(Apply(s, steps[0]), steps[1..]);
    }
  }

  /** In every run, of any number of workers: the workers take at most 24 steps for each publication and each
      time a message is queued again, and three for each failed first transaction. */
  lemma RunsAreShort(workers: nat, printable: char -> bool, steps: seq<Step>)
    requires CanRun(Start(workers, printable), steps)
    ensures var s := Start(workers, printable);
      Tally(AnyWorkerStep, s, steps) <=
      24 * Tally(Publishing, s, steps) + 24 * Tally(GivingBack(None), s, steps) + 3 * Tally(FailingFirst, s, steps)
  {
    var s := Start(workers, printable);
    StepsAreLogged(s, steps);
    WorkerStepsAreBounded(Final(s, steps));
  }

  /** In every run, the handler of a task runs at most four times, and four more each time a message of the task
      is queued again. */
  lemma HandlersRunSeldom(workers: nat, printable: char -> bool, steps: seq<Step>, id: int)
    requires CanRun(Start(workers, printable), steps)
    ensures var s := Start(workers, printable);
      Tally(Handling(id), s, steps) <= 4 + 4 * Tally(GivingBack(Some(id)), s, steps)
  {
    var s := Start(workers, printable);
    HandlingIsLogged(s, steps, id);
    GivingBackIsLogged(s, steps, Some(id));
    HandlerRunsAreBounded(Final(s, steps), id);
  }

  /** In every run, a task that ends FAILED because the retries ran out has had four second transactions fail. */
  lemma RetriesRunOutAfterFourFailures(workers: nat, printable: char -> bool, steps: seq<Step>, id: int)
    requires CanRun(Start(workers, printable), steps)
    requires var t := Final(Start(workers, printable), steps);
      id in t.rows && t.rows[id].status == FAILED && t.rows[id].errorMessage == Some("max retries reached")
    ensures Tally(FailingSecond(id), Start(workers, printable), steps) >= 4
  {
    FailingSecondIsLogged(Start(workers, printable), steps, id);
    OutcomesAreHonest(Final(Start(workers, printable), steps), id);
    assert "unknown task type: "[0] == 'u' && "max retries reached"[0] == 'm';
    var taskType := Final(Start(workers, printable), steps).rows[id].taskType;
    assert ("unknown task type: " + taskType)[0] == 'u';
  }
}
