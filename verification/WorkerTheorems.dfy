/** The theorems about runs of the pool: any number of workers, any interleaving, any failures. */
module WorkerTheorems {
  import opened Prelude
  import opened TaskTable
  import opened QueueBody
  import opened WorkerPool
  import opened WorkerWeights
  import opened WorkerSafety
  import opened WorkerOutcomes
  import opened WorkerDiscipline
  import opened WorkerBounds

  ghost predicate Invariant(s: State) {
    Sane(s) && NothingLost(s) && Honest(s) && HandlersPaidFor(s) && StepsPaidFor(s) && PublishedOnce(s)
  }

  lemma InvariantAtStart(workers: nat, printable: char -> bool)
    ensures Invariant(Start(workers, printable))
  {
    var s := Start(workers, printable);
    forall k: Weighing ensures Weight(k, s) == 0 {
      EmptySlotsWeighNothing(k, s.slots);
    }
  }

  lemma InvariantAfter(s: State, st: Step)
    requires Invariant(s) && Enabled(s, st)
    ensures Invariant(Apply(s, st))
  {
    SaneAfter(s, st);
    NothingLostAfter(s, st);
    HonestAfter(s, st);
    HandlersPaidForAfter(s, st);
    StepsPaidForAfter(s, st);
    PublishedOnceAfter(s, st);
  }

  lemma {:induction false} InvariantAlong(s: State, steps: seq<Step>)
    requires Invariant(s) && CanRun(s, steps)
    ensures Invariant(Final(s, steps))
    decreases |steps|
  {
    if steps == [] {
    } else {
      InvariantAfter(s, steps[0]);
      InvariantAlong(Apply(s, steps[0]), steps[1..]);
    }
  }

  lemma ReachableInvariant(s: State)
    requires Reachable(s)
    ensures Invariant(s)
  {
    var workers: nat, printable, steps :|
      CanRun(Start(workers, printable), steps) && Final(Start(workers, printable), steps) == s;
    InvariantAtStart(workers, printable);
    InvariantAlong(Start(workers, printable), steps);
  }

  lemma {:induction false} TypeStays(s: State, steps: seq<Step>, id: int)
    requires RowsOk(s.rows, s.nextId) && CanRun(s, steps) && id in s.rows
    ensures id in Final(s, steps).rows && Final(s, steps).rows[id].taskType == s.rows[id].taskType
    ensures Final(s, steps).printable == s.printable
    decreases |steps|
  {
    if steps == [] {
    } else {
      StepsKeepIdentity(s, steps[0]);
      TypeStays(Apply(s, steps[0]), steps[1..], id);
    }
  }

  /** A worker that still works on a message of the task, or will have it queued again. */
  predicate WorksOn(slot: Slot, id: int) {
    && slot.Busy? && slot.msg.payload.id == id
    && match slot.phase
       case Received => slot.connected
       case Marked => true
       case Handled(_) => true
       case Unfinalised => true
       case Settling(verdict) => slot.connected && verdict == Requeue
       case Unsettled(verdict) => slot.connected && verdict == Requeue
  }

  lemma {:induction false} NoCopyInQueue(q: seq<Message>, id: int)
    requires forall i | 0 <= i < |q| :: q[i].payload.id != id
    ensures QueueWeight(Copies(id), q) == 0
  {
    if q == [] {
    } else {
      NoCopyInQueue(q[..|q| - 1], id);
    }
  }

  lemma {:induction false} NoCopyHeld(slots: seq<Slot>, id: int)
    requires forall w | 0 <= w < |slots| :: !WorksOn(slots[w], id)
    ensures SlotsWeight(Copies(id), slots) == 0
  {
    if slots == [] {
    } else {
      assert !WorksOn(slots[|slots| - 1], id);
      NoCopyHeld(slots[..|slots| - 1], id);
    }
  }

  lemma CopyIsSomewhere(s: State, id: int)
    requires Weight(Copies(id), s) >= 1
    ensures (exists i :: 0 <= i < |s.queue| && s.queue[i].payload.id == id) ||
            (exists w :: 0 <= w < |s.slots| && WorksOn(s.slots[w], id))
  {
    if (forall i | 0 <= i < |s.queue| :: s.queue[i].payload.id != id) &&
       (forall w | 0 <= w < |s.slots| :: !WorksOn(s.slots[w], id)) {
      NoCopyInQueue(s.queue, id);
      NoCopyHeld(s.slots, id);
    }
  }

  /** No task is silently lost: in every reachable state an unfinished task has a message that will
      still be worked on, or a cut-off worker that owes its outcome, or its creator is about to publish, or
      it went through one of the leaks. */
  lemma NoTaskIsSilentlyLost(s: State, id: int)
    requires Reachable(s) && id in s.rows && Unfinished(s.rows[id])
    ensures Weight(Copies(id), s) >= 1 || id in s.creating || exists leak :: (id, leak) in s.log.leaks
    ensures
      || (exists i :: 0 <= i < |s.queue| && s.queue[i].payload.id == id)
      || (exists w :: 0 <= w < |s.slots| && WorksOn(s.slots[w], id))
      || id in s.creating
      || exists leak :: (id, leak) in s.log.leaks
  {
    ReachableInvariant(s);
    assert Accounted(s, id);
    if Weight(Copies(id), s) >= 1 {
      CopyIsSomewhere(s, id);
    }
  }

  /** Nothing is queued or about to be published, and no worker still has to finish its message or owes an
      outcome. It may hold one that the broker has not taken away. */
  predicate Drained(s: State) {
    s.queue == [] && s.creating == {} && forall w | 0 <= w < |s.slots| :: !Responsible(s.slots[w])
  }

  lemma {:induction false} SettledSlotsAreNoCopies(id: int, slots: seq<Slot>)
    requires forall w | 0 <= w < |slots| :: !Responsible(slots[w])
    ensures SlotsWeight(Copies(id), slots) == 0
  {
    if slots == [] {
    } else {
      assert !Responsible(slots[|slots| - 1]);
      SettledSlotsAreNoCopies(id, slots[..|slots| - 1]);
    }
  }

  /** Once the pool is drained, every task is finished or went through a leak. */
  lemma DrainedPoolHasSettledEveryTask(s: State, id: int)
    requires Reachable(s) && Drained(s) && id in s.rows
    ensures Terminal(s.rows[id]) || exists leak :: (id, leak) in s.log.leaks
  {
    SettledSlotsAreNoCopies(id, s.slots);
    if Unfinished(s.rows[id]) {
      NoTaskIsSilentlyLost(s, id);
    }
  }

  /** Handler runs of a task are bounded by its deliveries, however often the first transaction fails:
      four, and four more for each time the broker queues a message of the task again. The same holds
      of all tasks together. */
  lemma HandlerRunsAreBounded(s: State, id: int)
    requires Reachable(s)
    ensures Count(s.log.handled, Some(id)) <= 4 + 4 * Count(s.log.redelivered, Some(id))
    ensures Count(s.log.handled, None) <= 4 * Count(s.log.published, None) + 4 * Count(s.log.redelivered, None)
  {
    ReachableInvariant(s);
    NoWeightIsNegative(Attempts(Some(id)), s);
    NoWeightIsNegative(Attempts(None), s);
    assert Count(s.log.published, Some(id)) + Creators(s, id) <= if id in s.rows then 1 else 0;
    assert Count(s.log.handled, Some(id)) + Weight(Attempts(Some(id)), s)
           <= 4 * Count(s.log.published, Some(id)) + 4 * Count(s.log.redelivered, Some(id));
    assert Count(s.log.handled, None) + Weight(Attempts(None), s)
           <= 4 * Count(s.log.published, None) + 4 * Count(s.log.redelivered, None);
  }

  /** The workers' steps are bounded by the publications, the redeliveries and the failures of the
      first transaction: with finitely many of these, every run stops. */
  lemma WorkerStepsAreBounded(s: State)
    requires Reachable(s)
    ensures s.log.workerSteps <= 24 * |s.log.published| + 24 * |s.log.redelivered| + 3 * s.log.firstFailures
  {
    ReachableInvariant(s);
    NoWeightIsNegative(Effort, s);
  }

  // ---------------------------------------------------------------- one task, undisturbed

  /** s is a state of some run in which no step harms the task. */
  ghost predicate ReachableUndisturbed(s: State, id: int) {
    exists workers: nat, printable, steps ::
      && CanRun(Start(workers, printable), steps) && Final(Start(workers, printable), steps) == s
      && Undisturbed(Start(workers, printable), steps, id)
  }

  lemma {:induction false} DisciplinedAlong(s: State, steps: seq<Step>, id: int)
    requires Invariant(s) && CanRun(s, steps) && Disciplined(s, id) && Undisturbed(s, steps, id)
    ensures Invariant(Final(s, steps)) && Disciplined(Final(s, steps), id)
    ensures id in s.rows ==> id in Final(s, steps).rows && Later(s.rows[id], Final(s, steps).rows[id])
    decreases |steps|
  {
    if steps == [] {
    } else {
      DisciplinedAfter(s, steps[0], id);
      InvariantAfter(s, steps[0]);
      DisciplinedAlong(Apply(s, steps[0]), steps[1..], id);
    }
  }

  lemma UndisturbedInvariant(s: State, id: int)
    requires ReachableUndisturbed(s, id)
    ensures Reachable(s) && Invariant(s) && Disciplined(s, id)
  {
    var workers: nat, printable, steps :|
      && CanRun(Start(workers, printable), steps) && Final(Start(workers, printable), steps) == s
      && Undisturbed(Start(workers, printable), steps, id);
    InvariantAtStart(workers, printable);
    DisciplinedAlong(Start(workers, printable), steps, id);
  }

  lemma {:induction false} RedeliveriesGrow(s: State, steps: seq<Step>, id: int)
    requires CanRun(s, steps)
    ensures Count(Final(s, steps).log.redelivered, Some(id)) >= Count(s.log.redelivered, Some(id))
    decreases |steps|
  {
    if steps == [] {
    } else {
      RedeliveredAfter(s, steps[0], Some(id));
      RedeliveriesGrow(Apply(s, steps[0]), steps[1..], id);
    }
  }

  /** A run that redelivers no message of the task does not disturb it. */
  lemma {:induction false} NotRedeliveredMeansUndisturbed(s: State, steps: seq<Step>, id: int)
    requires CanRun(s, steps)
    requires Count(Final(s, steps).log.redelivered, Some(id)) == Count(s.log.redelivered, Some(id))
    ensures Undisturbed(s, steps, id)
    decreases |steps|
  {
    if steps == [] {
    } else {
      RedeliveredAfter(s, steps[0], Some(id));
      RedeliveriesGrow(Apply(s, steps[0]), steps[1..], id);
      NotRedeliveredMeansUndisturbed(Apply(s, steps[0]), steps[1..], id);
    }
  }

  lemma NotRedeliveredIsUndisturbed(s: State, id: int)
    requires Reachable(s) && Count(s.log.redelivered, Some(id)) == 0
    ensures ReachableUndisturbed(s, id)
  {
    var workers: nat, printable, steps :|
      CanRun(Start(workers, printable), steps) && Final(Start(workers, printable), steps) == s;
    NotRedeliveredMeansUndisturbed(Start(workers, printable), steps, id);
  }

  /** A task that no step has harmed has one actor or creator at most and none once it is finished; its
      result is set exactly on SUCCESS and its error exactly on FAILED. */
  lemma OneActorPerTask(s: State, id: int)
    requires ReachableUndisturbed(s, id) && id in s.rows
    ensures Weight(Actors(id), s) + Creators(s, id) <= if Terminal(s.rows[id]) then 0 else 1
    ensures s.rows[id].resultFile.Some? <==> s.rows[id].status == SUCCESS
    ensures s.rows[id].errorMessage.Some? <==> s.rows[id].status == FAILED
  {
    UndisturbedInvariant(s, id);
  }

  /** The next step, whatever it is, takes its status along PENDING, PROCESSING, then SUCCESS or
      FAILED, or leaves it. */
  lemma StatusFollowsOrder(s: State, st: Step, id: int)
    requires ReachableUndisturbed(s, id) && Enabled(s, st) && id in s.rows
    ensures id in Apply(s, st).rows && Follows(s.rows[id].status, Apply(s, st).rows[id].status)
  {
    UndisturbedInvariant(s, id);
    StatusFollows(s, st, id);
  }

  /** Over any further run that does not harm it, its status never goes back, and once finished its row
      never changes. */
  lemma StatusNeverGoesBack(s: State, steps: seq<Step>, id: int)
    requires ReachableUndisturbed(s, id) && CanRun(s, steps) && Undisturbed(s, steps, id) && id in s.rows
    ensures id in Final(s, steps).rows && Later(s.rows[id], Final(s, steps).rows[id])
  {
    UndisturbedInvariant(s, id);
    DisciplinedAlong(s, steps, id);
  }

  // ---------------------------------------------------------------- outcomes

  /** Outcomes are honest in all runs, redelivery included. SUCCESS has the result file and a known
      type; FAILED says either that the type is unknown, and it is, or that the retries ran out, and
      then at least four second transactions of the task have failed. */
  lemma OutcomesAreHonest(s: State, id: int)
    requires Reachable(s) && id in s.rows
    ensures s.rows[id].status == SUCCESS ==>
      && s.rows[id].resultFile == Some("result.txt")
      && s.rows[id].taskType in {"send_email", "generate_report", "resize_image", "cleanup_temp"}
    ensures id in s.log.exhausted ==> Count(s.log.unfinalised, Some(id)) >= 4
    ensures s.rows[id].status == FAILED ==>
      || (s.rows[id].errorMessage == Some("unknown task type: " + s.rows[id].taskType) &&
          s.rows[id].taskType !in {"send_email", "generate_report", "resize_image", "cleanup_temp"})
      || (s.rows[id].errorMessage == Some("max retries reached") && Count(s.log.unfinalised, Some(id)) >= 4)
  {
    ReachableInvariant(s);
    assert RowHonest(s.rows[id], s.log, s.printable);
  }

  /** A task whose type the queue body cannot carry is never worked on. */
  lemma UnreadableTaskStaysPending(s: State, id: int)
    requires Reachable(s) && id in s.rows && !Encodable(s.rows[id].taskType, s.printable)
    ensures s.rows[id].status == PENDING && s.rows[id].resultFile.None? && s.rows[id].errorMessage.None?
  {
    ReachableInvariant(s);
    assert RowHonest(s.rows[id], s.log, s.printable);
  }
}
