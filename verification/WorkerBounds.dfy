/** How often handlers run and how many steps the workers take: potentials that no step but a
    publication, a redelivery or a failed first transaction can raise. */
module WorkerBounds {
  import opened Prelude
  import opened TaskTable
  import opened WorkerPool
  import opened WorkerWeights
  import opened WorkerSafety
  import opened WorkerDiscipline

  /** Every publication pays for four runs of its handler, and so does every redelivery. */
  ghost predicate HandlersPaidFor(s: State) {
    forall only :: Count(s.log.handled, only) + Weight(Attempts(only), s)
                   <= 4 * Count(s.log.published, only) + 4 * Count(s.log.redelivered, only)
  }

  /** Every publication and every redelivery pays for 24 worker steps, and a failure of the first
      transaction for three. */
  predicate StepsPaidFor(s: State) {
    s.log.workerSteps + Weight(Effort, s) <= 24 * |s.log.published| + 24 * |s.log.redelivered| + 3 * s.log.firstFailures
  }

  /** A task is published once, unless its publication was lost, and only after it was created. */
  ghost predicate PublishedOnce(s: State) {
    forall id ::
      && Count(s.log.published, Some(id)) + Creators(s, id) <= (if id in s.rows then 1 else 0)
      && (id in s.rows && (id, PublishLost) !in s.log.leaks ==> Count(s.log.published, Some(id)) + Creators(s, id) == 1)
  }

  lemma HandledAfter(s: State, st: Step, only: Option<int>)
    requires Enabled(s, st)
    ensures Count(NextLog(s, st).handled, only) ==
            Count(s.log.handled, only) + (if st.Handle? && Selects(only, s.slots[st.w].msg.payload.id) then 1 else 0)
  {
    if st.Handle? {
      CountAppend(s.log.handled, only, s.slots[st.w].msg.payload.id);
    }
  }

  lemma PublishedAfter(s: State, st: Step, only: Option<int>)
    requires Enabled(s, st)
    ensures Count(NextLog(s, st).published, only) ==
            Count(s.log.published, only) + (if st.Publish? && Selects(only, st.id) then 1 else 0)
  {
    if st.Publish? {
      CountAppend(s.log.published, only, st.id);
    }
  }

  lemma RedeliveredAfter(s: State, st: Step, only: Option<int>)
    requires Enabled(s, st)
    ensures Count(NextLog(s, st).redelivered, only) ==
            Count(s.log.redelivered, only)
            + (if GivesBack(s, st) && Selects(only, s.slots[st.w].msg.payload.id) then 1 else 0)
  {
    if GivesBack(s, st) {
      CountAppend(s.log.redelivered, only, s.slots[st.w].msg.payload.id);
    }
  }

  /** The message that a step is about has been retried at most three times, and a message is
      published for the task that was created. */
  predicate MessageInOrder(s: State, st: Step)
    requires Enabled(s, st)
  {
    && (st.Publish? ==> s.rows[st.id].id == st.id)
    && (st.Deliver? ==> 0 <= RetryCount(s.queue[st.i]) <= MAX_RETRIES)
    && (OnSlot(st) && !st.Deliver? ==> 0 <= RetryCount(s.slots[st.w].msg) <= MAX_RETRIES)
  }

  lemma MessageOfStepIsInOrder(s: State, st: Step)
    requires Sane(s) && Enabled(s, st)
    ensures MessageInOrder(s, st)
  {
    if st.Deliver? {
      assert MessageOk(s.rows, s.queue[st.i]);
    } else if OnSlot(st) {
      assert SlotOk(s.rows, s.printable, s.slots[st.w]);
    }
  }

  /** A run of the handler takes one attempt; a publication and a redelivery add four at most. */
  lemma AttemptsChange(s: State, st: Step, only: Option<int>)
    requires Enabled(s, st) && MessageInOrder(s, st)
    ensures QueueChange(Attempts(only), s, st) + SlotChange(Attempts(only), s, st)
            <= match st
               case Handle(w) => if Selects(only, s.slots[w].msg.payload.id) then -1 else 0
               case Publish(id) => if Selects(only, id) then 4 else 0
               case CutOff(w) => if Selects(only, s.slots[w].msg.payload.id) then 4 else 0
               case Lose(w) => if s.slots[w].connected && Selects(only, s.slots[w].msg.payload.id) then 4 else 0
               case _ => 0
  {
  }

  function EffortPaid(s: State, st: Step): int
    requires Enabled(s, st)
  {
    if st.Tx1Fails? then 2
    else if IsWorkerStep(st) then -1
    else if st.Publish? || GivesBack(s, st) then 24
    else 0
  }

  predicate MovesMessage(st: Step) {
    st.Deliver? || st.Publish? || st.Republish? || st.Settle? || st.CutOff? || st.Lose?
  }

  lemma EffortOfMoving(s: State, st: Step)
    requires Enabled(s, st) && MessageInOrder(s, st) && MovesMessage(st)
    ensures QueueChange(Effort, s, st) + SlotChange(Effort, s, st) <= EffortPaid(s, st)
  {
  }

  lemma EffortInPlace(s: State, st: Step)
    requires Enabled(s, st) && MessageInOrder(s, st) && !MovesMessage(st)
    ensures QueueChange(Effort, s, st) == 0
    ensures SlotChange(Effort, s, st) <= EffortPaid(s, st)
  {
  }

  /** Every worker step takes one unit of effort or more, save a failed first transaction. */
  lemma EffortChange(s: State, st: Step)
    requires Enabled(s, st) && MessageInOrder(s, st)
    ensures QueueChange(Effort, s, st) + SlotChange(Effort, s, st) <= EffortPaid(s, st)
  {
    if MovesMessage(st) {
      EffortOfMoving(s, st);
    } else {
      EffortInPlace(s, st);
    }
  }

  lemma HandlersPaidForAfter(s: State, st: Step)
    requires Sane(s) && HandlersPaidFor(s) && Enabled(s, st)
    ensures HandlersPaidFor(Apply(s, st))
  {
    forall only
      ensures Count(Apply(s, st).log.handled, only) + Weight(Attempts(only), Apply(s, st))
              <= 4 * Count(Apply(s, st).log.published, only) + 4 * Count(Apply(s, st).log.redelivered, only)
    {
      assert Count(s.log.handled, only) + Weight(Attempts(only), s)
             <= 4 * Count(s.log.published, only) + 4 * Count(s.log.redelivered, only);
      HandledAfter(s, st, only);
      PublishedAfter(s, st, only);
      RedeliveredAfter(s, st, only);
      MessageOfStepIsInOrder(s, st);
      AttemptsChange(s, st, only);
      WeightAfter(Attempts(only), s, st);
    }
  }

  lemma StepCounters(s: State, st: Step)
    requires Enabled(s, st)
    ensures var l, m := s.log, Apply(s, st).log;
      && m.workerSteps == l.workerSteps + (if IsWorkerStep(st) then 1 else 0)
      && |m.published| == |l.published| + (if st.Publish? then 1 else 0)
      && |m.redelivered| == |l.redelivered| + (if GivesBack(s, st) then 1 else 0)
      && m.firstFailures == l.firstFailures + (if st.Tx1Fails? then 1 else 0)
  {
  }

  lemma StepsPaidForAfter(s: State, st: Step)
    requires Sane(s) && StepsPaidFor(s) && Enabled(s, st)
    ensures StepsPaidFor(Apply(s, st))
  {
    StepCounters(s, st);
    MessageOfStepIsInOrder(s, st);
    EffortChange(s, st);
    WeightAfter(Effort, s, st);
  }

  lemma PublicationsAfter(s: State, st: Step, id: int)
    requires Sane(s) && Enabled(s, st)
    ensures var t := Apply(s, st);
      && (id in t.rows <==> id in s.rows || (st.Create? && id == s.nextId))
      && Creators(t, id) == Creators(s, id)
           + (if st.Create? && id == s.nextId then 1 else if st == Publish(id) || st == PublishFails(id) then -1 else 0)
      && s.log.leaks <= t.log.leaks
      && (st == PublishFails(id) ==> (id, PublishLost) in t.log.leaks)
  {
  }

  lemma PublishedOnceAfter(s: State, st: Step)
    requires Sane(s) && PublishedOnce(s) && Enabled(s, st)
    ensures PublishedOnce(Apply(s, st))
  {
    var t := Apply(s, st);
    forall id
      ensures Count(t.log.published, Some(id)) + Creators(t, id) <= if id in t.rows then 1 else 0
      ensures id in t.rows && (id, PublishLost) !in t.log.leaks ==>
        Count(t.log.published, Some(id)) + Creators(t, id) == 1
    {
      assert Count(s.log.published, Some(id)) + Creators(s, id) <= if id in s.rows then 1 else 0;
      PublishedAfter(s, st, Some(id));
      PublicationsAfter(s, st, id);
    }
  }

  lemma {:induction false} QueueNeverWeighsLessThanNothing(k: Weighing, rows: Table, q: seq<Message>)
    requires forall i | 0 <= i < |q| :: MessageOk(rows, q[i])
    ensures QueueWeight(k, q) >= 0
  {
    if q == [] {
    } else {
      QueueNeverWeighsLessThanNothing(k, rows, q[..|q| - 1]);
      assert MessageOk(rows, q[|q| - 1]);
    }
  }

  lemma {:induction false} SlotsNeverWeighLessThanNothing(
    k: Weighing, rows: Table, printable: char -> bool, slots: seq<Slot>)
    requires forall w | 0 <= w < |slots| :: SlotOk(rows, printable, slots[w])
    ensures SlotsWeight(k, slots) >= 0
  {
    if slots == [] {
    } else {
      SlotsNeverWeighLessThanNothing(k, rows, printable, slots[..|slots| - 1]);
      assert SlotOk(rows, printable, slots[|slots| - 1]);
    }
  }

  lemma NoWeightIsNegative(k: Weighing, s: State)
    requires Sane(s)
    ensures Weight(k, s) >= 0
  {
    QueueNeverWeighsLessThanNothing(k, s.rows, s.queue);
    SlotsNeverWeighLessThanNothing(k, s.rows, s.printable, s.slots);
  }

  // ---------------------------------------------------------------- progress

  predicate AtRest(slot: Slot) {
    slot.Busy? ==> slot.phase.Unsettled?
  }

  /** The next step of a worker that has a message. */
  function NextStep(s: State, w: nat): (st: Step)
    requires w < |s.slots| && !AtRest(s.slots[w])
    ensures IsWorkerStep(st) && Enabled(s, st)
  {
    var Busy(m, phase, connected) := s.slots[w];
    match phase
    case Received => if Decode(s, m).None? then Reject(w) else Tx1(w, 0)
    case Marked => Handle(w)
    case Handled(_) => Tx2(w, 0)
    case Unfinalised =>
      if RetryCount(m) >= MAX_RETRIES then GiveUp(w, 0) else if connected then Republish(w) else RepublishFails(w)
    case Settling(_) => if connected then Settle(w) else SettleFails(w)
  }

  /** The workers can take no step exactly when each of them is idle or blocked by a failed
      acknowledgement, and no idle one has a message to take. */
  lemma WorkersStopExactlyWhenAtRest(s: State)
    ensures (forall st | IsWorkerStep(st) :: !Enabled(s, st)) <==>
            && (forall w | 0 <= w < |s.slots| :: AtRest(s.slots[w]))
            && (s.queue == [] || forall w | 0 <= w < |s.slots| :: !s.slots[w].Idle?)
  {
    if forall st | IsWorkerStep(st) :: !Enabled(s, st) {
      forall w | 0 <= w < |s.slots| ensures AtRest(s.slots[w]) {
        if !AtRest(s.slots[w]) {
          var st := NextStep(s, w);
        }
      }
      if s.queue != [] {
        forall w | 0 <= w < |s.slots| ensures !s.slots[w].Idle? {
          assert !Enabled(s, Deliver(w, 0));
        }
      }
    }
  }
}
