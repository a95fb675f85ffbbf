/** The bound on handler runs cannot be lowered: for any number of redeliveries there is a run that reaches it. */
module WorkerBoundReached {
  import opened Prelude
  import opened QueueBody
  import opened WorkerBounds
  import opened WorkerPool
  import opened WorkerRuns
  import opened WorkerSafety
  import opened WorkerTheorems
  import opened WorkerWeights

  const THE_TASK := Some(1)

  function Runs(s: State): nat {
    Count(s.log.handled, THE_TASK)
  }

  function Redeliveries(s: State): nat {
    Count(s.log.redelivered, THE_TASK)
  }

  /** No attempt has been wasted so far. */
  predicate Accounts(s: State) {
    Runs(s) + Weight(Attempts(THE_TASK), s) == 4 + 4 * Redeliveries(s)
  }

  /** One worker, one task, and no attempt wasted so far. */
  ghost predicate Tight(s: State) {
    && Reachable(s) && |s.slots| == 1 && s.rows.Keys == {1} && Encodable(s.rows[1].taskType, s.printable)
    && Accounts(s)
  }

  /** The worker is at `phase` with m. */
  ghost predicate Stage(s: State, m: Message, phase: Phase) {
    Tight(s) && s.slots[0] == Busy(m, phase, true)
  }

  /** Steps that waste no attempt. */
  predicate Frugal(s: State, st: Step)
    requires Enabled(s, st)
  {
    || st.Deliver? || st.Tx1? || st.Handle? || st.Tx2Fails? || st.Republish? || st.GiveUp?
    || (st.Settle? && s.slots[st.w].phase.verdict.Remove?)
    || (st.Lose? && RetryCount(s.slots[st.w].msg) == 0 && s.slots[st.w].phase == Settling(Remove))
  }

  lemma FrugalChange(s: State, st: Step)
    requires Enabled(s, st) && Frugal(s, st) && MessageInOrder(s, st)
    requires st.w < |s.slots| && (s.slots[st.w].Busy? ==> s.slots[st.w].connected && s.slots[st.w].msg.payload.id == 1)
    ensures QueueChange(Attempts(THE_TASK), s, st) + SlotChange(Attempts(THE_TASK), s, st) ==
            if st.Handle? then -1 else if st.Lose? then 4 else 0
  {
  }

  lemma OnlyTaskIsHeld(s: State)
    requires Tight(s) && s.slots[0].Busy?
    ensures s.slots[0].msg.payload.id == 1
  {
    ReachableInvariant(s);
    assert SlotOk(s.rows, s.printable, s.slots[0]);
  }

  lemma CountersAfter(s: State, st: Step)
    requires Enabled(s, st) && Frugal(s, st)
    requires s.slots[st.w].Busy? ==> s.slots[st.w].connected && s.slots[st.w].msg.payload.id == 1
    ensures Runs(Apply(s, st)) == Runs(s) + (if st.Handle? then 1 else 0)
    ensures Redeliveries(Apply(s, st)) == Redeliveries(s) + (if st.Lose? then 1 else 0)
  {
    HandledAfter(s, st, THE_TASK);
    RedeliveredAfter(s, st, THE_TASK);
  }

  lemma AttemptsAfter(s: State, st: Step)
    requires Sane(s) && Enabled(s, st) && Frugal(s, st)
    requires s.slots[st.w].Busy? ==> s.slots[st.w].connected && s.slots[st.w].msg.payload.id == 1
    ensures Weight(Attempts(THE_TASK), Apply(s, st)) ==
            Weight(Attempts(THE_TASK), s) + (if st.Handle? then -1 else if st.Lose? then 4 else 0)
  {
    MessageOfStepIsInOrder(s, st);
    FrugalChange(s, st);
    WeightAfter(Attempts(THE_TASK), s, st);
  }

  predicate HoldsTheTask(slot: Slot) {
    slot.Busy? ==> slot.connected && slot.msg.payload.id == 1
  }

  lemma FrugalStepCounts(s: State, st: Step)
    requires Sane(s) && Accounts(s) && Enabled(s, st) && Frugal(s, st) && HoldsTheTask(s.slots[st.w])
    ensures Runs(Apply(s, st)) == Runs(s) + (if st.Handle? then 1 else 0)
    ensures Redeliveries(Apply(s, st)) == Redeliveries(s) + (if st.Lose? then 1 else 0)
    ensures Accounts(Apply(s, st))
  {
    CountersAfter(s, st);
    AttemptsAfter(s, st);
  }

  lemma HolderIsKnown(s: State)
    requires Tight(s) && (s.slots[0].Busy? ==> s.slots[0].connected)
    ensures Sane(s) && HoldsTheTask(s.slots[0])
  {
    ReachableInvariant(s);
    if s.slots[0].Busy? {
      OnlyTaskIsHeld(s);
    }
  }

  lemma OnlyWorkerActs(s: State, st: Step)
    requires Enabled(s, st) && Frugal(s, st) && |s.slots| == 1
    ensures st.w == 0
  {
  }

  /** The task is the only one, and its type stays. */
  lemma OnlyTaskStays(s: State, st: Step)
    requires Enabled(s, st) && Frugal(s, st) && s.rows.Keys == {1} && HoldsTheTask(s.slots[st.w])
    ensures NextRows(s, st).Keys == {1} && NextRows(s, st)[1].taskType == s.rows[1].taskType
  {
  }

  lemma FrugalStep(s: State, st: Step)
    requires Tight(s) && Enabled(s, st) && Frugal(s, st) && (s.slots[0].Busy? ==> s.slots[0].connected)
    ensures Tight(Apply(s, st))
    ensures Runs(Apply(s, st)) == Runs(s) + (if st.Handle? then 1 else 0)
    ensures Redeliveries(Apply(s, st)) == Redeliveries(s) + (if st.Lose? then 1 else 0)
  {
    HolderIsKnown(s);
    OnlyWorkerActs(s, st);
    FrugalStepCounts(s, st);
    OnlyTaskStays(s, st);
    ReachableStep(s, st);
  }

  /** The counters after a run of steps that redelivered `r` times and ran the handler `h` times. */
  ghost predicate Since(s: State, t: State, h: nat, r: nat) {
    Runs(t) == Runs(s) + h && Redeliveries(t) == Redeliveries(s) + r
  }

  lemma Receive(s: State, i: nat) returns (t: State)
    requires Tight(s) && s.slots[0].Idle? && i < |s.queue|
    ensures Stage(t, s.queue[i], Received) && t.queue == Without(s.queue, i) && Since(s, t, 0, 0)
  {
    t := Apply(s, Deliver(0, i));
    FrugalStep(s, Deliver(0, i));
  }

  lemma CanBeMarked(s: State, m: Message)
    requires Stage(s, m, Received)
    ensures Enabled(s, Tx1(0, 0)) && m.payload.id == 1
  {
    ReachableInvariant(s);
    OnlyTaskIsHeld(s);
    assert SlotOk(s.rows, s.printable, s.slots[0]);
    DecodeGivesPayload(s, m);
  }

  lemma MarkIt(s: State, m: Message) returns (t: State)
    requires Stage(s, m, Received)
    ensures Stage(t, m, Marked) && t.queue == s.queue && Since(s, t, 0, 0)
  {
    CanBeMarked(s, m);
    t := Apply(s, Tx1(0, 0));
    FrugalStep(s, Tx1(0, 0));
  }

  lemma RunHandler(s: State, m: Message) returns (t: State)
    requires Stage(s, m, Marked)
    ensures Stage(t, m, Handled(HandleTask(m.payload))) && t.queue == s.queue && Since(s, t, 1, 0)
  {
    t := Apply(s, Handle(0));
    FrugalStep(s, Handle(0));
  }

  lemma FailToMark(s: State, m: Message, failure: Option<string>) returns (t: State)
    requires Stage(s, m, Handled(failure))
    ensures Stage(t, m, Unfinalised) && t.queue == s.queue && Since(s, t, 0, 0)
  {
    t := Apply(s, Tx2Fails(0));
    FrugalStep(s, Tx2Fails(0));
  }

  lemma RetryIt(s: State, m: Message) returns (t: State)
    requires Stage(s, m, Unfinalised) && RetryCount(m) < MAX_RETRIES
    ensures Stage(t, m, Settling(Remove)) && t.queue == s.queue + [Retried(m)] && Since(s, t, 0, 0)
  {
    t := Apply(s, Republish(0));
    FrugalStep(s, Republish(0));
  }

  lemma GiveItUp(s: State, m: Message) returns (t: State)
    requires Stage(s, m, Unfinalised) && RetryCount(m) >= MAX_RETRIES
    ensures Stage(t, m, Settling(Remove)) && t.queue == s.queue && Since(s, t, 0, 0)
  {
    t := Apply(s, GiveUp(0, 0));
    FrugalStep(s, GiveUp(0, 0));
  }

  lemma Acknowledge(s: State, m: Message) returns (t: State)
    requires Stage(s, m, Settling(Remove))
    ensures Tight(t) && t.slots[0].Idle? && t.queue == s.queue && Since(s, t, 0, 0)
  {
    t := Apply(s, Settle(0));
    FrugalStep(s, Settle(0));
  }

  lemma LoseIt(s: State, m: Message) returns (t: State)
    requires Stage(s, m, Settling(Remove)) && RetryCount(m) == 0
    ensures Tight(t) && t.slots[0].Idle? && t.queue == s.queue + [m] && Since(s, t, 0, 1)
  {
    t := Apply(s, Lose(0));
    FrugalStep(s, Lose(0));
  }

  /** One attempt at message i, whose outcome cannot be marked. */
  lemma Attempt(s: State, i: nat) returns (t: State)
    requires Tight(s) && s.slots[0].Idle? && i < |s.queue|
    ensures Stage(t, s.queue[i], Settling(Remove)) && Since(s, t, 1, 0)
  {
    var m := s.queue[i];
    t := Receive(s, i);
    t := MarkIt(t, m);
    t := RunHandler(t, m);
    t := FailToMark(t, m, HandleTask(m.payload));
    if RetryCount(m) < MAX_RETRIES {
      t := RetryIt(t, m);
    } else {
      t := GiveItUp(t, m);
    }
  }

  lemma NothingQueuedWeighsNothing(s: State)
    requires Tight(s) && s.slots[0].Idle? && s.queue == []
    ensures Weight(Attempts(THE_TASK), s) == 0
  {
    EmptySlotsWeighNothing(Attempts(THE_TASK), s.slots);
  }

  /** All attempts that are left are made. */
  lemma {:induction false} UseUp(s: State) returns (t: State)
    requires Tight(s) && s.slots[0].Idle?
    ensures Reachable(t) && Runs(t) == 4 + 4 * Redeliveries(t) && Redeliveries(t) == Redeliveries(s)
    decreases 4 + 4 * Redeliveries(s) - Runs(s)
  {
    if s.queue == [] {
      NothingQueuedWeighsNothing(s);
      t := s;
    } else {
      var u := Attempt(s, 0);
      u := Acknowledge(u, s.queue[0]);
      ReachableInvariant(u);
      NoWeightIsNegative(Attempts(THE_TASK), u);
      t := UseUp(u);
    }
  }

  /** A worker is lost r times just after it has republished a first delivery. */
  lemma {:induction false} LoseAgain(s: State, i: nat, r: nat) returns (t: State)
    requires Tight(s) && s.slots[0].Idle? && i < |s.queue| && RetryCount(s.queue[i]) == 0
    ensures Tight(t) && t.slots[0].Idle? && Redeliveries(t) == Redeliveries(s) + r
    decreases r
  {
    if r == 0 {
      t := s;
    } else {
      var m := s.queue[i];
      var u := Attempt(s, i);
      var before := |u.queue|;
      u := LoseIt(u, m);
      t := LoseAgain(u, before, r - 1);
    }
  }

  lemma PublishedToOne(printable: char -> bool) returns (s: State, m: Message)
    ensures Reachable(s) && s.rows.Keys == {1} && s.rows[1].taskType == "send_email"
    ensures s.slots == [Idle] && s.queue == [m] && m.payload.id == 1 && RetryCount(m) == 0
    ensures s.log.handled == [] && s.log.redelivered == []
  {
    var s0 := Start(1, printable);
    ReachableStart(1, printable);
    ReachableStep(s0, Create(7, "send_email", 0));
    var s1 := Apply(s0, Create(7, "send_email", 0));
    ReachableStep(s1, Publish(1));
    s := Apply(s1, Publish(1));
    m := s.queue[0];
    assert s.slots == [Idle];
  }

  lemma FirstPublication(printable: char -> bool) returns (s: State)
    ensures Tight(s) && s.slots[0].Idle? && |s.queue| == 1 && RetryCount(s.queue[0]) == 0 && Redeliveries(s) == 0
  {
    var m;
    s, m := PublishedToOne(printable);
    assert Encodable(s.rows[1].taskType, s.printable);
    EmptySlotsWeighNothing(Attempts(THE_TASK), s.slots);
    QueueAppend(Attempts(THE_TASK), [], m);
    assert s.queue == [] + [m];
  }

  /** For every number of redeliveries there is a run in which the handler of a task runs exactly as often as
      the bound allows. */
  lemma HandlerBoundIsReached(r: nat, printable: char -> bool)
    ensures exists s ::
      Reachable(s) && Count(s.log.redelivered, Some(1)) == r && Count(s.log.handled, Some(1)) == 4 + 4 * r
  {
    var s := FirstPublication(printable);
    s := LoseAgain(s, 0, r);
    s := UseUp(s);
    assert Redeliveries(s) == r && Runs(s) == 4 + 4 * r;
  }
}
