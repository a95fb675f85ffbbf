/** Sums over all message copies in the pool, queued or held by a worker, and what each step does to
    them. */
module WorkerWeights {
  import opened Prelude
  import opened WorkerPool

  datatype Weighing =
    | Attempts(only: Option<int>)  // handler runs that the copies of a task (or of all tasks) can still cause
    | Copies(id: int)              // copies of a task that will still be worked on, and cut-off workers that
                                   // owe its outcome
    | Actors(id: int)              // the same, and cut-off workers that have not yet marked the task
    | Effort                       // worker steps that the copies can still cause

  function AttemptsLeft(m: Message): int {
    MAX_RETRIES + 1 - RetryCount(m)
  }

  predicate Selects(only: Option<int>, id: int) {
    only.Some? ==> only.value == id
  }

  /** The worker can still write the row of its task, or its message goes on to another worker. A worker that
      was cut off cannot republish: at that point it can only give up for good. */
  predicate Active(slot: Slot) {
    match slot
    case Idle => false
    case Busy(m, Unfinalised, connected) => connected || RetryCount(m) >= MAX_RETRIES
    case Busy(_, Settling(verdict), connected) => connected && verdict.Requeue?
    case Busy(_, Unsettled(verdict), connected) => connected && verdict.Requeue?
    case Busy(_, _, _) => true
  }

  /** The worker holds the message of the task, or owes the task its outcome. */
  predicate Responsible(slot: Slot) {
    (Active(slot) && slot.connected) || Owing(slot)
  }

  function QueuedWeight(k: Weighing, m: Message): int {
    match k
    case Attempts(only) => if Selects(only, m.payload.id) then AttemptsLeft(m) else 0
    case Copies(id) => if m.payload.id == id then 1 else 0
    case Actors(id) => if m.payload.id == id then 1 else 0
    case Effort => 6 * AttemptsLeft(m)
  }

  function HolderEffort(m: Message, phase: Phase): int {
    match phase
    case Received => 6 * AttemptsLeft(m) - 1
    case Marked => 6 * AttemptsLeft(m) - 2
    case Handled(_) => 6 * AttemptsLeft(m) - 3
    case Unfinalised => 6 * AttemptsLeft(m) - 4
    case Settling(verdict) => if verdict.Requeue? then 6 * AttemptsLeft(m) + 1 else 1
    case Unsettled(_) => 0
  }

  function CutOffEffort(phase: Phase): int {
    match phase
    case Received => 5
    case Marked => 4
    case Handled(_) => 3
    case Unfinalised => 2
    case Settling(_) => 1
    case Unsettled(_) => 0
  }

  function SlotWeight(k: Weighing, slot: Slot): int {
    match slot
    case Idle => 0
    case Busy(m, phase, connected) =>
      match k
      case Attempts(only) =>
        if !Selects(only, m.payload.id) || !Active(slot) then 0
        else if !connected then (if phase.Received? || phase.Marked? then 1 else 0)
        else if phase.Handled? || phase.Unfinalised? then AttemptsLeft(m) - 1
        else AttemptsLeft(m)
      case Copies(id) => if m.payload.id == id && Responsible(slot) then 1 else 0
      case Actors(id) => if m.payload.id == id && Active(slot) then 1 else 0
      case Effort => if connected then HolderEffort(m, phase) else CutOffEffort(phase)
  }

  function QueueWeight(k: Weighing, q: seq<Message>): int {
    if q == [] then 0 else QueueWeight(k, q[..|q| - 1]) + QueuedWeight(k, Last(q))
  }

  function SlotsWeight(k: Weighing, slots: seq<Slot>): int {
    if slots == [] then 0 else SlotsWeight(k, slots[..|slots| - 1]) + SlotWeight(k, Last(slots))
  }

  function Weight(k: Weighing, s: State): int {
    QueueWeight(k, s.queue) + SlotsWeight(k, s.slots)
  }

  lemma QueueAppend(k: Weighing, q: seq<Message>, m: Message)
    ensures QueueWeight(k, q + [m]) == QueueWeight(k, q) + QueuedWeight(k, m)
  {
    assert (q + [m])[..|q|] == q;
  }

  lemma {:induction false} QueueRemove(k: Weighing, q: seq<Message>, i: nat)
    requires i < |q|
    ensures QueueWeight(k, Without(q, i)) == QueueWeight(k, q) - QueuedWeight(k, q[i])
  {
    var n := |q| - 1;
    if i == n {
      assert Without(q, i) == q[..n];
    } else {
      QueueRemove(k, q[..n], i);
      assert Without(q, i) == Without(q[..n], i) + [q[n]];
      QueueAppend(k, Without(q[..n], i), q[n]);
    }
  }

  lemma {:induction false} SlotsUpdate(k: Weighing, slots: seq<Slot>, w: nat, slot: Slot)
    requires w < |slots|
    ensures SlotsWeight(k, slots[w := slot]) == SlotsWeight(k, slots) - SlotWeight(k, slots[w]) + SlotWeight(k, slot)
  {
    var n := |slots| - 1;
    if w == n {
      assert slots[w := slot][..n] == slots[..n];
    } else {
      SlotsUpdate(k, slots[..n], w, slot);
      assert slots[w := slot][..n] == slots[..n][w := slot];
    }
  }

  /** What step st adds to the weight of the queue. */
  function QueueChange(k: Weighing, s: State, st: Step): int
    requires Enabled(s, st)
  {
    if st.Deliver? then -QueuedWeight(k, s.queue[st.i])
    else if Queued(s, st).Some? then QueuedWeight(k, Queued(s, st).value)
    else 0
  }

  /** What step st adds to the weight of its worker. */
  function SlotChange(k: Weighing, s: State, st: Step): int
    requires Enabled(s, st)
  {
    if OnSlot(st) then SlotWeight(k, NextSlot(s, st)) - SlotWeight(k, s.slots[st.w]) else 0
  }

  lemma QueueWeightAfter(k: Weighing, s: State, st: Step)
    requires Enabled(s, st)
    ensures QueueWeight(k, NextQueue(s, st)) == QueueWeight(k, s.queue) + QueueChange(k, s, st)
  {
    if st.Deliver? {
      QueueRemove(k, s.queue, st.i);
    } else if Queued(s, st).Some? {
      QueueAppend(k, s.queue, Queued(s, st).value);
    }
  }

  lemma SlotsWeightAfter(k: Weighing, s: State, st: Step)
    requires Enabled(s, st) && OnSlot(st)
    ensures SlotsWeight(k, s.slots[st.w := NextSlot(s, st)]) == SlotsWeight(k, s.slots) + SlotChange(k, s, st)
  {
    SlotsUpdate(k, s.slots, st.w, NextSlot(s, st));
  }

  lemma WeightAfter(k: Weighing, s: State, st: Step)
    requires Enabled(s, st)
    ensures Weight(k, Apply(s, st)) == Weight(k, s) + QueueChange(k, s, st) + SlotChange(k, s, st)
  {
    QueueWeightAfter(k, s, st);
    if OnSlot(st) {
      SlotsWeightAfter(k, s, st);
    }
  }

  lemma {:induction false} EmptySlotsWeighNothing(k: Weighing, slots: seq<Slot>)
    requires forall w | 0 <= w < |slots| :: slots[w].Idle?
    ensures SlotsWeight(k, slots) == 0
  {
    if slots == [] {
    } else {
      EmptySlotsWeighNothing(k, slots[..|slots| - 1]);
    }
  }

  /** Occurrences of a task (or of any task) in a log. */
  function Count(log: seq<int>, only: Option<int>): nat {
    if log == [] then 0 else Count(log[..|log| - 1], only) + if Selects(only, Last(log)) then 1 else 0
  }

  lemma CountAppend(log: seq<int>, only: Option<int>, id: int)
    ensures Count(log + [id], only) == Count(log, only) + if Selects(only, id) then 1 else 0
  {
    assert (log + [id])[..|log|] == log;
  }
}
