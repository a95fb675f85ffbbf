/** The updates of the tasks table do not look at the old status, so a message that is still around can
    take a finished task back, and so can a worker that was cut off from the broker: exactly when a
    finished task can still change or be taken back, and exactly when an unfinished one can still be
    finished. */
module WorkerReopening {
  import opened QueueBody
  import opened TaskTable
  import opened WorkerOutcomes
  import opened WorkerPool
  import opened WorkerRuns
  import opened WorkerSafety
  import opened WorkerTheorems

  // ---------------------------------------------------------------- who can still write a row

  /** The task is not about to be published, and no message of it is queued. */
  predicate NothingWaits(s: State, id: int) {
    id !in s.creating && forall i | 0 <= i < |s.queue| :: s.queue[i].payload.id != id
  }

  /** The worker can still mark the task PROCESSING, or its message can come back to the queue. */
  predicate MayMark(slot: Slot, id: int) {
    slot.Busy? && slot.msg.payload.id == id && (slot.connected || slot.phase.Received?)
  }

  /** The worker can do that, or still mark the outcome. */
  predicate MayWrite(slot: Slot, id: int) {
    || MayMark(slot, id)
    || (slot.Busy? && slot.msg.payload.id == id &&
        (slot.phase.Marked? || slot.phase.Handled? ||
         (slot.phase.Unfinalised? && RetryCount(slot.msg) >= MAX_RETRIES)))
  }

  predicate NobodyMarks(s: State, id: int) {
    s.slots == [] || (NothingWaits(s, id) && forall w | 0 <= w < |s.slots| :: !MayMark(s.slots[w], id))
  }

  predicate NobodyWrites(s: State, id: int) {
    s.slots == [] || (NothingWaits(s, id) && forall w | 0 <= w < |s.slots| :: !MayWrite(s.slots[w], id))
  }

  lemma NothingStartsWaiting(s: State, st: Step, id: int)
    requires RowsOk(s.rows, s.nextId) && Enabled(s, st) && id in s.rows && NothingWaits(s, id)
    requires OnSlot(st) && s.slots[st.w].Busy? && s.slots[st.w].msg.payload.id == id ==> !s.slots[st.w].connected
    ensures NothingWaits(Apply(s, st), id)
  {
    QueueAfter(s, st);
    if st.Publish? {
      assert s.rows[st.id].id == st.id;
    }
  }

  lemma NobodyStartsMarking(s: State, st: Step, id: int)
    requires Enabled(s, st) && OnSlot(st) && NothingWaits(s, id) && !MayMark(s.slots[st.w], id)
    ensures !MayMark(NextSlot(s, st), id)
  {
  }

  lemma NobodyStartsWriting(s: State, st: Step, id: int)
    requires Enabled(s, st) && OnSlot(st) && NothingWaits(s, id) && !MayWrite(s.slots[st.w], id)
    ensures !MayWrite(NextSlot(s, st), id)
    ensures NextRows(s, st) == s.rows || s.slots[st.w].msg.payload.id != id
  {
  }

  lemma UnmarkedRowStaysFinished(s: State, st: Step, id: int)
    requires Enabled(s, st) && OnSlot(st) && id in s.rows && Terminal(s.rows[id]) && !MayMark(s.slots[st.w], id)
    ensures id in NextRows(s, st) && Terminal(NextRows(s, st)[id])
  {
  }

  lemma OtherRowsStay(s: State, st: Step, id: int)
    requires RowsOk(s.rows, s.nextId) && Enabled(s, st) && id in s.rows
    requires OnSlot(st) ==> NextRows(s, st) == s.rows || s.slots[st.w].msg.payload.id != id
    ensures id in NextRows(s, st) && NextRows(s, st)[id] == s.rows[id]
  {
  }

  lemma NobodyMarksAfter(s: State, st: Step, id: int)
    requires RowsOk(s.rows, s.nextId) && Enabled(s, st) && id in s.rows && NobodyMarks(s, id) && Terminal(s.rows[id])
    ensures NobodyMarks(Apply(s, st), id)
    ensures id in Apply(s, st).rows && Terminal(Apply(s, st).rows[id])
  {
    if s.slots != [] {
      NothingStartsWaiting(s, st, id);
      if OnSlot(st) {
        NobodyStartsMarking(s, st, id);
        UnmarkedRowStaysFinished(s, st, id);
      }
    }
    if !OnSlot(st) {
      OtherRowsStay(s, st, id);
    }
  }

  lemma NobodyWritesAfter(s: State, st: Step, id: int)
    requires RowsOk(s.rows, s.nextId) && Enabled(s, st) && id in s.rows && NobodyWrites(s, id)
    ensures NobodyWrites(Apply(s, st), id)
    ensures id in Apply(s, st).rows && Apply(s, st).rows[id] == s.rows[id]
  {
    if s.slots != [] {
      NothingStartsWaiting(s, st, id);
      if OnSlot(st) {
        NobodyStartsWriting(s, st, id);
      }
    }
    OtherRowsStay(s, st, id);
  }

  lemma {:induction false} NobodyMarksAlong(s: State, steps: seq<Step>, id: int)
    requires RowsOk(s.rows, s.nextId) && CanRun(s, steps) && id in s.rows
    requires NobodyMarks(s, id) && Terminal(s.rows[id])
    ensures id in Final(s, steps).rows && Terminal(Final(s, steps).rows[id])
    decreases |steps|
  {
    if steps == [] {
    } else {
      NobodyMarksAfter(s, steps[0], id);
      StepsKeepIdentity(s, steps[0]);
      NobodyMarksAlong(Apply(s, steps[0]), steps[1..], id);
    }
  }

  lemma {:induction false} NobodyWritesAlong(s: State, steps: seq<Step>, id: int)
    requires RowsOk(s.rows, s.nextId) && CanRun(s, steps) && id in s.rows && NobodyWrites(s, id)
    ensures id in Final(s, steps).rows && Final(s, steps).rows[id] == s.rows[id]
    decreases |steps|
  {
    if steps == [] {
    } else {
      NobodyWritesAfter(s, steps[0], id);
      StepsKeepIdentity(s, steps[0]);
      NobodyWritesAlong(Apply(s, steps[0]), steps[1..], id);
    }
  }

  // ---------------------------------------------------------------- runs that receive a message

  /** Some run, which leaves the table alone, ends with a worker that has just received a message of the
      task. */
  ghost predicate CanReceive(s: State, id: int) {
    exists steps, w: nat ::
      && CanRun(s, steps) && Final(s, steps).rows == s.rows
      && At(Final(s, steps), w, Received) && Final(s, steps).slots[w].msg.payload.id == id
  }

  lemma ReceivesAfter(s: State, st: Step, id: int)
    requires Enabled(s, st) && Apply(s, st).rows == s.rows && CanReceive(Apply(s, st), id)
    ensures CanReceive(s, id)
  {
    var t := Apply(s, st);
    var steps, w: nat :|
      && CanRun(t, steps) && Final(t, steps).rows == t.rows
      && At(Final(t, steps), w, Received) && Final(t, steps).slots[w].msg.payload.id == id;
    RunCons(s, st, steps);
  }

  lemma HeldAlready(s: State, w: nat, id: int)
    requires At(s, w, Received) && s.slots[w].msg.payload.id == id
    ensures CanReceive(s, id)
  {
    assert CanRun(s, []) && Final(s, []) == s;
  }

  lemma IdleWorkerReceives(s: State, w: nat, i: nat, id: int)
    requires w < |s.slots| && s.slots[w].Idle? && i < |s.queue| && s.queue[i].payload.id == id
    ensures CanReceive(s, id)
  {
    HeldAlready(Apply(s, Deliver(w, i)), w, id);
    ReceivesAfter(s, Deliver(w, i), id);
  }

  lemma QueuedIsReceived(s: State, i: nat, id: int)
    requires s.slots != [] && i < |s.queue| && s.queue[i].payload.id == id
    ensures CanReceive(s, id)
  {
    if s.slots[0].Idle? {
      IdleWorkerReceives(s, 0, i, id);
    } else {
      IdleWorkerReceives(Apply(s, Lose(0)), 0, i, id);
      ReceivesAfter(s, Lose(0), id);
    }
  }

  lemma HolderGivesBack(s: State, w: nat, id: int)
    requires w < |s.slots| && MayMark(s.slots[w], id)
    ensures CanReceive(s, id)
  {
    if s.slots[w].phase.Received? {
      HeldAlready(s, w, id);
    } else {
      QueuedIsReceived(Apply(s, Lose(w)), |s.queue|, id);
      ReceivesAfter(s, Lose(w), id);
    }
  }

  lemma SomeoneReceives(s: State, id: int)
    requires Sane(s) && !NobodyMarks(s, id)
    ensures CanReceive(s, id)
  {
    if id in s.creating {
      assert s.rows[id].id == id;
      QueuedIsReceived(Apply(s, Publish(id)), |s.queue|, id);
      ReceivesAfter(s, Publish(id), id);
    } else if i: nat :| i < |s.queue| && s.queue[i].payload.id == id {
      QueuedIsReceived(s, i, id);
    } else {
      var w: nat :| w < |s.slots| && MayMark(s.slots[w], id);
      HolderGivesBack(s, w, id);
    }
  }

  // ---------------------------------------------------------------- runs that write a row

  /** Some run takes the finished task back to PROCESSING. */
  ghost predicate CanReopen(s: State, id: int) {
    exists steps :: CanRun(s, steps) && id in Final(s, steps).rows && Final(s, steps).rows[id].status == PROCESSING
  }

  /** Some run finishes the task at the given instant, and leaves the queue and the workers' number as they
      are. */
  ghost predicate FinishesAt(s: State, id: int, now: int) {
    exists steps ::
      && CanRun(s, steps) && id in Final(s, steps).rows
      && Terminal(Final(s, steps).rows[id]) && Final(s, steps).rows[id].updatedAt == now
      && Final(s, steps).queue == s.queue && |Final(s, steps).slots| == |s.slots|
  }

  lemma FinishesAfter(s: State, st: Step, id: int, now: int)
    requires Enabled(s, st) && FinishesAt(Apply(s, st), id, now)
    requires Apply(s, st).queue == s.queue
    ensures FinishesAt(s, id, now)
  {
    var t := Apply(s, st);
    var steps :|
      && CanRun(t, steps) && id in Final(t, steps).rows
      && Terminal(Final(t, steps).rows[id]) && Final(t, steps).rows[id].updatedAt == now
      && Final(t, steps).queue == t.queue && |Final(t, steps).slots| == |t.slots|;
    RunCons(s, st, steps);
  }

  lemma MarkingFinishes(s: State, st: Step, id: int, now: int)
    requires Sane(s) && Enabled(s, st) && (st.Tx2? || st.GiveUp?) && st.now == now
    requires s.slots[st.w].msg.payload.id == id
    ensures FinishesAt(s, id, now)
  {
    assert SlotOk(s.rows, s.printable, s.slots[st.w]);
    var t := Apply(s, st);
    assert CanRun(t, []) && Final(t, []) == t;
    FinishesAfter(s, st, id, now);
  }

  /** A worker that has received a readable message, or is past the first transaction, can finish its task,
      unless it was cut off and would have to republish. */
  lemma WorkerFinishes(s: State, w: nat, id: int, now: int)
    requires Sane(s) && w < |s.slots| && s.slots[w].Busy? && s.slots[w].msg.payload.id == id && id in s.rows
    requires match s.slots[w].phase
             case Received => Encodable(s.rows[id].taskType, s.printable)
             case Marked => true
             case Handled(_) => true
             case Unfinalised => RetryCount(s.slots[w].msg) >= MAX_RETRIES
             case _ => false
    ensures FinishesAt(s, id, now)
    decreases match s.slots[w].phase case Received => 2 case Marked => 1 case _ => 0
  {
    assert SlotOk(s.rows, s.printable, s.slots[w]);
    match s.slots[w].phase
    case Received =>
      DecodeGivesPayload(s, s.slots[w].msg);
      SaneAfter(s, Tx1(w, now));
      WorkerFinishes(Apply(s, Tx1(w, now)), w, id, now);
      FinishesAfter(s, Tx1(w, now), id, now);
    case Marked =>
      SaneAfter(s, Handle(w));
      WorkerFinishes(Apply(s, Handle(w)), w, id, now);
      FinishesAfter(s, Handle(w), id, now);
    case Handled(_) => MarkingFinishes(s, Tx2(w, now), id, now);
    case Unfinalised => MarkingFinishes(s, GiveUp(w, now), id, now);
  }

  /** Some run finishes the task at the given instant. */
  ghost predicate CanFinish(s: State, id: int, now: int) {
    exists steps ::
      && CanRun(s, steps) && id in Final(s, steps).rows
      && Terminal(Final(s, steps).rows[id]) && Final(s, steps).rows[id].updatedAt == now
  }

  lemma {:induction false} PrintableStays(s: State, steps: seq<Step>)
    requires CanRun(s, steps)
    ensures Final(s, steps).printable == s.printable
    decreases |steps|
  {
    if steps == [] {
    } else {
      PrintableStays(Apply(s, steps[0]), steps[1..]);
    }
  }

  lemma ReceivingRun(s: State, id: int) returns (steps: seq<Step>, w: nat)
    requires Invariant(s) && !NobodyMarks(s, id)
    ensures CanRun(s, steps) && Invariant(Final(s, steps))
    ensures Final(s, steps).rows == s.rows && Final(s, steps).printable == s.printable
    ensures At(Final(s, steps), w, Received) && Final(s, steps).slots[w].msg.payload.id == id
  {
    SomeoneReceives(s, id);
    steps, w :|
      && CanRun(s, steps) && Final(s, steps).rows == s.rows
      && At(Final(s, steps), w, Received) && Final(s, steps).slots[w].msg.payload.id == id;
    InvariantAlong(s, steps);
    PrintableStays(s, steps);
  }

  lemma FinishesAfterRun(s: State, before: seq<Step>, id: int, now: int)
    requires CanRun(s, before) && CanFinish(Final(s, before), id, now)
    ensures CanFinish(s, id, now)
  {
    var t := Final(s, before);
    var after :|
      && CanRun(t, after) && id in Final(t, after).rows
      && Terminal(Final(t, after).rows[id]) && Final(t, after).rows[id].updatedAt == now;
    Joined(s, before, after);
  }

  lemma SomeoneFinishes(s: State, id: int, now: int)
    requires Invariant(s) && id in s.rows && Encodable(s.rows[id].taskType, s.printable) && !NobodyWrites(s, id)
    ensures CanFinish(s, id, now)
  {
    if NobodyMarks(s, id) {
      var w: nat :| w < |s.slots| && MayWrite(s.slots[w], id);
      WorkerFinishes(s, w, id, now);
    } else {
      var before, w := ReceivingRun(s, id);
      WorkerFinishes(Final(s, before), w, id, now);
      FinishesAfterRun(s, before, id, now);
    }
  }

  lemma ReceivedReopens(t: State, w: nat, id: int)
    requires Invariant(t) && id in t.rows && Terminal(t.rows[id])
    requires At(t, w, Received) && t.slots[w].msg.payload.id == id
    ensures CanRun(t, [Tx1(w, 0)])
    ensures id in Final(t, [Tx1(w, 0)]).rows && Final(t, [Tx1(w, 0)]).rows[id].status == PROCESSING
  {
    assert RowHonest(t.rows[id], t.log, t.printable) && SlotOk(t.rows, t.printable, t.slots[w]);
    DecodeGivesPayload(t, t.slots[w].msg);
    OneStep(t, Tx1(w, 0));
  }

  lemma SomeoneReopens(s: State, id: int)
    requires Invariant(s) && id in s.rows && Terminal(s.rows[id]) && !NobodyMarks(s, id)
    ensures CanReopen(s, id)
  {
    var before, w := ReceivingRun(s, id);
    ReceivedReopens(Final(s, before), w, id);
    Joined(s, before, [Tx1(w, 0)]);
  }

  // ---------------------------------------------------------------- theorems

  /** In every reachable state, redelivery included: some run takes a finished task back exactly when there
      is a worker and the task is about to be published, a message of it is queued or held in any phase, or
      a worker that was cut off has received one and not yet marked the task. Otherwise it stays finished. */
  lemma CanReopenIffSomeoneMarks(s: State, id: int)
    requires Reachable(s) && id in s.rows && Terminal(s.rows[id])
    ensures CanReopen(s, id) <==> !NobodyMarks(s, id)
    ensures NobodyMarks(s, id) ==>
      forall steps | CanRun(s, steps) :: id in Final(s, steps).rows && Terminal(Final(s, steps).rows[id])
  {
    ReachableInvariant(s);
    if NobodyMarks(s, id) {
      forall steps | CanRun(s, steps) ensures id in Final(s, steps).rows && Terminal(Final(s, steps).rows[id]) {
        NobodyMarksAlong(s, steps, id);
      }
    } else {
      SomeoneReopens(s, id);
    }
  }

  /** Nothing that can still happen changes the row. */
  ghost predicate RowIsFinal(s: State, id: int)
    requires id in s.rows
  {
    forall steps | CanRun(s, steps) :: id in Final(s, steps).rows && Final(s, steps).rows[id] == s.rows[id]
  }

  /** In every reachable state: nothing can change a finished row any more exactly when, besides, no worker
      that was cut off can still mark its outcome. */
  lemma FinishedRowIsFinalIffNobodyWrites(s: State, id: int)
    requires Reachable(s) && id in s.rows && Terminal(s.rows[id])
    ensures RowIsFinal(s, id) <==> NobodyWrites(s, id)
  {
    ReachableInvariant(s);
    if NobodyWrites(s, id) {
      forall steps | CanRun(s, steps) ensures id in Final(s, steps).rows && Final(s, steps).rows[id] == s.rows[id] {
        NobodyWritesAlong(s, steps, id);
      }
    } else {
      assert RowHonest(s.rows[id], s.log, s.printable);
      var now := s.rows[id].updatedAt + 1;
      SomeoneFinishes(s, id, now);
      var steps :|
        && CanRun(s, steps) && id in Final(s, steps).rows
        && Terminal(Final(s, steps).rows[id]) && Final(s, steps).rows[id].updatedAt == now;
      assert Final(s, steps).rows[id] != s.rows[id];
    }
  }

  /** In every reachable state: some run finishes an unfinished task exactly when the queue body can carry
      its type and somebody can still write its row. A task for which that fails stays unfinished. */
  lemma CanFinishIffSomeoneWrites(s: State, id: int, now: int)
    requires Reachable(s) && id in s.rows && Unfinished(s.rows[id])
    ensures CanFinish(s, id, now) <==> Encodable(s.rows[id].taskType, s.printable) && !NobodyWrites(s, id)
    ensures !CanFinish(s, id, now) ==>
      forall steps | CanRun(s, steps) :: id in Final(s, steps).rows && Unfinished(Final(s, steps).rows[id])
  {
    ReachableInvariant(s);
    if Encodable(s.rows[id].taskType, s.printable) && !NobodyWrites(s, id) {
      SomeoneFinishes(s, id, now);
    } else {
      forall steps | CanRun(s, steps) ensures id in Final(s, steps).rows && Unfinished(Final(s, steps).rows[id]) {
        if NobodyWrites(s, id) {
          NobodyWritesAlong(s, steps, id);
        } else {
          RunKeepsReachable(s, steps);
          TypeStays(s, steps, id);
          PrintableStays(s, steps);
          UnreadableTaskStaysPending(Final(s, steps), id);
        }
      }
    }
  }
}
