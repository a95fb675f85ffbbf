/** What every run of the pool keeps, whatever fails and however often messages are redelivered. */
module WorkerSafety {
  import opened Prelude
  import opened TaskTable
  import opened QueueBody
  import opened WorkerPool
  import opened WorkerWeights

  // ---------------------------------------------------------------- shape of the state

  /** A message carries the identity of its row and a retry count from 0 to 3. */
  predicate MessageOk(rows: Table, m: Message) {
    m.payload.id in rows && m.payload == PayloadOf(rows[m.payload.id]) && 0 <= RetryCount(m) <= MAX_RETRIES
  }

  /** Only a message whose body can be read gets past the first transaction, and the handler's error
      is that of its task type. */
  predicate SlotOk(rows: Table, printable: char -> bool, slot: Slot) {
    slot.Busy? ==>
      && MessageOk(rows, slot.msg)
      && (slot.phase.Marked? || slot.phase.Handled? || slot.phase.Unfinalised? ==>
            Encodable(slot.msg.payload.taskType, printable))
      && (slot.phase.Handled? ==> slot.phase.failure == HandleTask(slot.msg.payload))
  }

  predicate RowsOk(rows: Table, nextId: int) {
    && nextId >= 1
    && KeyedById(rows)
    && forall id | id in rows :: 1 <= id < nextId && IsInt64(id) && IsInt64(rows[id].userId)
  }

  ghost predicate Sane(s: State) {
    && RowsOk(s.rows, s.nextId)
    && s.creating <= s.rows.Keys
    && (forall i | 0 <= i < |s.queue| :: MessageOk(s.rows, s.queue[i]))
    && (forall w | 0 <= w < |s.slots| :: SlotOk(s.rows, s.printable, s.slots[w]))
  }

  lemma DecodeGivesPayload(s: State, m: Message)
    requires RowsOk(s.rows, s.nextId) && MessageOk(s.rows, m)
    ensures Decode(s, m) == if Encodable(m.payload.taskType, s.printable) then Some(m.payload) else None
  {
    BodyRoundTrip(m.payload, s.printable);
  }

  /** Every step leaves each row in the table with the same id, user, type and creation time. */
  lemma StepsKeepIdentity(s: State, st: Step)
    requires Enabled(s, st) && RowsOk(s.rows, s.nextId)
    ensures Evolves(s.rows, Apply(s, st).rows) && RowsOk(Apply(s, st).rows, Apply(s, st).nextId)
  {
  }

  lemma MessagesStayOk(s: State, st: Step)
    requires Sane(s) && Enabled(s, st)
    ensures var t := Apply(s, st); forall i | 0 <= i < |t.queue| :: MessageOk(t.rows, t.queue[i])
  {
    StepsKeepIdentity(s, st);
    var t := Apply(s, st);
    assert forall i | 0 <= i < |s.queue| :: MessageOk(t.rows, s.queue[i]);
    match st
    case Publish(id) => assert t.queue == s.queue + [Message(PayloadOf(s.rows[id]), None)];
    case Republish(w) => assert SlotOk(s.rows, s.printable, s.slots[w]);
    case Settle(w) => assert SlotOk(s.rows, s.printable, s.slots[w]);
    case Lose(w) => assert SlotOk(s.rows, s.printable, s.slots[w]);
    case _ =>
  }

  lemma SlotOfStepStaysOk(s: State, st: Step)
    requires Sane(s) && Enabled(s, st) && OnSlot(st)
    ensures SlotOk(s.rows, s.printable, NextSlot(s, st))
  {
    assert SlotOk(s.rows, s.printable, s.slots[st.w]);
    if st.Deliver? {
      assert MessageOk(s.rows, s.queue[st.i]);
    } else if st.Tx1? {
      DecodeGivesPayload(s, s.slots[st.w].msg);
    }
  }

  lemma SlotsStayOk(s: State, st: Step)
    requires Sane(s) && Enabled(s, st)
    ensures var t := Apply(s, st); forall w | 0 <= w < |t.slots| :: SlotOk(t.rows, t.printable, t.slots[w])
  {
    var t := Apply(s, st);
    StepsKeepIdentity(s, st);
    forall w | 0 <= w < |t.slots| ensures SlotOk(t.rows, t.printable, t.slots[w]) {
      if OnSlot(st) && w == st.w {
        SlotOfStepStaysOk(s, st);
      } else {
        assert SlotOk(s.rows, s.printable, s.slots[w]);
      }
    }
  }

  lemma SaneAfter(s: State, st: Step)
    requires Sane(s) && Enabled(s, st)
    ensures Sane(Apply(s, st))
  {
    StepsKeepIdentity(s, st);
    MessagesStayOk(s, st);
    SlotsStayOk(s, st);
  }

  // ---------------------------------------------------------------- no task is silently lost

  predicate Unfinished(row: Row) {
    row.status == PENDING || row.status == PROCESSING
  }

  predicate Terminal(row: Row) {
    row.status == SUCCESS || row.status == FAILED
  }

  ghost predicate HasLeaked(s: State, id: int) {
    exists leak :: (id, leak) in s.log.leaks
  }

  /** An unfinished task has a copy that will still be worked on, or its creator is about to publish
      one, or it went through one of the leaks. */
  ghost predicate Accounted(s: State, id: int) {
    Weight(Copies(id), s) >= 1 || id in s.creating || HasLeaked(s, id)
  }

  ghost predicate NothingLost(s: State) {
    forall id | id in s.rows && Unfinished(s.rows[id]) :: Accounted(s, id)
  }

  /** The steps after which a worker no longer works on its message. */
  predicate Drops(s: State, st: Step)
    requires Enabled(s, st)
  {
    || st.Reject? || st.Tx2? || st.GiveUp? || st.GiveUpFails? || st.RepublishFails?
    || (st.Lose? && Owing(s.slots[st.w]) && !s.slots[st.w].connected)
  }

  lemma {:induction false} QueueWeightNonNegative(k: Weighing, q: seq<Message>)
    requires k.Copies? || k.Actors?
    ensures QueueWeight(k, q) >= 0
    ensures forall i | 0 <= i < |q| :: QueueWeight(k, q) >= QueuedWeight(k, q[i])
  {
    if q == [] {
    } else {
      QueueWeightNonNegative(k, q[..|q| - 1]);
      forall i | 0 <= i < |q| ensures QueueWeight(k, q) >= QueuedWeight(k, q[i]) {
        if i < |q| - 1 {
          assert q[..|q| - 1][i] == q[i];
        }
      }
    }
  }

  lemma {:induction false} SlotsWeightNonNegative(k: Weighing, slots: seq<Slot>)
    requires k.Copies? || k.Actors?
    ensures SlotsWeight(k, slots) >= 0
    ensures forall w | 0 <= w < |slots| :: SlotsWeight(k, slots) >= SlotWeight(k, slots[w])
  {
    if slots == [] {
    } else {
      SlotsWeightNonNegative(k, slots[..|slots| - 1]);
      forall w | 0 <= w < |slots| ensures SlotsWeight(k, slots) >= SlotWeight(k, slots[w]) {
        if w < |slots| - 1 {
          assert slots[..|slots| - 1][w] == slots[w];
        }
      }
    }
  }

  /** A copy held by the worker that takes the step counts. */
  lemma HeldCopyCounts(s: State, st: Step, k: Weighing)
    requires Enabled(s, st) && (k.Copies? || k.Actors?)
    ensures Weight(k, s) >= 0
    ensures Weight(k, Apply(s, st)) >= 0
    ensures OnSlot(st) ==> Weight(k, Apply(s, st)) >= SlotWeight(k, NextSlot(s, st))
  {
    QueueWeightNonNegative(k, s.queue);
    SlotsWeightNonNegative(k, s.slots);
    QueueWeightNonNegative(k, Apply(s, st).queue);
    SlotsWeightNonNegative(k, Apply(s, st).slots);
    if OnSlot(st) {
      assert Apply(s, st).slots[st.w] == NextSlot(s, st);
    }
  }

  lemma OnlyDropsRemoveCopies(s: State, st: Step, id: int)
    requires Enabled(s, st)
    requires !Drops(s, st) || s.slots[st.w].msg.payload.id != id
    ensures QueueChange(Copies(id), s, st) + SlotChange(Copies(id), s, st) >= 0
  {
  }

  lemma DroppedTaskIsFinishedOrLeaked(s: State, st: Step)
    requires Sane(s) && Enabled(s, st) && Drops(s, st)
    ensures var id := s.slots[st.w].msg.payload.id; var t := Apply(s, st);
      id in t.rows && (Terminal(t.rows[id]) || HasLeaked(t, id))
  {
    var id := s.slots[st.w].msg.payload.id;
    var t := Apply(s, st);
    assert SlotOk(s.rows, s.printable, s.slots[st.w]);
    match st
    case Reject(w) => assert (id, Unparsable) in t.log.leaks;
    case GiveUpFails(w) => assert (id, FinalMarkFailed) in t.log.leaks;
    case RepublishFails(w) => assert (id, RepublishFailed) in t.log.leaks;
    case Lose(w) => assert (id, CutOffWorkerLost) in t.log.leaks;
    case _ =>
  }

  /** Only a message that starts over can reopen a finished task, and that message is then held. */
  lemma ReopenedTaskHasCopy(s: State, st: Step, id: int)
    requires Sane(s) && Enabled(s, st) && id in s.rows
    requires Terminal(s.rows[id]) && Unfinished(Apply(s, st).rows[id])
    ensures Weight(Copies(id), Apply(s, st)) >= 1
  {
    assert st.Tx1? && s.slots[st.w].msg.payload.id == id;
    HeldCopyCounts(s, st, Copies(id));
  }

  lemma LeaksStay(s: State, st: Step, id: int)
    requires Enabled(s, st) && HasLeaked(s, id)
    ensures HasLeaked(Apply(s, st), id)
  {
    var leak :| (id, leak) in s.log.leaks;
    assert (id, leak) in Apply(s, st).log.leaks;
  }

  lemma CreatorHandsOver(s: State, st: Step, id: int)
    requires Enabled(s, st) && id in s.creating && Weight(Copies(id), s) >= 0 && RowsOk(s.rows, s.nextId)
    ensures Accounted(Apply(s, st), id)
  {
    WeightAfter(Copies(id), s, st);
    if st == PublishFails(id) {
      assert (id, PublishLost) in Apply(s, st).log.leaks;
    }
  }

  lemma AccountedAfter(s: State, st: Step, id: int)
    requires Sane(s) && Enabled(s, st) && id in s.rows
    requires Unfinished(Apply(s, st).rows[id])
    requires Unfinished(s.rows[id]) ==> Accounted(s, id)
    ensures Accounted(Apply(s, st), id)
  {
    HeldCopyCounts(s, st, Copies(id));
    if Terminal(s.rows[id]) {
      ReopenedTaskHasCopy(s, st, id);
    } else if HasLeaked(s, id) {
      LeaksStay(s, st, id);
    } else if id in s.creating {
      CreatorHandsOver(s, st, id);
    } else if Drops(s, st) && s.slots[st.w].msg.payload.id == id {
      DroppedTaskIsFinishedOrLeaked(s, st);
    } else {
      OnlyDropsRemoveCopies(s, st, id);
      WeightAfter(Copies(id), s, st);
    }
  }

  lemma NothingLostAfter(s: State, st: Step)
    requires Sane(s) && NothingLost(s) && Enabled(s, st)
    ensures NothingLost(Apply(s, st))
  {
    var t := Apply(s, st);
    forall id | id in t.rows && Unfinished(t.rows[id]) ensures Accounted(t, id) {
      if id in s.rows {
        AccountedAfter(s, st, id);
      }
    }
  }
}
