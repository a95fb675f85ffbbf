/** Outcomes in the table are honest in every run: they say what the handler said, or that four second
    transactions failed. */
module WorkerOutcomes {
  import opened Prelude
  import opened TaskTable
  import opened QueueBody
  import opened WorkerPool
  import opened WorkerWeights
  import opened WorkerSafety

  function FailedFinals(log: Log, id: int): nat {
    Count(log.unfinalised, Some(id))
  }

  /** What a row may say. */
  predicate RowHonest(row: Row, log: Log, printable: char -> bool) {
    && (row.status == PENDING ==> row.resultFile.None? && row.errorMessage.None?)
    && (row.status != PENDING ==> Encodable(row.taskType, printable))
    && (row.status == SUCCESS ==> row.resultFile.Some?)
    && (row.status == FAILED ==> row.errorMessage.Some?)
    && (row.resultFile.Some? ==> row.resultFile.value == RESULT_FILE && KnownType(row.taskType))
    && (row.errorMessage.Some? ==>
          || (row.errorMessage.value == UnknownType(row.taskType) && !KnownType(row.taskType))
          || (row.errorMessage.value == MAX_RETRIES_REACHED &&
              FailedFinals(log, row.id) >= 4 && row.id in log.exhausted))
  }

  /** As many second transactions have failed for a task as each of its messages has retries behind
      it, and one more while a worker decides what to do about the last failure. */
  predicate MessageHonest(log: Log, m: Message) {
    FailedFinals(log, m.payload.id) >= RetryCount(m)
  }

  predicate SlotHonest(log: Log, slot: Slot) {
    slot.Busy? ==>
      FailedFinals(log, slot.msg.payload.id) >= RetryCount(slot.msg) + if slot.phase.Unfinalised? then 1 else 0
  }

  ghost predicate Honest(s: State) {
    && (forall id | id in s.rows :: RowHonest(s.rows[id], s.log, s.printable))
    && (forall id | id in s.log.exhausted :: FailedFinals(s.log, id) >= 4)
    && (forall i | 0 <= i < |s.queue| :: MessageHonest(s.log, s.queue[i]))
    && (forall w | 0 <= w < |s.slots| :: SlotHonest(s.log, s.slots[w]))
  }

  /** The log only grows. */
  lemma LogGrows(s: State, st: Step, id: int)
    requires Enabled(s, st)
    ensures FailedFinals(NextLog(s, st), id) == FailedFinals(s.log, id) +
            if st.Tx2Fails? && s.slots[st.w].msg.payload.id == id then 1 else 0
    ensures s.log.exhausted <= NextLog(s, st).exhausted
  {
    if st.Tx2Fails? {
      CountAppend(s.log.unfinalised, Some(id), s.slots[st.w].msg.payload.id);
    }
  }

  /** A message that gets to a transaction could be read. */
  lemma MarkedTaskIsReadable(s: State, st: Step)
    requires Sane(s) && Enabled(s, st) && (st.Tx1? || st.Tx2? || st.GiveUp?)
    ensures MessageOk(s.rows, s.slots[st.w].msg) && Encodable(s.slots[st.w].msg.payload.taskType, s.printable)
  {
    assert SlotOk(s.rows, s.printable, s.slots[st.w]);
    DecodeGivesPayload(s, s.slots[st.w].msg);
  }

  /** A row that a worker marks says what the handler said, or that the retries ran out. */
  lemma MarkedRowIsHonest(s: State, st: Step)
    requires Sane(s) && Honest(s) && Enabled(s, st) && (st.Tx1? || st.Tx2? || st.GiveUp?)
    ensures var id := s.slots[st.w].msg.payload.id;
      id in NextRows(s, st) && RowHonest(NextRows(s, st)[id], NextLog(s, st), s.printable)
  {
    var id := s.slots[st.w].msg.payload.id;
    MarkedTaskIsReadable(s, st);
    assert SlotOk(s.rows, s.printable, s.slots[st.w]) && SlotHonest(s.log, s.slots[st.w]);
    LogGrows(s, st, id);
    assert RowHonest(s.rows[id], s.log, s.printable);
  }

  lemma RowStaysHonest(s: State, st: Step, id: int)
    requires Sane(s) && Honest(s) && Enabled(s, st) && id in NextRows(s, st)
    ensures RowHonest(NextRows(s, st)[id], NextLog(s, st), s.printable)
  {
    if (st.Tx1? || st.Tx2? || st.GiveUp?) && s.slots[st.w].msg.payload.id == id {
      MarkedRowIsHonest(s, st);
    } else if id in s.rows {
      assert RowHonest(s.rows[id], s.log, s.printable) && NextRows(s, st)[id] == s.rows[id];
      LogGrows(s, st, id);
    }
  }

  lemma SlotOfStepStaysHonest(s: State, st: Step)
    requires Sane(s) && Honest(s) && Enabled(s, st) && OnSlot(st)
    ensures SlotHonest(NextLog(s, st), NextSlot(s, st))
  {
    var slot := s.slots[st.w];
    assert SlotHonest(s.log, slot);
    if slot.Busy? {
      LogGrows(s, st, slot.msg.payload.id);
    } else {
      assert MessageHonest(s.log, s.queue[st.i]);
      LogGrows(s, st, s.queue[st.i].payload.id);
    }
  }

  lemma SlotsStayHonest(s: State, st: Step)
    requires Sane(s) && Honest(s) && Enabled(s, st)
    ensures var t := Apply(s, st); forall w | 0 <= w < |t.slots| :: SlotHonest(t.log, t.slots[w])
  {
    var t := Apply(s, st);
    forall w | 0 <= w < |t.slots| ensures SlotHonest(t.log, t.slots[w]) {
      if OnSlot(st) && w == st.w {
        SlotOfStepStaysHonest(s, st);
      } else {
        assert SlotHonest(s.log, s.slots[w]);
        if s.slots[w].Busy? {
          LogGrows(s, st, s.slots[w].msg.payload.id);
        }
      }
    }
  }

  lemma QueueAfter(s: State, st: Step)
    requires Enabled(s, st)
    ensures forall i | 0 <= i < |Apply(s, st).queue| ::
              Apply(s, st).queue[i] in s.queue || Queued(s, st) == Some(Apply(s, st).queue[i])
  {
  }

  lemma MessagesStayHonest(s: State, st: Step)
    requires Sane(s) && Honest(s) && Enabled(s, st)
    ensures var t := Apply(s, st); forall i | 0 <= i < |t.queue| :: MessageHonest(t.log, t.queue[i])
  {
    var t := Apply(s, st);
    QueueAfter(s, st);
    forall i | 0 <= i < |t.queue| ensures MessageHonest(t.log, t.queue[i]) {
      LogGrows(s, st, t.queue[i].payload.id);
      if t.queue[i] in s.queue {
        var j :| 0 <= j < |s.queue| && s.queue[j] == t.queue[i];
        assert MessageHonest(s.log, s.queue[j]);
      } else if !st.Publish? {
        assert SlotHonest(s.log, s.slots[st.w]);
      }
    }
  }

  lemma ExhaustedHasFailedFourTimes(s: State, st: Step, id: int)
    requires Sane(s) && Honest(s) && Enabled(s, st) && id in NextLog(s, st).exhausted
    ensures FailedFinals(NextLog(s, st), id) >= 4
  {
    LogGrows(s, st, id);
    if st.GiveUp? {
      assert SlotHonest(s.log, s.slots[st.w]);
    }
  }

  lemma HonestAfter(s: State, st: Step)
    requires Sane(s) && Honest(s) && Enabled(s, st)
    ensures Honest(Apply(s, st))
  {
    var t := Apply(s, st);
    forall id | id in t.rows ensures RowHonest(t.rows[id], t.log, t.printable) {
      RowStaysHonest(s, st, id);
    }
    forall id | id in t.log.exhausted ensures FailedFinals(t.log, id) >= 4 {
      ExhaustedHasFailedFourTimes(s, st, id);
    }
    MessagesStayHonest(s, st);
    SlotsStayHonest(s, st);
  }
}
