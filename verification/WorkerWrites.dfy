/** What the steps of the pool write into the tasks table, column by column. */
module WorkerWrites {
  import opened Prelude
  import opened QueueBody
  import opened TaskTable
  import opened WorkerPool
  import opened WorkerSafety

  /** The handler knows four types and names any other in its error. */
  lemma HandlerAnswers(p: Payload)
    ensures HandleTask(p) ==
            if p.taskType in {"send_email", "generate_report", "resize_image", "cleanup_temp"} then None
            else Some("unknown task type: " + p.taskType)
  {
  }

  /** A new row is PENDING and carries the instant of its creation. */
  lemma CreateWritesNewRow(s: State, st: Step)
    requires Sane(s) && Enabled(s, st) && st.Create?
    ensures s.nextId !in s.rows
    ensures NextRows(s, st) ==
            s.rows[s.nextId := Row(s.nextId, st.userId, st.taskType, PENDING, None, None, st.now, st.now)]
  {
  }

  /** A transaction of a worker changes the row of its message and no other; the row keeps its identity and gets
      a new time of update. */
  lemma TransactionsChangeOneRow(s: State, st: Step)
    requires Sane(s) && Enabled(s, st) && (st.Tx1? || st.Tx2? || st.GiveUp?)
    ensures var id := s.slots[st.w].msg.payload.id;
      && id in s.rows && id in NextRows(s, st) && NextRows(s, st) - {id} == s.rows - {id}
      && SameIdentity(s.rows[id], NextRows(s, st)[id]) && NextRows(s, st)[id].updatedAt == st.now
  {
    assert SlotOk(s.rows, s.printable, s.slots[st.w]);
  }

  /** The first one makes it PROCESSING and leaves result and error alone. */
  lemma FirstTransactionWritesRow(s: State, w: nat, now: int)
    requires Sane(s) && Enabled(s, Tx1(w, now))
    ensures var id := s.slots[w].msg.payload.id;
      && id in s.rows && id in NextRows(s, Tx1(w, now))
      && var r, t := s.rows[id], NextRows(s, Tx1(w, now))[id];
         t.status == PROCESSING && t.resultFile == r.resultFile && t.errorMessage == r.errorMessage
  {
    TransactionsChangeOneRow(s, Tx1(w, now));
  }

  /** The second one marks the outcome that goes with the type. */
  lemma SecondTransactionWritesRow(s: State, w: nat, now: int)
    requires Sane(s) && Enabled(s, Tx2(w, now))
    ensures var id := s.slots[w].msg.payload.id;
      && id in s.rows && id in NextRows(s, Tx2(w, now))
      && var r, t := s.rows[id], NextRows(s, Tx2(w, now))[id];
         if r.taskType in {"send_email", "generate_report", "resize_image", "cleanup_temp"}
         then t.status == SUCCESS && t.resultFile == Some("result.txt") && t.errorMessage == r.errorMessage
         else t.status == FAILED && t.resultFile == r.resultFile &&
              t.errorMessage == Some("unknown task type: " + r.taskType)
  {
    TransactionsChangeOneRow(s, Tx2(w, now));
    assert SlotOk(s.rows, s.printable, s.slots[w]);
    HandlerAnswers(s.slots[w].msg.payload);
  }

  /** The last one marks it FAILED for want of retries. */
  lemma LastTransactionWritesRow(s: State, w: nat, now: int)
    requires Sane(s) && Enabled(s, GiveUp(w, now))
    ensures var id := s.slots[w].msg.payload.id;
      && id in s.rows && id in NextRows(s, GiveUp(w, now))
      && var r, t := s.rows[id], NextRows(s, GiveUp(w, now))[id];
         t.status == FAILED && t.resultFile == r.resultFile && t.errorMessage == Some("max retries reached")
  {
    TransactionsChangeOneRow(s, GiveUp(w, now));
  }

  lemma OtherStepsWriteNothing(s: State, st: Step)
    requires Enabled(s, st) && !st.Create? && !st.Tx1? && !st.Tx2? && !st.GiveUp?
    ensures NextRows(s, st) == s.rows
  {
  }
}
