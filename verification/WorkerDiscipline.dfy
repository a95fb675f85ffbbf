/** What a task keeps as long as no message of it comes back in a harmful way: one actor at a time, that
    is one message copy or worker that can still write its row, and a status that only moves forward.
    Anything else may fail, workers may be lost, and other tasks may fare as they will. */
module WorkerDiscipline {
  import opened TaskTable
  import opened WorkerPool
  import opened WorkerWeights
  import opened WorkerSafety

  function Creators(s: State, id: int): int {
    if id in s.creating then 1 else 0
  }

  /** The result is set exactly on SUCCESS and the error exactly on FAILED. */
  predicate ColumnsMatchStatus(row: Row) {
    && (row.resultFile.Some? <==> row.status == SUCCESS)
    && (row.errorMessage.Some? <==> row.status == FAILED)
  }

  /** One actor or creator at most, none once the task is finished. */
  predicate OneActor(s: State, id: int)
    requires id in s.rows
  {
    && Weight(Actors(id), s) + Creators(s, id) <= 1
    && (Terminal(s.rows[id]) ==> Weight(Actors(id), s) + Creators(s, id) == 0)
    && ColumnsMatchStatus(s.rows[id])
  }

  /** The worker is between its two transactions for the task, and can still write its row. */
  predicate Between(slot: Slot, id: int) {
    Owing(slot) && Active(slot) && slot.msg.payload.id == id
  }

  /** A worker between its two transactions holds a task that is PROCESSING. */
  predicate InStep(s: State, id: int)
    requires id in s.rows
  {
    forall w | 0 <= w < |s.slots| && Between(s.slots[w], id) :: s.rows[id].status == PROCESSING
  }

  predicate Disciplined(s: State, id: int) {
    id in s.rows ==> OneActor(s, id) && InStep(s, id)
  }

  /** The broker queues a message of the task again, and that makes one actor more: its worker had
      finished with it, or goes on with it. */
  predicate AddsActor(s: State, st: Step, id: int)
    requires Enabled(s, st)
  {
    && GivesBack(s, st) && s.slots[st.w].msg.payload.id == id
    && (!Active(s.slots[st.w]) || Active(NextSlot(s, st)))
  }

  /** It does so although the task is finished or has another actor or its creator. */
  predicate Harms(s: State, st: Step, id: int)
    requires Enabled(s, st)
  {
    AddsActor(s, st, id) && id in s.rows && (Terminal(s.rows[id]) || Weight(Actors(id), s) + Creators(s, id) >= 1)
  }

  /** No step of the run harms the task. */
  predicate Undisturbed(s: State, steps: seq<Step>, id: int)
    requires CanRun(s, steps)
    decreases |steps|
  {
    steps == [] || (!Harms(s, steps[0], id) && Undisturbed(Apply(s, steps[0]), steps[1..], id))
  }

  /** The changes of status that one step can make. */
  predicate Follows(before: Status, after: Status) {
    || before == after
    || (before == PENDING && after == PROCESSING)
    || (before == PROCESSING && (after == SUCCESS || after == FAILED))
  }

  function Rank(status: Status): int {
    match status
    case PENDING => 0
    case PROCESSING => 1
    case SUCCESS => 2
    case FAILED => 2
  }

  /** `after` is the row `before` at a later time: the status has not gone back, and a finished row has
      not changed at all. */
  predicate Later(before: Row, after: Row) {
    Rank(before.status) <= Rank(after.status) && (Terminal(before) ==> after == before)
  }

  lemma {:induction false} NoActorInQueue(q: seq<Message>, id: int)
    requires forall i | 0 <= i < |q| :: q[i].payload.id != id
    ensures QueueWeight(Actors(id), q) == 0
  {
    if q == [] {
    } else {
      NoActorInQueue(q[..|q| - 1], id);
    }
  }

  lemma {:induction false} NoActorHolds(slots: seq<Slot>, id: int)
    requires forall w | 0 <= w < |slots| && Active(slots[w]) :: slots[w].msg.payload.id != id
    ensures SlotsWeight(Actors(id), slots) == 0
  {
    if slots == [] {
    } else {
      NoActorHolds(slots[..|slots| - 1], id);
    }
  }

  lemma OnlyPublishingAndGivingBackAddActors(s: State, st: Step, id: int)
    requires Enabled(s, st) && RowsOk(s.rows, s.nextId)
    ensures QueueChange(Actors(id), s, st) + SlotChange(Actors(id), s, st)
            <= if st == Publish(id) || AddsActor(s, st, id) then 1 else 0
    ensures AddsActor(s, st, id) ==> QueueChange(Actors(id), s, st) + SlotChange(Actors(id), s, st) == 1
  {
  }

  lemma DroppingRemovesActor(s: State, st: Step, id: int)
    requires Enabled(s, st) && Drops(s, st) && s.slots[st.w].msg.payload.id == id && Active(s.slots[st.w])
    ensures QueueChange(Actors(id), s, st) + SlotChange(Actors(id), s, st) == -1
  {
  }

  lemma NewTaskHasNoActor(s: State, st: Step)
    requires Sane(s) && Enabled(s, st) && st.Create?
    ensures Weight(Actors(s.nextId), Apply(s, st)) == 0
  {
    forall i | 0 <= i < |s.queue| ensures s.queue[i].payload.id != s.nextId {
      assert MessageOk(s.rows, s.queue[i]);
    }
    forall w | 0 <= w < |s.slots| && Active(s.slots[w]) ensures s.slots[w].msg.payload.id != s.nextId {
      assert SlotOk(s.rows, s.printable, s.slots[w]);
    }
    NoActorInQueue(s.queue, s.nextId);
    NoActorHolds(s.slots, s.nextId);
  }

  /** A transaction touches a row whose only actor is its worker. */
  lemma MarkedTaskIsUnfinished(s: State, st: Step, id: int)
    requires Enabled(s, st) && id in s.rows && OneActor(s, id)
    requires (st.Tx1? || st.Tx2? || st.GiveUp?) && s.slots[st.w].msg.payload.id == id
    ensures Unfinished(s.rows[id]) && Weight(Actors(id), s) == 1 && Creators(s, id) == 0
  {
    SlotsWeightNonNegative(Actors(id), s.slots);
    QueueWeightNonNegative(Actors(id), s.queue);
    assert SlotWeight(Actors(id), s.slots[st.w]) == 1;
  }

  /** How a step changes a row, when the task has one actor. */
  lemma RowMovesForward(s: State, st: Step, id: int)
    requires Enabled(s, st) && id in s.rows && OneActor(s, id) && RowsOk(s.rows, s.nextId)
    ensures id in Apply(s, st).rows && Later(s.rows[id], Apply(s, st).rows[id])
    ensures ColumnsMatchStatus(Apply(s, st).rows[id])
    ensures Terminal(Apply(s, st).rows[id]) && !Terminal(s.rows[id]) ==>
      Drops(s, st) && s.slots[st.w].msg.payload.id == id
  {
    if (st.Tx1? || st.Tx2? || st.GiveUp?) && s.slots[st.w].msg.payload.id == id {
      MarkedTaskIsUnfinished(s, st, id);
    }
  }

  lemma CreatorsAfter(s: State, st: Step, id: int)
    requires Enabled(s, st) && id in s.rows && RowsOk(s.rows, s.nextId)
    ensures Creators(Apply(s, st), id) ==
            if st == Publish(id) || st == PublishFails(id) then Creators(s, id) - 1 else Creators(s, id)
  {
  }

  /** A step leaves a task with one actor exactly when it does not harm the task. */
  lemma OneActorExactly(s: State, st: Step, id: int)
    requires Sane(s) && Enabled(s, st) && id in s.rows && OneActor(s, id)
    ensures id in Apply(s, st).rows
    ensures OneActor(Apply(s, st), id) <==> !Harms(s, st, id)
  {
    RowMovesForward(s, st, id);
    HeldCopyCounts(s, st, Actors(id));
    WeightAfter(Actors(id), s, st);
    OnlyPublishingAndGivingBackAddActors(s, st, id);
    if Terminal(Apply(s, st).rows[id]) && !Terminal(s.rows[id]) {
      DroppingRemovesActor(s, st, id);
    }
    CreatorsAfter(s, st, id);
  }

  /** The task has one actor in every state of the run. */
  predicate AlwaysOneActor(s: State, steps: seq<Step>, id: int)
    requires CanRun(s, steps)
    decreases |steps|
  {
    id in s.rows && OneActor(s, id) && (steps == [] || AlwaysOneActor(Apply(s, steps[0]), steps[1..], id))
  }

  /** The task has one actor throughout a run exactly when no step of the run harms it. */
  lemma {:induction false} OneActorThroughoutIffUndisturbed(s: State, steps: seq<Step>, id: int)
    requires Sane(s) && CanRun(s, steps) && id in s.rows && OneActor(s, id)
    ensures AlwaysOneActor(s, steps, id) <==> Undisturbed(s, steps, id)
    decreases |steps|
  {
    if steps == [] {
    } else {
      OneActorExactly(s, steps[0], id);
      SaneAfter(s, steps[0]);
      if !Harms(s, steps[0], id) {
        OneActorThroughoutIffUndisturbed(Apply(s, steps[0]), steps[1..], id);
      }
    }
  }

  lemma TwoHoldersWeighTwo(id: int, slots: seq<Slot>, v: nat, w: nat)
    requires v < |slots| && w < |slots| && v != w
    ensures SlotsWeight(Actors(id), slots) >= SlotWeight(Actors(id), slots[v]) + SlotWeight(Actors(id), slots[w])
  {
    SlotsUpdate(Actors(id), slots, v, Idle);
    SlotsWeightNonNegative(Actors(id), slots[v := Idle]);
    assert slots[v := Idle][w] == slots[w];
  }

  /** A step changes no row that another worker is between two transactions of. */
  lemma HeldRowIsLeftAlone(s: State, st: Step, v: nat, id: int)
    requires Sane(s) && Enabled(s, st) && v < |s.slots| && (OnSlot(st) ==> v != st.w)
    requires Between(s.slots[v], id) && id in s.rows && OneActor(s, id)
    ensures id in NextRows(s, st) && NextRows(s, st)[id] == s.rows[id]
  {
    if (st.Tx1? || st.Tx2? || st.GiveUp?) && s.slots[st.w].msg.payload.id == id {
      TwoHoldersWeighTwo(id, s.slots, v, st.w);
      QueueWeightNonNegative(Actors(id), s.queue);
    }
  }

  lemma SlotOfStepStaysInStep(s: State, st: Step, id: int)
    requires Sane(s) && Enabled(s, st) && OnSlot(st) && id in s.rows && InStep(s, id) && Between(NextSlot(s, st), id)
    ensures id in NextRows(s, st) && NextRows(s, st)[id].status == PROCESSING
  {
    assert SlotOk(s.rows, s.printable, s.slots[st.w]);
  }

  lemma StaysInStep(s: State, st: Step, id: int)
    requires Sane(s) && Enabled(s, st) && id in s.rows && Disciplined(s, id)
    ensures id in Apply(s, st).rows && InStep(Apply(s, st), id)
  {
    var t := Apply(s, st);
    StepsKeepIdentity(s, st);
    forall w | 0 <= w < |t.slots| && Between(t.slots[w], id) ensures t.rows[id].status == PROCESSING {
      if OnSlot(st) && w == st.w {
        SlotOfStepStaysInStep(s, st, id);
      } else {
        HeldRowIsLeftAlone(s, st, w, id);
      }
    }
  }

  lemma NewTaskIsHeldByNobody(s: State, st: Step)
    requires Sane(s) && Enabled(s, st) && st.Create?
    ensures Disciplined(Apply(s, st), s.nextId)
  {
    NewTaskHasNoActor(s, st);
    forall w | 0 <= w < |s.slots| ensures !Between(s.slots[w], s.nextId) {
      assert SlotOk(s.rows, s.printable, s.slots[w]);
    }
  }

  /** A row's status follows the order PENDING, PROCESSING, then SUCCESS or FAILED. */
  lemma StatusFollows(s: State, st: Step, id: int)
    requires Sane(s) && Enabled(s, st) && id in s.rows && Disciplined(s, id)
    ensures id in NextRows(s, st) && Follows(s.rows[id].status, NextRows(s, st)[id].status)
  {
    if (st.Tx1? || st.Tx2? || st.GiveUp?) && s.slots[st.w].msg.payload.id == id {
      MarkedTaskIsUnfinished(s, st, id);
      assert st.Tx2? || st.GiveUp? ==> Between(s.slots[st.w], id);
    }
  }

  lemma DisciplinedAfter(s: State, st: Step, id: int)
    requires Sane(s) && Enabled(s, st) && Disciplined(s, id) && !Harms(s, st, id)
    ensures Disciplined(Apply(s, st), id)
    ensures id in s.rows ==> id in Apply(s, st).rows && Later(s.rows[id], Apply(s, st).rows[id])
  {
    if id in s.rows {
      OneActorExactly(s, st, id);
      StaysInStep(s, st, id);
      RowMovesForward(s, st, id);
    } else if id in Apply(s, st).rows {
      NewTaskIsHeldByNobody(s, st);
    }
  }
}
