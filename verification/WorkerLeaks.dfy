/** What the leaks of a task mean as long as no message of it is redelivered: a leak is for good, there are
    four kinds of it, and a drained task is finished or leaked, never both. */
module WorkerLeaks {
  import opened Prelude
  import opened QueueBody
  import opened TaskTable
  import opened WorkerBounds
  import opened WorkerDiscipline
  import opened WorkerPool
  import opened WorkerRuns
  import opened WorkerSafety
  import opened WorkerTheorems
  import opened WorkerWeights

  function Redelivered(s: State, id: int): nat {
    Count(s.log.redelivered, Some(id))
  }

  /** A leaked task is unfinished and nobody acts on it any more. */
  ghost predicate LeakIsFinal(s: State, id: int) {
    HasLeaked(s, id) ==> id in s.rows && Unfinished(s.rows[id]) && Weight(Actors(id), s) + Creators(s, id) == 0
  }

  /** Every worker that has a message of the task is connected. */
  predicate AllConnected(s: State, id: int) {
    && (id, CutOffWorkerLost) !in s.log.leaks
    && forall w | 0 <= w < |s.slots| && s.slots[w].Busy? && s.slots[w].msg.payload.id == id :: s.slots[w].connected
  }

  ghost predicate Unspoilt(s: State, id: int) {
    Disciplined(s, id) && LeakIsFinal(s, id) && AllConnected(s, id)
  }

  lemma AllConnectedAfter(s: State, st: Step, id: int)
    requires Enabled(s, st) && AllConnected(s, id)
    requires GivesBack(s, st) ==> s.slots[st.w].msg.payload.id != id
    ensures AllConnected(Apply(s, st), id)
  {
  }

  lemma HolderIsOnlyActor(s: State, w: nat, id: int)
    requires id in s.rows && OneActor(s, id)
    requires w < |s.slots| && Active(s.slots[w]) && s.slots[w].msg.payload.id == id
    ensures Unfinished(s.rows[id]) && Weight(Actors(id), s) == 1 && Creators(s, id) == 0
  {
    SlotsWeightNonNegative(Actors(id), s.slots);
    QueueWeightNonNegative(Actors(id), s.queue);
    assert SlotWeight(Actors(id), s.slots[w]) == 1;
  }

  lemma NewLeakIsFinal(s: State, st: Step, id: int)
    requires Sane(s) && Enabled(s, st) && Disciplined(s, id) && AllConnected(s, id) && !Harms(s, st, id)
    requires NextLeak(s, st).Some? && NextLeak(s, st).value.0 == id
    ensures LeakIsFinal(Apply(s, st), id)
  {
    if st.PublishFails? {
      OneActorExactly(s, st, id);
      HeldCopyCounts(s, st, Actors(id));
      WeightAfter(Actors(id), s, st);
    } else {
      assert SlotOk(s.rows, s.printable, s.slots[st.w]);
      HolderIsOnlyActor(s, st.w, id);
      DroppingRemovesActor(s, st, id);
      WeightAfter(Actors(id), s, st);
    }
  }

  /** Nobody acts on a leaked task, so no step finishes it or adds an actor. */
  lemma OldLeakStaysFinal(s: State, st: Step, id: int)
    requires Sane(s) && Enabled(s, st) && Disciplined(s, id) && HasLeaked(s, id) && LeakIsFinal(s, id)
    requires GivesBack(s, st) ==> s.slots[st.w].msg.payload.id != id
    ensures LeakIsFinal(Apply(s, st), id)
  {
    RowMovesForward(s, st, id);
    HeldCopyCounts(s, st, Actors(id));
    WeightAfter(Actors(id), s, st);
    OnlyPublishingAndGivingBackAddActors(s, st, id);
    CreatorsAfter(s, st, id);
    if Terminal(Apply(s, st).rows[id]) {
      HolderIsOnlyActor(s, st.w, id);
    }
  }

  lemma UnspoiltAfter(s: State, st: Step, id: int)
    requires Sane(s) && Enabled(s, st) && Unspoilt(s, id)
    requires GivesBack(s, st) ==> s.slots[st.w].msg.payload.id != id
    ensures Unspoilt(Apply(s, st), id)
  {
    DisciplinedAfter(s, st, id);
    AllConnectedAfter(s, st, id);
    if HasLeaked(s, id) {
      OldLeakStaysFinal(s, st, id);
    } else if HasLeaked(Apply(s, st), id) {
      NewLeakIsFinal(s, st, id);
    }
  }

  lemma {:induction false} UnspoiltAlong(s: State, steps: seq<Step>, id: int)
    requires Invariant(s) && CanRun(s, steps) && Unspoilt(s, id)
    requires Redelivered(Final(s, steps), id) == Redelivered(s, id)
    ensures Unspoilt(Final(s, steps), id)
    decreases |steps|
  {
    if steps == [] {
    } else {
      RedeliveredAfter(s, steps[0], Some(id));
      RedeliveriesGrow(Apply(s, steps[0]), steps[1..], id);
      UnspoiltAfter(s, steps[0], id);
      InvariantAfter(s, steps[0]);
      UnspoiltAlong(Apply(s, steps[0]), steps[1..], id);
    }
  }

  lemma NotRedeliveredIsUnspoilt(s: State, id: int)
    requires Reachable(s) && Redelivered(s, id) == 0
    ensures Invariant(s) && Unspoilt(s, id)
  {
    var workers: nat, printable, steps :|
      CanRun(Start(workers, printable), steps) && Final(Start(workers, printable), steps) == s;
    InvariantAtStart(workers, printable);
    UnspoiltAlong(Start(workers, printable), steps, id);
    InvariantAlong(Start(workers, printable), steps);
  }

  /** Without redelivery of the task, an unfinished one that nobody acts on went through one of four leaks:
      its publication was lost, its body cannot be read, or its republication or the marking of its last
      failure failed. */
  lemma WithoutRedeliveryFourLeaks(s: State, id: int)
    requires Reachable(s) && Redelivered(s, id) == 0 && id in s.rows && Unfinished(s.rows[id])
    ensures Weight(Copies(id), s) >= 1 || id in s.creating ||
            exists leak :: (id, leak) in s.log.leaks && leak != CutOffWorkerLost
  {
    NotRedeliveredIsUnspoilt(s, id);
    NoTaskIsSilentlyLost(s, id);
  }

  /** Without redelivery of the task, in a drained pool: it is finished exactly when it has not leaked. */
  lemma DrainedTaskIsFinishedIffNotLeaked(s: State, id: int)
    requires Reachable(s) && Drained(s) && id in s.rows && Redelivered(s, id) == 0
    ensures Terminal(s.rows[id]) <==> forall leak :: (id, leak) !in s.log.leaks
  {
    NotRedeliveredIsUnspoilt(s, id);
    DrainedPoolHasSettledEveryTask(s, id);
    if leak :| (id, leak) in s.log.leaks {
      assert HasLeaked(s, id);
    }
  }

  // ---------------------------------------------------------------- the fifth leak

  /** One task, two workers. */
  predicate Duo(s: State, m: Message, queue: seq<Message>, slots: seq<Slot>, status: Status) {
    && s.rows.Keys == {1} && s.rows[1].id == 1 && s.rows[1].taskType == "send_email" && IsInt64(s.rows[1].userId)
    && s.rows[1].status == status
    && m == Message(PayloadOf(s.rows[1]), None)
    && s.queue == queue && s.slots == slots && |slots| == 2
    && s.creating == {} && s.log.leaks == {}
  }

  lemma Take(s: State, m: Message, slots: seq<Slot>, status: Status, w: nat) returns (t: State)
    requires Reachable(s) && Duo(s, m, [m], slots, status) && w < 2 && slots[w].Idle?
    ensures Reachable(t) && Duo(t, m, [], slots[w := Busy(m, Received, true)], status)
  {
    t := Apply(s, Deliver(w, 0));
    ReachableStep(s, Deliver(w, 0));
  }

  lemma CutOffFirst(s: State, m: Message, slots: seq<Slot>, status: Status) returns (t: State)
    requires Reachable(s) && Duo(s, m, [], slots, status) && slots[0] == Busy(m, Received, true)
    ensures Reachable(t) && Duo(t, m, [m], slots[0 := Busy(m, Received, false)], status)
  {
    t := Apply(s, CutOff(0));
    ReachableStep(s, CutOff(0));
  }

  lemma CanBeMarked(s: State, m: Message, slots: seq<Slot>, status: Status, w: nat)
    requires Duo(s, m, [], slots, status)
    requires w < 2 && slots[w].Busy? && slots[w].msg == m && slots[w].phase.Received?
    ensures Enabled(s, Tx1(w, 0))
  {
    BodyRoundTrip(m.payload, s.printable);
    assert Encodable(m.payload.taskType, s.printable);
  }

  lemma Mark(s: State, m: Message, slots: seq<Slot>, status: Status, w: nat) returns (t: State)
    requires Reachable(s) && Duo(s, m, [], slots, status)
    requires w < 2 && slots[w].Busy? && slots[w].msg == m && slots[w].phase.Received?
    ensures Reachable(t) && Duo(t, m, [], slots[w := slots[w].(phase := Marked)], PROCESSING)
  {
    CanBeMarked(s, m, slots, status, w);
    t := Apply(s, Tx1(w, 0));
    ReachableStep(s, Tx1(w, 0));
  }

  lemma HandleSecond(s: State, m: Message, slots: seq<Slot>, status: Status) returns (t: State)
    requires Reachable(s) && Duo(s, m, [], slots, status) && slots[1] == Busy(m, Marked, true)
    ensures Reachable(t) && Duo(t, m, [], slots[1 := Busy(m, Handled(None), true)], status)
  {
    t := Apply(s, Handle(1));
    ReachableStep(s, Handle(1));
  }

  lemma FinishSecond(s: State, m: Message, slots: seq<Slot>, status: Status) returns (t: State)
    requires Reachable(s) && Duo(s, m, [], slots, status) && slots[1] == Busy(m, Handled(None), true)
    ensures Reachable(t) && Duo(t, m, [], slots[1 := Busy(m, Settling(Remove), true)], SUCCESS)
  {
    t := Apply(s, Tx2(1, 0));
    ReachableStep(s, Tx2(1, 0));
  }

  lemma SettleSecond(s: State, m: Message, slots: seq<Slot>, status: Status) returns (t: State)
    requires Reachable(s) && Duo(s, m, [], slots, status) && slots[1] == Busy(m, Settling(Remove), true)
    ensures Reachable(t) && Duo(t, m, [], slots[1 := Idle], status)
  {
    t := Apply(s, Settle(1));
    ReachableStep(s, Settle(1));
  }

  lemma LoseFirst(s: State, m: Message) returns (t: State)
    requires Reachable(s) && Duo(s, m, [], [Busy(m, Marked, false), Idle], PROCESSING)
    ensures Reachable(t) && Drained(t) && t.log.leaks == {(1, CutOffWorkerLost)} && t.rows == s.rows
  {
    t := Apply(s, Lose(0));
    ReachableStep(s, Lose(0));
  }

  lemma PublishedToTwo(printable: char -> bool) returns (s: State, m: Message)
    ensures Reachable(s) && Duo(s, m, [m], [Idle, Idle], PENDING)
  {
    var s0 := Start(2, printable);
    ReachableStart(2, printable);
    ReachableStep(s0, Create(7, "send_email", 0));
    var s1 := Apply(s0, Create(7, "send_email", 0));
    ReachableStep(s1, Publish(1));
    s := Apply(s1, Publish(1));
    m := Message(PayloadOf(s.rows[1]), None);
    assert s.slots == [Idle, Idle];
  }

  lemma TakenBehindCutOffWorker(printable: char -> bool) returns (s: State, m: Message)
    ensures Reachable(s) && Duo(s, m, [], [Busy(m, Received, false), Busy(m, Received, true)], PENDING)
  {
    s, m := PublishedToTwo(printable);
    s := Take(s, m, [Idle, Idle], PENDING, 0);
    s := CutOffFirst(s, m, [Busy(m, Received, true), Idle], PENDING);
    s := Take(s, m, [Busy(m, Received, false), Idle], PENDING, 1);
  }

  lemma HandledBehindCutOffWorker(printable: char -> bool) returns (s: State, m: Message)
    ensures Reachable(s) && Duo(s, m, [], [Busy(m, Received, false), Busy(m, Handled(None), true)], PROCESSING)
  {
    s, m := TakenBehindCutOffWorker(printable);
    s := Mark(s, m, [Busy(m, Received, false), Busy(m, Received, true)], PENDING, 1);
    s := HandleSecond(s, m, [Busy(m, Received, false), Busy(m, Marked, true)], PROCESSING);
  }

  /** A worker is cut off, and the other one finishes the task with the message queued again. */
  lemma FinishedBehindCutOffWorker(printable: char -> bool) returns (s: State, m: Message)
    ensures Reachable(s) && Duo(s, m, [], [Busy(m, Received, false), Idle], SUCCESS)
  {
    s, m := HandledBehindCutOffWorker(printable);
    s := FinishSecond(s, m, [Busy(m, Received, false), Busy(m, Handled(None), true)], PROCESSING);
    s := SettleSecond(s, m, [Busy(m, Received, false), Busy(m, Settling(Remove), true)], SUCCESS);
  }

  /** With redelivery four leaks are not enough: the cut-off worker marks the finished task PROCESSING again
      and is lost, and the task stays PROCESSING with no message left and no other leak. */
  lemma CutOffWorkerLostLeaksTask(printable: char -> bool)
    ensures exists s ::
      && Reachable(s) && Drained(s) && 1 in s.rows && s.rows[1].status == PROCESSING
      && s.log.leaks == {(1, CutOffWorkerLost)}
  {
    var s, m := FinishedBehindCutOffWorker(printable);
    s := Mark(s, m, [Busy(m, Received, false), Idle], SUCCESS, 0);
    s := LoseFirst(s, m);
  }
}
