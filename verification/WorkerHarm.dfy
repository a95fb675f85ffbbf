/** The steps that harm a task are exactly those after which a run that does not harm it any more can finish
    it and then take it back to PROCESSING. */
module WorkerHarm {
  import opened QueueBody
  import opened TaskTable
  import opened WorkerDiscipline
  import opened WorkerOutcomes
  import opened WorkerPool
  import opened WorkerRuns
  import opened WorkerSafety
  import opened WorkerTheorems
  import opened WorkerWeights

  /** Some run that does not harm the task ends with its row PROCESSING. */
  ghost predicate TakesBack(s: State, id: int) {
    exists steps ::
      && CanRun(s, steps) && Undisturbed(s, steps, id)
      && id in Final(s, steps).rows && Final(s, steps).rows[id].status == PROCESSING
  }

  /** Some run that does not harm the task finishes it, and another one then takes it back. */
  ghost predicate FinishesAndTakesBack(s: State, id: int) {
    exists steps ::
      && CanRun(s, steps) && Undisturbed(s, steps, id)
      && id in Final(s, steps).rows && Terminal(Final(s, steps).rows[id]) && TakesBack(Final(s, steps), id)
  }

  lemma UndisturbedCons(s: State, st: Step, rest: seq<Step>, id: int)
    requires Enabled(s, st) && !Harms(s, st, id)
    requires CanRun(Apply(s, st), rest) && Undisturbed(Apply(s, st), rest, id)
    ensures CanRun(s, [st] + rest) && Undisturbed(s, [st] + rest, id)
    ensures Final(s, [st] + rest) == Final(Apply(s, st), rest)
  {
    assert ([st] + rest)[1..] == rest;
  }

  lemma TakesBackAfter(s: State, st: Step, id: int)
    requires Enabled(s, st) && !Harms(s, st, id) && TakesBack(Apply(s, st), id)
    ensures TakesBack(s, id)
  {
    var t := Apply(s, st);
    var rest :|
      && CanRun(t, rest) && Undisturbed(t, rest, id)
      && id in Final(t, rest).rows && Final(t, rest).rows[id].status == PROCESSING;
    UndisturbedCons(s, st, rest, id);
  }

  lemma FinishesAndTakesBackAfter(s: State, st: Step, id: int)
    requires Enabled(s, st) && !Harms(s, st, id) && FinishesAndTakesBack(Apply(s, st), id)
    ensures FinishesAndTakesBack(s, id)
  {
    var t := Apply(s, st);
    var rest :|
      && CanRun(t, rest) && Undisturbed(t, rest, id)
      && id in Final(t, rest).rows && Terminal(Final(t, rest).rows[id]) && TakesBack(Final(t, rest), id);
    UndisturbedCons(s, st, rest, id);
  }

  lemma FinishedAlready(s: State, id: int)
    requires id in s.rows && Terminal(s.rows[id]) && TakesBack(s, id)
    ensures FinishesAndTakesBack(s, id)
  {
    assert CanRun(s, []) && Undisturbed(s, [], id) && Final(s, []) == s;
  }

  // ---------------------------------------------------------------- taking a finished task back

  lemma ReceivedTakesBack(s: State, w: nat, id: int)
    requires Invariant(s) && id in s.rows && Terminal(s.rows[id])
    requires At(s, w, Received) && s.slots[w].msg.payload.id == id
    ensures TakesBack(s, id)
  {
    assert RowHonest(s.rows[id], s.log, s.printable) && SlotOk(s.rows, s.printable, s.slots[w]);
    DecodeGivesPayload(s, s.slots[w].msg);
    var t := Apply(s, Tx1(w, 0));
    assert CanRun(t, []) && Undisturbed(t, [], id) && Final(t, []) == t;
    TakesBackAfter(s, Tx1(w, 0), id);
  }

  lemma IdleWorkerTakesBack(s: State, w: nat, i: nat, id: int)
    requires Invariant(s) && id in s.rows && Terminal(s.rows[id])
    requires w < |s.slots| && s.slots[w].Idle? && i < |s.queue| && s.queue[i].payload.id == id
    ensures TakesBack(s, id)
  {
    InvariantAfter(s, Deliver(w, i));
    ReceivedTakesBack(Apply(s, Deliver(w, i)), w, id);
    TakesBackAfter(s, Deliver(w, i), id);
  }

  /** How a worker that has settled its message gets rid of it. */
  function LettingGo(s: State, w: nat): (st: Step)
    requires w < |s.slots| && s.slots[w].Busy? && s.slots[w].phase.Settling?
    ensures Enabled(s, st) && !st.Lose? && !st.CutOff?
  {
    if s.slots[w].connected then Settle(w) else SettleFails(w)
  }

  lemma LettingGoIsHarmless(s: State, w: nat, i: nat, id: int)
    requires Invariant(s) && i < |s.queue| && s.queue[i].payload.id == id
    requires w < |s.slots| && s.slots[w].Busy? && s.slots[w].phase.Settling?
    ensures var t := Apply(s, LettingGo(s, w));
      && Invariant(t) && t.rows == s.rows && |t.slots| == |s.slots| && t.slots[w].Idle?
      && i < |t.queue| && t.queue[i].payload.id == id
  {
    InvariantAfter(s, LettingGo(s, w));
  }

  lemma SettlingWorkerTakesBack(s: State, w: nat, i: nat, id: int)
    requires Invariant(s) && id in s.rows && Terminal(s.rows[id])
    requires i < |s.queue| && s.queue[i].payload.id == id
    requires w < |s.slots| && s.slots[w].Busy? && s.slots[w].phase.Settling?
    ensures TakesBack(s, id)
  {
    LettingGoIsHarmless(s, w, i, id);
    IdleWorkerTakesBack(Apply(s, LettingGo(s, w)), w, i, id);
    TakesBackAfter(s, LettingGo(s, w), id);
  }

  // ---------------------------------------------------------------- a worker beside a queued message

  /** The worker can still mark the outcome of the task. */
  predicate CanMarkOutcome(s: State, w: nat, id: int) {
    && w < |s.slots| && s.slots[w].Busy? && s.slots[w].msg.payload.id == id && id in s.rows
    && match s.slots[w].phase
       case Received => Encodable(s.rows[id].taskType, s.printable)
       case Marked => true
       case Handled(_) => true
       case Unfinalised => RetryCount(s.slots[w].msg) >= MAX_RETRIES
       case _ => false
  }

  /** Its next step. */
  function Marking(s: State, w: nat, id: int): (st: Step)
    requires CanMarkOutcome(s, w, id)
  {
    match s.slots[w].phase
    case Received => Tx1(w, 0)
    case Marked => Handle(w)
    case Handled(_) => Tx2(w, 0)
    case Unfinalised => GiveUp(w, 0)
  }

  function StepsToOutcome(slot: Slot): nat {
    if slot.Idle? then 0 else match slot.phase case Received => 2 case Marked => 1 case _ => 0
  }

  lemma MarkingFirst(s: State, w: nat, id: int)
    requires Invariant(s) && CanMarkOutcome(s, w, id) && s.slots[w].phase.Received?
    ensures Enabled(s, Tx1(w, 0))
    ensures var t := Apply(s, Tx1(w, 0)); t.queue == s.queue && CanMarkOutcome(t, w, id) && t.slots[w].phase.Marked?
  {
    assert SlotOk(s.rows, s.printable, s.slots[w]);
    DecodeGivesPayload(s, s.slots[w].msg);
  }

  lemma MarkingLast(s: State, w: nat, id: int)
    requires Invariant(s) && CanMarkOutcome(s, w, id) && (s.slots[w].phase.Handled? || s.slots[w].phase.Unfinalised?)
    ensures Enabled(s, Marking(s, w, id))
    ensures var t := Apply(s, Marking(s, w, id));
      && t.queue == s.queue && |t.slots| == |s.slots| && id in t.rows && Terminal(t.rows[id])
      && t.slots[w].Busy? && t.slots[w].phase.Settling?
  {
    assert SlotOk(s.rows, s.printable, s.slots[w]);
  }

  /** The worker finishes the task, lets go of its message and starts over with the queued one. */
  lemma WorkerFinishesAndTakesBack(s: State, w: nat, i: nat, id: int)
    requires Invariant(s) && CanMarkOutcome(s, w, id) && i < |s.queue| && s.queue[i].payload.id == id
    ensures FinishesAndTakesBack(s, id)
    decreases StepsToOutcome(s.slots[w])
  {
    var st := Marking(s, w, id);
    if s.slots[w].phase.Received? {
      MarkingFirst(s, w, id);
      InvariantAfter(s, st);
      WorkerFinishesAndTakesBack(Apply(s, st), w, i, id);
    } else if s.slots[w].phase.Marked? {
      InvariantAfter(s, st);
      WorkerFinishesAndTakesBack(Apply(s, st), w, i, id);
    } else {
      MarkingLast(s, w, id);
      InvariantAfter(s, st);
      SettlingWorkerTakesBack(Apply(s, st), w, i, id);
      FinishedAlready(Apply(s, st), id);
    }
    FinishesAndTakesBackAfter(s, st, id);
  }

  lemma TwoQueuedAreEnough(s: State, w: nat, i: nat, j: nat, id: int)
    requires Invariant(s) && id in s.rows && Encodable(s.rows[id].taskType, s.printable)
    requires w < |s.slots| && s.slots[w].Idle?
    requires i < j < |s.queue| && s.queue[i].payload.id == id && s.queue[j].payload.id == id
    ensures FinishesAndTakesBack(s, id)
  {
    InvariantAfter(s, Deliver(w, j));
    WorkerFinishesAndTakesBack(Apply(s, Deliver(w, j)), w, i, id);
    FinishesAndTakesBackAfter(s, Deliver(w, j), id);
  }

  lemma QueuedAndHeldAreEnough(s: State, w: nat, i: nat, v: nat, id: int)
    requires Invariant(s) && id in s.rows && Encodable(s.rows[id].taskType, s.printable)
    requires w < |s.slots| && s.slots[w].Idle? && i < |s.queue| && s.queue[i].payload.id == id
    requires v < |s.slots| && Active(s.slots[v]) && s.slots[v].msg.payload.id == id
    ensures FinishesAndTakesBack(s, id)
  {
    if s.slots[v].connected {
      InvariantAfter(s, Lose(v));
      TwoQueuedAreEnough(Apply(s, Lose(v)), w, i, |s.queue|, id);
      FinishesAndTakesBackAfter(s, Lose(v), id);
    } else {
      WorkerFinishesAndTakesBack(s, v, i, id);
    }
  }

  lemma QueuedAndCreatorAreEnough(s: State, w: nat, i: nat, id: int)
    requires Invariant(s) && id in s.rows && Encodable(s.rows[id].taskType, s.printable)
    requires w < |s.slots| && s.slots[w].Idle? && i < |s.queue| && s.queue[i].payload.id == id && id in s.creating
    ensures FinishesAndTakesBack(s, id)
  {
    InvariantAfter(s, Publish(id));
    TwoQueuedAreEnough(Apply(s, Publish(id)), w, i, |s.queue|, id);
    FinishesAndTakesBackAfter(s, Publish(id), id);
  }

  // ---------------------------------------------------------------- who else acts

  /** A queued message at `queued`, a worker at `held`, or the creator. */
  datatype Actor = InQueue(queued: nat) | AtWorker(held: nat) | Creator

  predicate Acts(s: State, a: Actor, id: int) {
    match a
    case InQueue(i) => i < |s.queue| && s.queue[i].payload.id == id
    case AtWorker(v) => v < |s.slots| && Active(s.slots[v]) && s.slots[v].msg.payload.id == id
    case Creator => id in s.creating
  }

  lemma SomeoneActs(s: State, id: int) returns (a: Actor)
    requires Weight(Actors(id), s) + Creators(s, id) >= 1
    ensures Acts(s, a, id)
  {
    if id in s.creating {
      return Creator;
    } else if i: nat :| i < |s.queue| && s.queue[i].payload.id == id {
      return InQueue(i);
    } else if v: nat :| v < |s.slots| && Active(s.slots[v]) && s.slots[v].msg.payload.id == id {
      return AtWorker(v);
    } else {
      NoActorInQueue(s.queue, id);
      NoActorHolds(s.slots, id);
      assert false;
    }
  }

  lemma {:induction false} OtherActorIsEnough(s: State, w: nat, i: nat, a: Actor, id: int)
    requires Invariant(s) && id in s.rows && Encodable(s.rows[id].taskType, s.printable)
    requires w < |s.slots| && s.slots[w].Idle? && i < |s.queue| && s.queue[i].payload.id == id
    requires Acts(s, a, id) && a != InQueue(i)
    ensures FinishesAndTakesBack(s, id)
  {
    match a
    case InQueue(j) => TwoQueuedAreEnough(s, w, if i < j then i else j, if i < j then j else i, id);
    case AtWorker(v) => QueuedAndHeldAreEnough(s, w, i, v, id);
    case Creator => QueuedAndCreatorAreEnough(s, w, i, id);
  }

  // ---------------------------------------------------------------- a harmful step

  /** The worker goes on after it was cut off. */
  lemma CutOffWorkerGoesOn(s: State, w: nat, id: int)
    requires Sane(s) && Enabled(s, CutOff(w)) && s.slots[w].msg.payload.id == id && id in s.rows
    requires Active(s.slots[w]) && Active(NextSlot(s, CutOff(w))) && Encodable(s.rows[id].taskType, s.printable)
    ensures var t := Apply(s, CutOff(w)); CanMarkOutcome(t, w, id) && t.queue == s.queue + [s.slots[w].msg]
  {
  }

  lemma HarmByWorkingWorker(s: State, w: nat, id: int)
    requires Invariant(s) && Enabled(s, CutOff(w)) && Harms(s, CutOff(w), id) && Active(s.slots[w])
    requires Encodable(s.rows[id].taskType, s.printable)
    ensures FinishesAndTakesBack(Apply(s, CutOff(w)), id)
  {
    InvariantAfter(s, CutOff(w));
    CutOffWorkerGoesOn(s, w, id);
    WorkerFinishesAndTakesBack(Apply(s, CutOff(w)), w, |s.queue|, id);
  }

  /** What holds of s in its own right holds once the settled message is queued again and its worker idle. */
  ghost predicate Beside(s: State, t: State, w: nat) {
    && w < |s.slots| && |t.slots| == |s.slots| && t.slots[w].Idle? && !Active(s.slots[w])
    && (forall v | 0 <= v < |s.slots| && v != w :: t.slots[v] == s.slots[v])
    && t.rows == s.rows && t.creating == s.creating && t.printable == s.printable
    && s.slots[w].Busy? && t.queue == s.queue + [s.slots[w].msg]
  }

  lemma BesideIsEnough(s: State, t: State, w: nat, id: int)
    requires Invariant(t) && Beside(s, t, w) && s.slots[w].msg.payload.id == id && id in s.rows
    requires Encodable(s.rows[id].taskType, s.printable)
    requires Terminal(s.rows[id]) || Weight(Actors(id), s) + Creators(s, id) >= 1
    ensures FinishesAndTakesBack(t, id)
  {
    if Terminal(s.rows[id]) {
      IdleWorkerTakesBack(t, w, |s.queue|, id);
      FinishedAlready(t, id);
    } else {
      var a := SomeoneActs(s, id);
      assert Acts(t, a, id);
      OtherActorIsEnough(t, w, |s.queue|, a, id);
    }
  }

  lemma LostLeavesIdle(s: State, w: nat)
    requires Enabled(s, Lose(w)) && s.slots[w].connected && !Active(s.slots[w])
    ensures Beside(s, Apply(s, Lose(w)), w)
  {
  }

  lemma CutOffEndsIdle(s: State, w: nat)
    requires Enabled(s, CutOff(w)) && !Active(s.slots[w])
    ensures var t := Apply(s, CutOff(w)); Enabled(t, SettleFails(w)) && Beside(s, Apply(t, SettleFails(w)), w)
  {
  }

  lemma HarmByLostWorker(s: State, w: nat, id: int)
    requires Invariant(s) && Enabled(s, Lose(w)) && Harms(s, Lose(w), id)
    requires Encodable(s.rows[id].taskType, s.printable)
    ensures FinishesAndTakesBack(Apply(s, Lose(w)), id)
  {
    InvariantAfter(s, Lose(w));
    LostLeavesIdle(s, w);
    BesideIsEnough(s, Apply(s, Lose(w)), w, id);
  }

  lemma HarmByCutOffSettledWorker(s: State, w: nat, id: int)
    requires Invariant(s) && Enabled(s, CutOff(w)) && Harms(s, CutOff(w), id) && !Active(s.slots[w])
    requires Encodable(s.rows[id].taskType, s.printable)
    ensures FinishesAndTakesBack(Apply(s, CutOff(w)), id)
  {
    var t := Apply(s, CutOff(w));
    InvariantAfter(s, CutOff(w));
    CutOffEndsIdle(s, w);
    InvariantAfter(t, SettleFails(w));
    BesideIsEnough(s, Apply(t, SettleFails(w)), w, id);
    FinishesAndTakesBackAfter(t, SettleFails(w), id);
  }

  lemma HarmTakesBack(s: State, st: Step, id: int)
    requires Invariant(s) && Enabled(s, st) && Harms(s, st, id) && Encodable(s.rows[id].taskType, s.printable)
    ensures FinishesAndTakesBack(Apply(s, st), id)
  {
    if st.Lose? {
      HarmByLostWorker(s, st.w, id);
    } else if Active(s.slots[st.w]) {
      HarmByWorkingWorker(s, st.w, id);
    } else {
      HarmByCutOffSettledWorker(s, st.w, id);
    }
  }

  // ---------------------------------------------------------------- the theorem

  lemma UndisturbedStaysFinished(t: State, id: int)
    requires Invariant(t) && Disciplined(t, id) && id in t.rows
    ensures !FinishesAndTakesBack(t, id)
  {
    if FinishesAndTakesBack(t, id) {
      var a :|
        && CanRun(t, a) && Undisturbed(t, a, id)
        && id in Final(t, a).rows && Terminal(Final(t, a).rows[id]) && TakesBack(Final(t, a), id);
      var u := Final(t, a);
      var b :|
        && CanRun(u, b) && Undisturbed(u, b, id)
        && id in Final(u, b).rows && Final(u, b).rows[id].status == PROCESSING;
      DisciplinedAlong(t, a, id);
      DisciplinedAlong(u, b, id);
    }
  }

  lemma UnreadableNeverFinishes(t: State, id: int)
    requires Reachable(t) && id in t.rows && !Encodable(t.rows[id].taskType, t.printable)
    ensures !FinishesAndTakesBack(t, id)
  {
    forall steps | CanRun(t, steps) ensures id in Final(t, steps).rows && !Terminal(Final(t, steps).rows[id]) {
      ReachableInvariant(t);
      TypeStays(t, steps, id);
      RunKeepsReachable(t, steps);
      UnreadableTaskStaysPending(Final(t, steps), id);
    }
  }

  /** Up to now no step has harmed the task. Then a step harms it, and the queue body can carry its type,
      exactly when afterwards a run that does not harm it can finish it and take it back to PROCESSING. */
  lemma HarmIffCanBeTakenBack(s: State, st: Step, id: int)
    requires ReachableUndisturbed(s, id) && Enabled(s, st) && id in s.rows
    ensures Harms(s, st, id) && Encodable(s.rows[id].taskType, s.printable) <==> FinishesAndTakesBack(Apply(s, st), id)
  {
    UndisturbedInvariant(s, id);
    StepsKeepIdentity(s, st);
    if !Encodable(s.rows[id].taskType, s.printable) {
      ReachableStep(s, st);
      UnreadableNeverFinishes(Apply(s, st), id);
    } else if !Harms(s, st, id) {
      DisciplinedAfter(s, st, id);
      InvariantAfter(s, st);
      UndisturbedStaysFinished(Apply(s, st), id);
    } else {
      HarmTakesBack(s, st, id);
    }
  }
}
