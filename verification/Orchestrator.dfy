/** The code of the creators and the workers, run on a database and a queue, takes the steps of the
    protocol and no others. */
module Orchestrator {
  import opened Prelude
  import opened TaskTable
  import opened QueueBody
  import opened WorkerPool
  import opened WorkerRuns
  import opened WorkerBounds
  import opened WorkerRefinement
  import opened WorkerShift

  /** The steps lead from s to t. */
  ghost predicate Leads(s: State, steps: seq<Step>, t: State) {
    CanRun(s, steps) && Final(s, steps) == t
  }

  lemma LeadsOn(s: State, steps: seq<Step>, t: State, st: Step)
    requires Leads(s, steps, t) && Enabled(t, st)
    ensures Leads(s, steps + [st], Apply(t, st))
  {
    OneStep(t, st);
    Joined(s, steps, [st]);
  }

  /** What CreateTask comes to; a panic in the transaction passes through to the caller. */
  datatype Creation = Created(id: int) | Failed | PassesPanic

  /** The message that the broker queues again when a worker ends, if any. */
  function Held(slot: Slot): seq<Message> {
    if slot.Busy? && slot.connected then [slot.msg] else []
  }

  /** Those of all workers, one after the other. */
  function HeldMessages(slots: seq<Slot>): seq<Message> {
    if slots == [] then [] else HeldMessages(slots[..|slots| - 1]) + Held(Last(slots))
  }

  lemma HeldMessagesNext(slots: seq<Slot>, v: nat)
    requires v < |slots|
    ensures HeldMessages(slots[..v + 1]) == HeldMessages(slots[..v]) + Held(slots[v])
  {
    assert slots[..v + 1][..v] == slots[..v];
  }

  /** The workers when the first n of them have ended. */
  function EndedUpTo(slots: seq<Slot>, n: nat): (r: seq<Slot>)
    requires n <= |slots|
    ensures |r| == |slots|
  {
    seq(n, _ => Idle) + slots[n..]
  }

  lemma EndedNext(slots: seq<Slot>, v: nat)
    requires v < |slots|
    ensures EndedUpTo(slots, v)[v] == slots[v]
    ensures EndedUpTo(slots, v)[v := Idle] == EndedUpTo(slots, v + 1)
  {
  }

  class Orchestrator {
    const db: Database
    const printable: char -> bool
    var creating: set<int>
    var queue: seq<Message>
    var slots: seq<Slot>
    ghost var log: Log

    constructor (db: Database, workers: nat, printable: char -> bool)
      requires db.rows == map[] && db.nextId == 1
      ensures this.db == db && View() == Start(workers, printable)
    {
      this.db, this.printable := db, printable;
      creating, queue, slots := {}, [], seq(workers, _ => Idle);
      log := EMPTY_LOG;
    }

    ghost function View(): State
      reads this, db
    {
      State(db.rows, db.nextId, creating, queue, slots, printable, log)
    }

    ghost function Here(): Desk
      reads this, db
    {
      Desk(db.rows, queue)
    }

    // -------------------------------------------------------------- creators

    /** CreateTask: commit the row, then publish a message for it. After a failed or panicking transaction
        the table is as it was. */
    method CreateTask(userId: int, taskType: string, fault: Fault, publishFails: bool, now: int)
      returns (result: Creation)
      requires IsInt64(userId) && IsInt64(db.nextId)
      modifies this, db
      ensures Reachable(old(View())) ==> Reachable(View())
      ensures userId == 0 || taskType == "" ==> result.Failed? && View() == old(View())
      ensures userId != 0 && taskType != "" && !fault.NoFault? ==>
        && result == (if fault.Panics? then PassesPanic else Failed)
        && exists taken :: View() == Apply(old(View()), CreateFails(taken))
      ensures userId != 0 && taskType != "" && fault.NoFault? ==>
        var id := old(db.nextId);
        var steps := [Create(userId, taskType, now), if publishFails then PublishFails(id) else Publish(id)];
        && result == (if publishFails then Failed else Created(id))
        && CanRun(old(View()), steps) && View() == Final(old(View()), steps)
    {
      if userId == 0 || taskType == "" {
        return Failed;
      }
      ghost var before := View();
      var id := db.nextId;
      var tx := db.WithTransaction(Insert(id, userId, taskType, PENDING), fault, now);
      if tx != Committed {
        log := NextLog(before, CreateFails(db.nextId != id));
        assert View() == Apply(before, CreateFails(db.nextId != id));
        OneStep(before, CreateFails(db.nextId != id));
        RunKeepsReachable(before, [CreateFails(db.nextId != id)]);
        return if tx.Panicked? then PassesPanic else Failed;
      }
      creating := creating + {id};
      log := NextLog(before, Create(userId, taskType, now));
      ghost var created := View();
      assert created == Apply(before, Create(userId, taskType, now));

      creating := creating - {id};
      if publishFails {
        log := NextLog(created, PublishFails(id));
        assert View() == Apply(created, PublishFails(id));
        TwoSteps(before, Create(userId, taskType, now), PublishFails(id));
        RunKeepsReachable(before, [Create(userId, taskType, now), PublishFails(id)]);
        return Failed;
      }
      queue := queue + [Message(Payload(id, userId, taskType), None)];
      log := NextLog(created, Publish(id));
      assert View() == Apply(created, Publish(id));
      TwoSteps(before, Create(userId, taskType, now), Publish(id));
      RunKeepsReachable(before, [Create(userId, taskType, now), Publish(id)]);
      result := Created(id);
    }

    // -------------------------------------------------------------- one worker

    /** Worker w, and no other, has gone on with its message m to `phase`. */
    twostate predicate MovesTo(w: nat, m: Message, phase: Phase)
      reads this
    {
      && w < |old(slots)| && old(slots)[w].Busy?
      && slots == old(slots)[w := Busy(m, phase, old(slots)[w].connected)]
    }

    /** Worker w, and no other, has let go of its message. */
    twostate predicate LetsGo(w: nat)
      reads this
    {
      w < |old(slots)| && slots == old(slots)[w := Idle]
    }

    /** Worker w is lost, and the broker has its message again. */
    twostate predicate IsLost(w: nat)
      reads this
    {
      && LetsGo(w) && old(slots)[w].Busy?
      && queue == GivenBack(old(queue), old(slots)[w])
    }

    /** The worker ends without another call, and the broker queues its message again, unless it has
        done so before. */
    method Die(w: nat, ghost before: State, ghost done: seq<Step>) returns (ghost steps: seq<Step>)
      requires w < |slots| && slots[w].Busy? && Leads(before, done, View())
      modifies this
      ensures Leads(before, steps, View())
      ensures IsLost(w)
    {
      LeadsOn(before, done, View(), Lose(w));
      steps := done + [Lose(w)];
      log := NextLog(View(), Lose(w));
      if slots[w].connected {
        queue := queue + [slots[w].msg];
      }
      slots := slots[w := Idle];
    }

    method EndWorker(v: nat, ghost before: State, ghost done: seq<Step>) returns (ghost steps: seq<Step>)
      requires v < |slots| && Leads(before, done, View())
      modifies this
      ensures Leads(before, steps, View())
      ensures slots == old(slots)[v := Idle] && queue == old(queue) + Held(old(slots)[v])
    {
      steps := done;
      if slots[v].Busy? {
        steps := Die(v, before, steps);
      }
    }

    method EndFirst(n: nat, ghost before: State, ghost done: seq<Step>) returns (ghost steps: seq<Step>)
      requires n <= |slots| && Leads(before, done, View())
      modifies this
      ensures Leads(before, steps, View())
      ensures slots == EndedUpTo(old(slots), n) && queue == old(queue) + HeldMessages(old(slots)[..n])
      decreases n
    {
      steps := done;
      if n > 0 {
        EndedNext(slots, n - 1);
        HeldMessagesNext(slots, n - 1);
        steps := EndFirst(n - 1, before, steps);
        steps := EndWorker(n - 1, before, steps);
      }
    }

    /** A panic ends the process, and all its workers with it. */
    method EndProcess(ghost before: State, ghost done: seq<Step>) returns (ghost steps: seq<Step>)
      requires Leads(before, done, View())
      modifies this
      ensures Leads(before, steps, View())
      ensures slots == seq(|old(slots)|, _ => Idle)
      ensures queue == old(queue) + HeldMessages(old(slots))
    {
      assert slots[..|slots|] == slots;
      steps := EndFirst(|slots|, before, done);
    }

    method Receive(w: nat, i: nat, ghost before: State, ghost done: seq<Step>) returns (ghost steps: seq<Step>)
      requires w < |slots| && slots[w].Idle? && i < |queue| && Leads(before, done, View())
      modifies this
      ensures Leads(before, steps, View())
      ensures slots == old(slots)[w := Busy(old(queue)[i], Received, true)] && queue == Without(old(queue), i)
    {
      LeadsOn(before, done, View(), Deliver(w, i));
      steps := done + [Deliver(w, i)];
      log := NextLog(View(), Deliver(w, i));
      slots := slots[w := Busy(queue[i], Received, true)];
      queue := Without(queue, i);
    }

    /** The channel is lost: the broker queues the message again, and the worker does not notice. */
    method LoseChannel(w: nat, ghost before: State, ghost done: seq<Step>) returns (ghost steps: seq<Step>)
      requires At(View(), w, Received) && slots[w].connected && Leads(before, done, View())
      modifies this
      ensures Leads(before, steps, View())
      ensures slots == old(slots)[w := old(slots)[w].(connected := false)]
      ensures queue == old(queue) + [old(slots)[w].msg]
    {
      LeadsOn(before, done, View(), CutOff(w));
      steps := done + [CutOff(w)];
      log := NextLog(View(), CutOff(w));
      queue := queue + [slots[w].msg];
      slots := slots[w := slots[w].(connected := false)];
    }

    /** Ack or Nack the message as decided; on a lost channel this fails, and the worker ends. */
    method SettleMessage(w: nat, fails: bool, ghost before: State, ghost done: seq<Step>)
      returns (ghost steps: seq<Step>)
      requires w < |slots| && slots[w].Busy? && slots[w].phase.Settling? && Leads(before, done, View())
      requires slots[w].connected || fails
      modifies this
      ensures Leads(before, steps, View())
      ensures var m, verdict := old(slots)[w].msg, old(slots)[w].phase.verdict;
        && (if fails && old(slots)[w].connected then MovesTo(w, m, Unsettled(verdict)) else LetsGo(w))
        && queue == if verdict.Requeue? && !fails then old(queue) + [m] else old(queue)
    {
      var Busy(msg, phase, connected) := slots[w];
      if fails {
        LeadsOn(before, done, View(), SettleFails(w));
        steps := done + [SettleFails(w)];
        log := NextLog(View(), SettleFails(w));
        slots := slots[w := if connected then Busy(msg, Unsettled(phase.verdict), true) else Idle];
        return;
      }
      LeadsOn(before, done, View(), Settle(w));
      steps := done + [Settle(w)];
      log := NextLog(View(), Settle(w));
      if phase.verdict.Requeue? {
        queue := queue + [msg];
      }
      slots := slots[w := Idle];
    }

    /** The body cannot be read: drop the message. */
    method RejectMessage(w: nat, ghost before: State, ghost done: seq<Step>) returns (ghost steps: seq<Step>)
      requires At(View(), w, Received) && Decode(View(), slots[w].msg).None? && Leads(before, done, View())
      modifies this
      ensures Leads(before, steps, View())
      ensures MovesTo(w, old(slots)[w].msg, Settling(Remove)) && queue == old(queue)
    {
      LeadsOn(before, done, View(), Reject(w));
      steps := done + [Reject(w)];
      log := NextLog(View(), Reject(w));
      slots := slots[w := slots[w].(phase := Settling(Remove))];
    }

    /** Transaction 1: mark as PROCESSING. */
    method RunFirstTransaction(w: nat, fault: Fault, now: int, ghost before: State, ghost done: seq<Step>)
      returns (result: TxResult, ghost steps: seq<Step>)
      requires At(View(), w, Received) && Decode(View(), slots[w].msg).Some? && Leads(before, done, View())
      modifies this, db
      ensures Leads(before, steps, View())
      ensures result == if fault.NoFault? then Committed else if fault.Panics? then Panicked else Error
      ensures var m := old(slots)[w].msg; match result
        case Committed => MovesTo(w, m, Marked) && queue == old(queue) &&
                          db.rows == Execute(old(db.rows), MarkProcessing(m.payload.id), now)
        case Error => MovesTo(w, m, Settling(Requeue)) && queue == old(queue) && db.rows == old(db.rows)
        case Panicked => IsLost(w) && db.rows == old(db.rows)
    {
      ghost var start := View();
      result := db.WithTransaction(MarkProcessing(slots[w].msg.payload.id), fault, now);
      match result
      case Committed =>
        LeadsOn(before, done, start, Tx1(w, now));
        steps := done + [Tx1(w, now)];
        log := NextLog(start, Tx1(w, now));
        slots := slots[w := slots[w].(phase := Marked)];
      case Error =>
        LeadsOn(before, done, start, Tx1Fails(w));
        steps := done + [Tx1Fails(w)];
        log := NextLog(start, Tx1Fails(w));
        slots := slots[w := slots[w].(phase := Settling(Requeue))];
      case Panicked =>
        assert View() == start;
        steps := Die(w, before, done);
    }

    method RunHandler(w: nat, ghost before: State, ghost done: seq<Step>)
      returns (taskErr: Option<string>, ghost steps: seq<Step>)
      requires At(View(), w, Marked) && Leads(before, done, View())
      modifies this
      ensures Leads(before, steps, View())
      ensures taskErr == HandleTask(old(slots)[w].msg.payload)
      ensures MovesTo(w, old(slots)[w].msg, Handled(taskErr)) && queue == old(queue)
    {
      LeadsOn(before, done, View(), Handle(w));
      steps := done + [Handle(w)];
      log := NextLog(View(), Handle(w));
      taskErr := HandleTask(slots[w].msg.payload);
      slots := slots[w := slots[w].(phase := Handled(taskErr))];
    }

    /** Transaction 2: mark as SUCCESS or FAILED. */
    method RunSecondTransaction(w: nat, taskErr: Option<string>, fault: Fault, now: int,
                                ghost before: State, ghost done: seq<Step>)
      returns (result: TxResult, ghost steps: seq<Step>)
      requires At(View(), w, Handled(taskErr)) && Leads(before, done, View())
      modifies this, db
      ensures Leads(before, steps, View())
      ensures result == if fault.NoFault? then Committed else if fault.Panics? then Panicked else Error
      ensures var m := old(slots)[w].msg; match result
        case Committed => MovesTo(w, m, Settling(Remove)) && queue == old(queue) &&
                          db.rows == Execute(old(db.rows), MarkOutcome(m.payload.id, taskErr), now)
        case Error => MovesTo(w, m, Unfinalised) && queue == old(queue) && db.rows == old(db.rows)
        case Panicked => IsLost(w) && db.rows == old(db.rows)
    {
      ghost var start := View();
      var id := slots[w].msg.payload.id;
      var statement := if taskErr.Some? then MarkFailed(id, taskErr.value) else MarkSuccess(id, RESULT_FILE);
      result := db.WithTransaction(statement, fault, now);
      match result
      case Committed =>
        LeadsOn(before, done, start, Tx2(w, now));
        steps := done + [Tx2(w, now)];
        log := NextLog(start, Tx2(w, now));
        slots := slots[w := slots[w].(phase := Settling(Remove))];
      case Error =>
        LeadsOn(before, done, start, Tx2Fails(w));
        steps := done + [Tx2Fails(w)];
        log := NextLog(start, Tx2Fails(w));
        slots := slots[w := slots[w].(phase := Unfinalised)];
      case Panicked =>
        assert View() == start;
        steps := Die(w, before, done);
    }

    /** After the last retry: mark as FAILED. */
    method RunLastTransaction(w: nat, fault: Fault, now: int, ghost before: State, ghost done: seq<Step>)
      returns (result: TxResult, ghost steps: seq<Step>)
      requires At(View(), w, Unfinalised) && RetryCount(slots[w].msg) >= MAX_RETRIES && Leads(before, done, View())
      modifies this, db
      ensures Leads(before, steps, View())
      ensures result == if fault.NoFault? then Committed else if fault.Panics? then Panicked else Error
      ensures var m := old(slots)[w].msg; match result
        case Committed => MovesTo(w, m, Settling(Remove)) && queue == old(queue) &&
                          db.rows == Execute(old(db.rows), MarkFailed(m.payload.id, MAX_RETRIES_REACHED), now)
        case Error => MovesTo(w, m, Settling(Remove)) && queue == old(queue) && db.rows == old(db.rows)
        case Panicked => IsLost(w) && db.rows == old(db.rows)
    {
      ghost var start := View();
      result := db.WithTransaction(MarkFailed(slots[w].msg.payload.id, MAX_RETRIES_REACHED), fault, now);
      match result
      case Committed =>
        LeadsOn(before, done, start, GiveUp(w, now));
        steps := done + [GiveUp(w, now)];
        log := NextLog(start, GiveUp(w, now));
        slots := slots[w := slots[w].(phase := Settling(Remove))];
      case Error =>
        LeadsOn(before, done, start, GiveUpFails(w));
        steps := done + [GiveUpFails(w)];
        log := NextLog(start, GiveUpFails(w));
        slots := slots[w := slots[w].(phase := Settling(Remove))];
      case Panicked =>
        assert View() == start;
        steps := Die(w, before, done);
    }

    method RepublishWithRetry(w: nat, fails: bool, ghost before: State, ghost done: seq<Step>)
      returns (ghost steps: seq<Step>)
      requires At(View(), w, Unfinalised) && RetryCount(slots[w].msg) < MAX_RETRIES && Leads(before, done, View())
      requires slots[w].connected || fails
      modifies this
      ensures Leads(before, steps, View())
      ensures MovesTo(w, old(slots)[w].msg, Settling(Remove))
      ensures queue == if fails then old(queue) else old(queue) + [Retried(old(slots)[w].msg)]
    {
      var msg := slots[w].msg;
      if fails {
        LeadsOn(before, done, View(), RepublishFails(w));
        steps := done + [RepublishFails(w)];
        log := NextLog(View(), RepublishFails(w));
      } else {
        LeadsOn(before, done, View(), Republish(w));
        steps := done + [Republish(w)];
        log := NextLog(View(), Republish(w));
        queue := queue + [msg.(retryHeader := Some(RetryCount(msg) + 1))];
      }
      slots := slots[w := slots[w].(phase := Settling(Remove))];
    }

    /** The worker has let go of its message, unless it waits behind a failed acknowledgement. */
    twostate predicate IsThrough(w: nat, f: Faults, panicked: bool)
      reads this
    {
      && w < |old(slots)| && old(slots)[w].Busy?
      && |slots| == |old(slots)| && slots == old(slots)[w := slots[w]] && AtRest(slots[w])
      && (slots[w].Idle? <==> panicked || !f.settleFails || !old(slots)[w].connected)
    }

    /** The outcome could not be marked: try again later, or give up. */
    method RetryOrGiveUp(w: nat, f: Faults, now: int, ghost before: State, ghost done: seq<Step>)
      returns (panicked: bool, ghost steps: seq<Step>)
      requires At(View(), w, Unfinalised) && Leads(before, done, View())
      requires slots[w].connected || (f.republishFails && f.settleFails)
      modifies this, db
      ensures Leads(before, steps, View())
      ensures IsThrough(w, f, panicked) && Here() == AfterFailedOutcome(old(Here()), old(slots)[w], f, now)
      ensures panicked == PanicsAfterFailedOutcome(old(slots)[w].msg, f)
    {
      panicked := false;
      if RetryCount(slots[w].msg) >= MAX_RETRIES {
        var last;
        last, steps := RunLastTransaction(w, f.last, now, before, done);
        if last == Panicked {
          return true, steps;
        }
        steps := SettleMessage(w, f.settleFails, before, steps);
        return;
      }
      steps := RepublishWithRetry(w, f.republishFails, before, done);
      steps := SettleMessage(w, f.settleFails, before, steps);
    }

    /** Mark what the handler said, or see to a failure to do so. */
    method MarkAndSettle(w: nat, taskErr: Option<string>, f: Faults, now: int,
                         ghost before: State, ghost done: seq<Step>)
      returns (panicked: bool, ghost steps: seq<Step>)
      requires At(View(), w, Handled(taskErr)) && Leads(before, done, View())
      requires slots[w].connected || (f.republishFails && f.settleFails)
      modifies this, db
      ensures Leads(before, steps, View())
      ensures IsThrough(w, f, panicked) && Here() == AfterHandler(old(Here()), old(slots)[w], taskErr, f, now)
      ensures panicked == PanicsAfterHandler(old(slots)[w].msg, f)
    {
      panicked := false;
      var second;
      second, steps := RunSecondTransaction(w, taskErr, f.second, now, before, done);
      if second == Panicked {
        return true, steps;
      }
      if second == Error {
        panicked, steps := RetryOrGiveUp(w, f, now, before, steps);
        return;
      }
      steps := SettleMessage(w, f.settleFails, before, steps);
    }

    /** Drop a message whose body cannot be read. */
    method DropUnreadable(w: nat, f: Faults, ghost before: State, ghost done: seq<Step>)
      returns (ghost steps: seq<Step>)
      requires At(View(), w, Received) && Decode(View(), slots[w].msg).None? && Leads(before, done, View())
      requires slots[w].connected || f.settleFails
      modifies this
      ensures Leads(before, steps, View())
      ensures IsThrough(w, f, false) && queue == old(queue)
    {
      steps := RejectMessage(w, before, done);
      steps := SettleMessage(w, f.settleFails, before, steps);
    }

    /** Run the handler on a task that has been marked PROCESSING, and mark the outcome. */
    method HandleMarked(w: nat, f: Faults, now: int, ghost before: State, ghost done: seq<Step>)
      returns (panicked: bool, ghost steps: seq<Step>)
      requires At(View(), w, Marked) && Leads(before, done, View())
      requires slots[w].connected || (f.republishFails && f.settleFails)
      modifies this, db
      ensures Leads(before, steps, View())
      ensures IsThrough(w, f, panicked)
      ensures Here() == AfterHandler(old(Here()), old(slots)[w], HandleTask(old(slots)[w].msg.payload), f, now)
      ensures panicked == PanicsAfterHandler(old(slots)[w].msg, f)
    {
      var taskErr;
      taskErr, steps := RunHandler(w, before, done);
      panicked, steps := MarkAndSettle(w, taskErr, f, now, before, steps);
    }

    /** Mark as PROCESSING, or have the message queued again. */
    method MarkFirst(w: nat, f: Faults, now: int, ghost before: State, ghost done: seq<Step>)
      returns (result: TxResult, ghost steps: seq<Step>)
      requires At(View(), w, Received) && Decode(View(), slots[w].msg).Some? && Leads(before, done, View())
      requires slots[w].connected || f.settleFails
      modifies this, db
      ensures Leads(before, steps, View())
      ensures result == if f.first.NoFault? then Committed else if f.first.Panics? then Panicked else Error
      ensures var m := old(slots)[w].msg; match result
        case Committed => MovesTo(w, m, Marked) && queue == old(queue) &&
                          db.rows == Execute(old(db.rows), MarkProcessing(m.payload.id), now)
        case Error => IsThrough(w, f, false) && db.rows == old(db.rows) &&
                      queue == if f.settleFails then old(queue) else old(queue) + [m]
        case Panicked => IsThrough(w, f, true) && IsLost(w) && db.rows == old(db.rows)
    {
      result, steps := RunFirstTransaction(w, f.first, now, before, done);
      if result == Error {
        steps := SettleMessage(w, f.settleFails, before, steps);
      }
    }

    /** The body of the loop in StartWorker, for the message that worker w has received. */
    method HandleDelivery(w: nat, f: Faults, now: int, ghost before: State, ghost done: seq<Step>)
      returns (panicked: bool, ghost steps: seq<Step>)
      requires At(View(), w, Received) && Leads(before, done, View())
      requires slots[w].connected || (f.republishFails && f.settleFails)
      modifies this, db
      ensures Leads(before, steps, View())
      ensures IsThrough(w, f, panicked) && Here() == AfterDelivery(old(Here()), old(slots)[w], f, now, printable)
      ensures panicked == PanicsAtDelivery(old(slots)[w].msg, f, printable)
    {
      panicked := false;
      var payload := Unmarshal(Body(slots[w].msg.payload, printable));
      if payload.None? {
        steps := DropUnreadable(w, f, before, done);
        return;
      }

      var first;
      first, steps := MarkFirst(w, f, now, before, done);
      if first != Committed {
        return first == Panicked, steps;
      }

      panicked, steps := HandleMarked(w, f, now, before, steps);
    }

    /** Receive the message at the head of the queue and work on it. */
    method HandleNext(w: nat, f: Faults, now: int, ghost work: Work, ghost before: State, ghost done: seq<Step>)
      returns (panicked: bool, ghost steps: seq<Step>)
      requires w < |slots| && slots[w].Idle? && queue != [] && Consistent(f) && Leads(before, done, View())
      requires work == TheWork(now, printable)
      modifies this, db
      ensures Leads(before, steps, View())
      ensures |slots| == |old(slots)| && slots == old(slots)[w := slots[w]] && AtRest(slots[w])
      ensures slots[w].Idle? <==> panicked || f.channelLost || !f.settleFails
      ensures panicked == work.panics(old(queue)[0], f)
      ensures Here() == work.next(old(Here()), f)
    {
      steps := Receive(w, 0, before, done);
      assert queue == old(queue)[1..];
      if f.channelLost {
        steps := LoseChannel(w, before, steps);
      }
      panicked, steps := HandleDelivery(w, f, now, before, steps);
    }

    /** The deliveries of a worker, up to the last one. */
    method WorkThrough(w: nat, faults: seq<Faults>, now: int, ghost work: Work, ghost before: State)
      returns (made: nat, panicked: bool, ghost steps: seq<Step>)
      requires w < |slots| && slots[w].Idle? && before == View() && work == TheWork(now, printable)
      requires forall f | f in faults :: Consistent(f)
      modifies this, db
      ensures Leads(before, steps, View())
      ensures |slots| == |old(slots)| && slots == old(slots)[w := slots[w]] && AtRest(slots[w])
      ensures ShiftFrom(work, old(Here()), faults, 0) == Result(Here(), made, panicked) && made <= |faults|
      ensures slots[w].Idle? <==> !EndsBlocked(faults, made, panicked)
    {
      ghost var desk := Here();
      steps, made, panicked := [], 0, false;
      for n := 0 to |faults|
        invariant Leads(before, steps, View()) && !panicked && made == n
        invariant slots == old(slots)
        invariant !EndsBlocked(faults, n, false)
        invariant ShiftFrom(work, desk, faults, 0) == ShiftFrom(work, Here(), faults, n)
      {
        if queue == [] {
          break;
        }
        panicked, steps := HandleNext(w, faults[n], now, work, before, steps);
        made := n + 1;
        assert slots[w].Idle? <==> !EndsBlocked(faults, made, panicked);
        if panicked || faults[n].channelLost || !slots[w].Idle? {
          break;
        }
      }
    }

    /** The loop of StartWorker: successive deliveries with the given faults, until the queue is empty, the
        channel is lost, an acknowledgement fails, or a panic ends the process. It stops for no other reason,
        and a panic is one of the last delivery made. When nothing fails and the bodies can be read, it has
        worked on as many messages as there were deliveries, in order. */
    method StartWorker(w: nat, faults: seq<Faults>, now: int)
      returns (made: nat, panicked: bool, ghost steps: seq<Step>)
      requires w < |slots| && slots[w].Idle?
      requires forall f | f in faults :: Consistent(f)
      modifies this, db
      ensures Leads(old(View()), steps, View())
      ensures Reachable(old(View())) ==> Reachable(View())
      ensures |slots| == |old(slots)| && AtRest(slots[w])
      ensures slots == if panicked then seq(|old(slots)|, _ => Idle) else old(slots)[w := slots[w]]
      ensures var r := ShiftFrom(TheWork(now, printable), old(Here()), faults, 0);
        && made == r.made && panicked == r.panicked && db.rows == r.desk.rows
        && queue == if panicked then r.desk.queue + HeldMessages(old(slots)) else r.desk.queue
      ensures made == |faults| || queue == [] || panicked ||
              (0 < made < |faults| && (faults[made - 1].channelLost || faults[made - 1].settleFails))
      ensures slots[w].Idle? <==> !EndsBlocked(faults, made, panicked)
      ensures
        AllReadable(old(queue), printable) && |faults| <= |old(queue)| && (forall f | f in faults :: f == NO_FAULTS) ==>
        && made == |faults| && !panicked && queue == old(queue)[|faults|..]
        && db.rows == ProcessAll(old(db.rows), PayloadsIn(old(queue)[..|faults|]), now)
    {
      ghost var before := View();
      ghost var desk := Here();
      made, panicked, steps := WorkThrough(w, faults, now, TheWork(now, printable), before);
      if panicked {
        assert slots == old(slots);
        steps := EndProcess(before, steps);
      }
      RunKeepsReachable(before, steps);
      ShiftEndsForAReason(TheWork(now, printable), desk, faults, 0);
      if AllReadable(desk.queue, printable) && |faults| <= |desk.queue| && forall f | f in faults :: f == NO_FAULTS {
        UndisturbedFromStart(desk, faults, now, printable);
      }
    }

    /** When nothing fails and every body can be read, the loop empties the queue and leaves the table
        that working on the messages one at a time gives. */
    method StartWorkerUndisturbed(w: nat, now: int)
      requires w < |slots| && slots[w].Idle?
      requires AllReadable(queue, printable)
      modifies this, db
      ensures queue == [] && |slots| == |old(slots)| && slots[w].Idle?
      ensures Reachable(old(View())) ==> Reachable(View())
      ensures db.rows == ProcessAll(old(db.rows), PayloadsIn(old(queue)), now)
    {
      ghost var all := queue;
      var made, panicked, steps := StartWorker(w, seq(|queue|, _ => NO_FAULTS), now);
      assert all[..|all|] == all;
    }
  }
}
