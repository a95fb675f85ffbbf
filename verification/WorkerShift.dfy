/** What a worker's deliveries come to, one after the other: the table and the queue that it leaves when
    certain things go wrong. */
module WorkerShift {
  import opened Prelude
  import opened QueueBody
  import opened TaskTable
  import opened WorkerPool
  import opened WorkerRefinement

  /** What goes wrong while one message is worked on. When the channel is lost, the calls that need it
      fail. */
  datatype Faults = Faults(channelLost: bool, first: Fault, second: Fault, last: Fault,
                           republishFails: bool, settleFails: bool)

  const NO_FAULTS := Faults(false, NoFault, NoFault, NoFault, false, false)

  predicate Consistent(f: Faults) {
    f.channelLost ==> f.republishFails && f.settleFails
  }

  datatype Desk = Desk(rows: Table, queue: seq<Message>)

  /** The worker is lost with its message, which the broker queues again unless it has done so before. */
  function GivenBack(queue: seq<Message>, slot: Slot): seq<Message>
    requires slot.Busy?
  {
    if slot.connected then queue + [slot.msg] else queue
  }

  /** After a failed marking of the outcome. */
  function AfterFailedOutcome(d: Desk, slot: Slot, f: Faults, now: int): Desk
    requires slot.Busy?
  {
    if RetryCount(slot.msg) < MAX_RETRIES then
      d.(queue := if f.republishFails then d.queue else d.queue + [Retried(slot.msg)])
    else if f.last.Panics? then
      d.(queue := GivenBack(d.queue, slot))
    else if f.last.NoFault? then
      d.(rows := Execute(d.rows, MarkFailed(slot.msg.payload.id, MAX_RETRIES_REACHED), now))
    else
      d
  }

  /** After the handler. */
  function AfterHandler(d: Desk, slot: Slot, taskErr: Option<string>, f: Faults, now: int): Desk
    requires slot.Busy?
  {
    if f.second.NoFault? then
      d.(rows := Execute(d.rows, MarkOutcome(slot.msg.payload.id, taskErr), now))
    else if f.second.Panics? then
      d.(queue := GivenBack(d.queue, slot))
    else
      AfterFailedOutcome(d, slot, f, now)
  }

  /** After the worker has received its message. */
  function AfterDelivery(d: Desk, slot: Slot, f: Faults, now: int, printable: char -> bool): Desk
    requires slot.Busy?
  {
    var m := slot.msg;
    if Unmarshal(Body(m.payload, printable)).None? then
      d
    else if f.first.Panics? then
      d.(queue := GivenBack(d.queue, slot))
    else if !f.first.NoFault? then
      d.(queue := if f.settleFails then d.queue else d.queue + [m])
    else
      AfterHandler(d.(rows := Execute(d.rows, MarkProcessing(m.payload.id), now)), slot, HandleTask(m.payload), f, now)
  }

  predicate PanicsAfterFailedOutcome(m: Message, f: Faults) {
    RetryCount(m) >= MAX_RETRIES && f.last.Panics?
  }

  predicate PanicsAfterHandler(m: Message, f: Faults) {
    f.second.Panics? || (!f.second.NoFault? && PanicsAfterFailedOutcome(m, f))
  }

  predicate PanicsAtDelivery(m: Message, f: Faults, printable: char -> bool) {
    && Unmarshal(Body(m.payload, printable)).Some?
    && (f.first.Panics? || (f.first.NoFault? && PanicsAfterHandler(m, f)))
  }

  /** After the delivery of the message at the head of the queue. */
  function AfterNext(d: Desk, f: Faults, now: int, printable: char -> bool): Desk
    requires d.queue != []
  {
    var m := d.queue[0];
    if f.channelLost
    then AfterDelivery(Desk(d.rows, d.queue[1..] + [m]), Busy(m, Received, false), f, now, printable)
    else AfterDelivery(Desk(d.rows, d.queue[1..]), Busy(m, Received, true), f, now, printable)
  }

  // ---------------------------------------------------------------- many deliveries

  /** How a delivery changes the desk, and whether it panics. */
  datatype Work = Work(next: (Desk, Faults) -> Desk, panics: (Message, Faults) -> bool)

  function TheWork(now: int, printable: char -> bool): Work {
    Work((d: Desk, f: Faults) => if d.queue == [] then d else AfterNext(d, f, now, printable),
         (m: Message, f: Faults) => PanicsAtDelivery(m, f, printable))
  }

  /** The delivery is the worker's last one. */
  predicate EndsShift(k: Work, m: Message, f: Faults) {
    f.channelLost || f.settleFails || k.panics(m, f)
  }

  datatype Result = Result(desk: Desk, made: nat, panicked: bool)

  /** After `made` deliveries the worker waits behind a failed acknowledgement. */
  predicate EndsBlocked(faults: seq<Faults>, made: nat, panicked: bool)
    requires made <= |faults|
  {
    made > 0 && !panicked && faults[made - 1].settleFails && !faults[made - 1].channelLost
  }

  /** The deliveries from number n on, with the given faults, until the queue is empty or one of them is the
      last. */
  function ShiftFrom(k: Work, d: Desk, faults: seq<Faults>, n: nat): (r: Result)
    requires n <= |faults|
    ensures n <= r.made <= |faults|
    decreases |faults| - n
  {
    if n == |faults| || d.queue == [] then Result(d, n, false)
    else if EndsShift(k, d.queue[0], faults[n])
    then Result(k.next(d, faults[n]), n + 1, k.panics(d.queue[0], faults[n]))
    else ShiftFrom(k, k.next(d, faults[n]), faults, n + 1)
  }

  /** A shift stops early only when the queue is empty or its last delivery ends it. */
  lemma {:induction false} ShiftEndsForAReason(k: Work, d: Desk, faults: seq<Faults>, n: nat)
    requires n <= |faults|
    ensures var r := ShiftFrom(k, d, faults, n);
      r.made == |faults| || r.desk.queue == [] || r.panicked ||
      (r.made > n && (faults[r.made - 1].channelLost || faults[r.made - 1].settleFails))
    decreases |faults| - n
  {
    if n == |faults| || d.queue == [] || EndsShift(k, d.queue[0], faults[n]) {
    } else {
      ShiftEndsForAReason(k, k.next(d, faults[n]), faults, n + 1);
    }
  }

  /** The desk when `more` deliveries have been made from number n on. */
  function DeskAfter(k: Work, d: Desk, faults: seq<Faults>, n: nat, more: nat): Desk
    requires n + more <= |faults|
    decreases more
  {
    if more == 0 then d else DeskAfter(k, k.next(d, faults[n]), faults, n + 1, more - 1)
  }

  /** The result of a shift is that of its deliveries one after the other, and it panics exactly when the last
      one does. */
  lemma {:induction false} ShiftPanicsInLastDelivery(k: Work, d: Desk, faults: seq<Faults>, n: nat)
    requires n <= |faults|
    ensures var r := ShiftFrom(k, d, faults, n);
      && r.desk == DeskAfter(k, d, faults, n, r.made - n)
      && (r.made == n ==> !r.panicked)
      && (r.made > n ==>
            var before := DeskAfter(k, d, faults, n, r.made - 1 - n);
            before.queue != [] && r.panicked == k.panics(before.queue[0], faults[r.made - 1]))
    decreases |faults| - n
  {
    if n == |faults| || d.queue == [] {
    } else if EndsShift(k, d.queue[0], faults[n]) {
      assert DeskAfter(k, k.next(d, faults[n]), faults, n + 1, 0) == k.next(d, faults[n]);
    } else {
      ShiftPanicsInLastDelivery(k, k.next(d, faults[n]), faults, n + 1);
    }
  }

  // ---------------------------------------------------------------- nothing fails

  /** Every body in the queue can be read. */
  predicate AllReadable(q: seq<Message>, printable: char -> bool) {
    forall i | 0 <= i < |q| :: Unmarshal(Body(q[i].payload, printable)).Some?
  }

  function PayloadsIn(q: seq<Message>): seq<Payload> {
    if q == [] then [] else PayloadsIn(q[..|q| - 1]) + [q[|q| - 1].payload]
  }

  lemma PayloadsInNext(q: seq<Message>, n: nat)
    requires n < |q|
    ensures PayloadsIn(q[..n + 1]) == PayloadsIn(q[..n]) + [q[n].payload]
  {
    assert q[..n + 1][..n] == q[..n];
  }

  lemma UndisturbedDelivery(d: Desk, now: int, printable: char -> bool)
    requires d.queue != [] && Unmarshal(Body(d.queue[0].payload, printable)).Some?
    ensures TheWork(now, printable).next(d, NO_FAULTS) ==
            Desk(ProcessOne(d.rows, d.queue[0].payload, now), d.queue[1..])
    ensures !EndsShift(TheWork(now, printable), d.queue[0], NO_FAULTS)
  {
  }

  lemma ProcessedOneMore(rows: Table, q: seq<Message>, n: nat, now: int)
    requires n < |q|
    ensures ProcessAll(rows, PayloadsIn(q[..n + 1]), now) ==
            ProcessOne(ProcessAll(rows, PayloadsIn(q[..n]), now), q[n].payload, now)
  {
    PayloadsInNext(q, n);
    var ps := PayloadsIn(q[..n + 1]);
    assert ps[..|ps| - 1] == PayloadsIn(q[..n]);
  }

  /** When nothing fails and the bodies can be read, the deliveries work on the messages in order. */
  lemma {:induction false} UndisturbedShift(rows: Table, q: seq<Message>, faults: seq<Faults>, n: nat,
                                            now: int, printable: char -> bool)
    requires AllReadable(q, printable) && n <= |faults| <= |q| && forall f | f in faults :: f == NO_FAULTS
    ensures ShiftFrom(TheWork(now, printable), Desk(ProcessAll(rows, PayloadsIn(q[..n]), now), q[n..]), faults, n) ==
            Result(Desk(ProcessAll(rows, PayloadsIn(q[..|faults|]), now), q[|faults|..]), |faults|, false)
    decreases |faults| - n
  {
    if n == |faults| {
    } else {
      assert faults[n] in faults;
      UndisturbedDelivery(Desk(ProcessAll(rows, PayloadsIn(q[..n]), now), q[n..]), now, printable);
      ProcessedOneMore(rows, q, n, now);
      assert q[n..][1..] == q[n + 1..];
      UndisturbedShift(rows, q, faults, n + 1, now, printable);
    }
  }

  lemma UndisturbedFromStart(d: Desk, faults: seq<Faults>, now: int, printable: char -> bool)
    requires AllReadable(d.queue, printable) && |faults| <= |d.queue| && forall f | f in faults :: f == NO_FAULTS
    ensures ShiftFrom(TheWork(now, printable), d, faults, 0) ==
      Result(Desk(ProcessAll(d.rows, PayloadsIn(d.queue[..|faults|]), now), d.queue[|faults|..]), |faults|, false)
  {
    assert d.queue[..0] == [] && d.queue[0..] == d.queue;
    UndisturbedShift(d.rows, d.queue, faults, 0, now, printable);
  }
}
