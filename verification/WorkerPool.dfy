/** The worker pool as a protocol of atomic steps over the tasks table, the queue and the workers.

    CreateTask commits a row and then publishes a message for it. A worker takes a message, marks the
    row PROCESSING in one transaction, runs the handler, and marks the outcome in a second one. When
    that one fails the worker republishes the message with a higher retry count, or gives up after
    three retries. Every call that can fail has a step for its failure. The broker queues a message again
    when the channel of its worker is lost: either the worker is lost with it, or the worker is cut off
    from the broker and yet goes on with the message, until its next call to the broker fails. */
module WorkerPool {
  import opened Prelude
  import opened TaskTable
  import opened QueueBody

  /** A message for a task. Its body is Body(payload), and the retry header is missing on a message
      that CreateTask published. */
  datatype Message = Message(payload: Payload, retryHeader: Option<int>)

  function RetryCount(m: Message): int {
    match m.retryHeader
    case None => 0
    case Some(count) => count
  }

  const MAX_RETRIES := 3
  const RESULT_FILE := "result.txt"
  const MAX_RETRIES_REACHED := "max retries reached"

  function UnknownType(taskType: string): string {
    "unknown task type: " + taskType
  }

  predicate KnownType(taskType: string) {
    || taskType == "send_email"
    || taskType == "generate_report"
    || taskType == "resize_image"
    || taskType == "cleanup_temp"
  }

  /** The handler's error, if any. */
  function HandleTask(p: Payload): Option<string> {
    if KnownType(p.taskType) then None else Some(UnknownType(p.taskType))
  }

  /** How the second transaction marks the outcome of the handler. */
  function MarkOutcome(id: int, failure: Option<string>): Statement {
    match failure
    case None => MarkSuccess(id, RESULT_FILE)
    case Some(text) => MarkFailed(id, text)
  }

  /** What a worker tells the broker about a message: take it away, or queue it again. */
  datatype Verdict = Remove | Requeue

  /** How far a worker is with its message. A message whose acknowledgement failed stays with the
      broker, undelivered, until the channel is lost. */
  datatype Phase =
    | Received
    | Marked
    | Handled(failure: Option<string>)
    | Unfinalised
    | Settling(verdict: Verdict)
    | Unsettled(verdict: Verdict)

  /** A worker that is not connected has been cut off: the broker has queued its message again. */
  datatype Slot = Idle | Busy(msg: Message, phase: Phase, connected: bool)

  /** The ways in which a task can lose its last message before it is finished. The last one takes a
      worker that is cut off and then lost between its two transactions. */
  datatype Leak = PublishLost | Unparsable | RepublishFailed | FinalMarkFailed | CutOffWorkerLost

  /** What has happened so far; no step depends on it. */
  datatype Log = Log(
    published: seq<int>,      // task of every message that CreateTask published
    handled: seq<int>,        // task of every run of the handler
    redelivered: seq<int>,    // task of every message that the broker queued again for a lost channel
    unfinalised: seq<int>,    // task of every failure of the second transaction
    exhausted: set<int>,      // tasks failed for want of retries
    leaks: set<(int, Leak)>,
    firstFailures: nat,       // failures of the first transaction
    workerSteps: nat)

  datatype State = State(
    rows: Table,
    nextId: int,
    creating: set<int>,       // committed, not yet published
    queue: seq<Message>,
    slots: seq<Slot>,
    printable: char -> bool,  // Go's Unicode tables, see QueueBody
    log: Log)

  datatype Step =
    | Create(userId: int, taskType: string, now: int)
    | CreateFails(idTaken: bool)
    | Publish(id: int)
    | PublishFails(id: int)
    | Deliver(w: nat, i: nat)
    | Reject(w: nat)
    | Tx1(w: nat, now: int)
    | Tx1Fails(w: nat)
    | Handle(w: nat)
    | Tx2(w: nat, now: int)
    | Tx2Fails(w: nat)
    | GiveUp(w: nat, now: int)
    | GiveUpFails(w: nat)
    | Republish(w: nat)
    | RepublishFails(w: nat)
    | Settle(w: nat)
    | SettleFails(w: nat)
    | CutOff(w: nat)
    | Lose(w: nat)

  /** Steps that concern one worker. */
  predicate OnSlot(st: Step) {
    !(st.Create? || st.CreateFails? || st.Publish? || st.PublishFails?)
  }

  /** Steps of a worker's code: not those of a creator, and not the loss of a channel. */
  predicate IsWorkerStep(st: Step) {
    OnSlot(st) && !st.CutOff? && !st.Lose?
  }

  predicate At(s: State, w: nat, phase: Phase) {
    w < |s.slots| && s.slots[w].Busy? && s.slots[w].phase == phase
  }

  function PayloadOf(row: Row): Payload {
    Payload(row.id, row.userId, row.taskType)
  }

  /** The payload as the worker reads it from the body. */
  function Decode(s: State, m: Message): Option<Payload> {
    Unmarshal(Body(m.payload, s.printable))
  }

  predicate Enabled(s: State, st: Step) {
    match st
    case Create(userId, taskType, _) => userId != 0 && taskType != "" && IsInt64(userId) && IsInt64(s.nextId)
    case CreateFails(_) => true
    case Publish(id) => id in s.creating && id in s.rows
    case PublishFails(id) => id in s.creating
    case Deliver(w, i) => w < |s.slots| && s.slots[w].Idle? && i < |s.queue|
    case Reject(w) => At(s, w, Received) && Decode(s, s.slots[w].msg).None?
    case Tx1(w, _) => At(s, w, Received) && Decode(s, s.slots[w].msg).Some?
    case Tx1Fails(w) => At(s, w, Received) && Decode(s, s.slots[w].msg).Some?
    case Handle(w) => At(s, w, Marked)
    case Tx2(w, _) => w < |s.slots| && s.slots[w].Busy? && s.slots[w].phase.Handled?
    case Tx2Fails(w) => w < |s.slots| && s.slots[w].Busy? && s.slots[w].phase.Handled?
    case GiveUp(w, _) => At(s, w, Unfinalised) && RetryCount(s.slots[w].msg) >= MAX_RETRIES
    case GiveUpFails(w) => At(s, w, Unfinalised) && RetryCount(s.slots[w].msg) >= MAX_RETRIES
    case Republish(w) =>
      At(s, w, Unfinalised) && RetryCount(s.slots[w].msg) < MAX_RETRIES && s.slots[w].connected
    case RepublishFails(w) => At(s, w, Unfinalised) && RetryCount(s.slots[w].msg) < MAX_RETRIES
    case Settle(w) => w < |s.slots| && s.slots[w].Busy? && s.slots[w].phase.Settling? && s.slots[w].connected
    case SettleFails(w) => w < |s.slots| && s.slots[w].Busy? && s.slots[w].phase.Settling?
    case CutOff(w) => w < |s.slots| && s.slots[w].Busy? && !s.slots[w].phase.Unsettled? && s.slots[w].connected
    case Lose(w) => w < |s.slots| && s.slots[w].Busy?
  }

  /** The statement that a step commits, if any. */
  function Committed(s: State, st: Step): Option<Statement>
    requires Enabled(s, st)
  {
    match st
    case Create(userId, taskType, _) => Some(Insert(s.nextId, userId, taskType, PENDING))
    case Tx1(w, _) => Some(MarkProcessing(s.slots[w].msg.payload.id))
    case Tx2(w, _) => Some(MarkOutcome(s.slots[w].msg.payload.id, s.slots[w].phase.failure))
    case GiveUp(w, _) => Some(MarkFailed(s.slots[w].msg.payload.id, MAX_RETRIES_REACHED))
    case _ => None
  }

  function NextRows(s: State, st: Step): Table
    requires Enabled(s, st)
  {
    match Committed(s, st)
    case Some(statement) => Execute(s.rows, statement, st.now)
    case None => s.rows
  }

  function Retried(m: Message): Message {
    m.(retryHeader := Some(RetryCount(m) + 1))
  }

  /** The message that a step queues, if any. */
  function Queued(s: State, st: Step): Option<Message>
    requires Enabled(s, st)
  {
    match st
    case Publish(id) => Some(Message(PayloadOf(s.rows[id]), None))
    case Republish(w) => Some(Retried(s.slots[w].msg))
    case Settle(w) => if s.slots[w].phase.verdict.Requeue? then Some(s.slots[w].msg) else None
    case CutOff(w) => Some(s.slots[w].msg)
    case Lose(w) => if s.slots[w].connected then Some(s.slots[w].msg) else None
    case _ => None
  }

  function Without<T>(q: seq<T>, i: nat): seq<T>
    requires i < |q|
  {
    q[..i] + q[i + 1..]
  }

  function NextQueue(s: State, st: Step): seq<Message>
    requires Enabled(s, st)
  {
    if st.Deliver? then Without(s.queue, st.i)
    else match Queued(s, st)
      case Some(m) => s.queue + [m]
      case None => s.queue
  }

  /** Where a step leaves its worker. */
  function NextSlot(s: State, st: Step): Slot
    requires Enabled(s, st) && OnSlot(st)
  {
    match st
    case Deliver(w, i) => Busy(s.queue[i], Received, true)
    case Reject(w) => s.slots[w].(phase := Settling(Remove))
    case Tx1(w, _) => s.slots[w].(phase := Marked)
    case Tx1Fails(w) => s.slots[w].(phase := Settling(Requeue))
    case Handle(w) => s.slots[w].(phase := Handled(HandleTask(s.slots[w].msg.payload)))
    case Tx2(w, _) => s.slots[w].(phase := Settling(Remove))
    case Tx2Fails(w) => s.slots[w].(phase := Unfinalised)
    case GiveUp(w, _) => s.slots[w].(phase := Settling(Remove))
    case GiveUpFails(w) => s.slots[w].(phase := Settling(Remove))
    case Republish(w) => s.slots[w].(phase := Settling(Remove))
    case RepublishFails(w) => s.slots[w].(phase := Settling(Remove))
    case Settle(w) => Idle
    case SettleFails(w) =>
      if s.slots[w].connected then s.slots[w].(phase := Unsettled(s.slots[w].phase.verdict)) else Idle
    case CutOff(w) => s.slots[w].(connected := false)
    case Lose(w) => Idle
  }

  /** The broker queues the worker's message again. */
  predicate GivesBack(s: State, st: Step)
    requires Enabled(s, st)
  {
    st.CutOff? || (st.Lose? && s.slots[st.w].connected)
  }

  /** The worker has marked the task PROCESSING and not yet marked its outcome. */
  predicate Owing(slot: Slot) {
    slot.Busy? && (slot.phase.Marked? || slot.phase.Handled? || slot.phase.Unfinalised?)
  }

  /** The leak that a step opens, if any. */
  function NextLeak(s: State, st: Step): Option<(int, Leak)>
    requires Enabled(s, st)
  {
    match st
    case PublishFails(id) => Some((id, PublishLost))
    case Reject(w) => Some((s.slots[w].msg.payload.id, Unparsable))
    case GiveUpFails(w) => Some((s.slots[w].msg.payload.id, FinalMarkFailed))
    case RepublishFails(w) => Some((s.slots[w].msg.payload.id, RepublishFailed))
    case Lose(w) =>
      if Owing(s.slots[w]) && !s.slots[w].connected then Some((s.slots[w].msg.payload.id, CutOffWorkerLost)) else None
    case _ => None
  }

  function NextLog(s: State, st: Step): Log
    requires Enabled(s, st)
  {
    var log := s.log;
    Log(
      published := if st.Publish? then log.published + [st.id] else log.published,
      handled := if st.Handle? then log.handled + [s.slots[st.w].msg.payload.id] else log.handled,
      redelivered := if GivesBack(s, st) then log.redelivered + [s.slots[st.w].msg.payload.id] else log.redelivered,
      unfinalised := if st.Tx2Fails? then log.unfinalised + [s.slots[st.w].msg.payload.id] else log.unfinalised,
      exhausted := if st.GiveUp? then log.exhausted + {s.slots[st.w].msg.payload.id} else log.exhausted,
      leaks := if NextLeak(s, st).Some? then log.leaks + {NextLeak(s, st).value} else log.leaks,
      firstFailures := if st.Tx1Fails? then log.firstFailures + 1 else log.firstFailures,
      workerSteps := if IsWorkerStep(st) then log.workerSteps + 1 else log.workerSteps)
  }

  function NextCreating(s: State, st: Step): set<int>
    requires Enabled(s, st)
  {
    match st
    case Create(_, _, _) => s.creating + {s.nextId}
    case Publish(id) => s.creating - {id}
    case PublishFails(id) => s.creating - {id}
    case _ => s.creating
  }

  /** The state after a step. A row id is drawn from a sequence that no failure takes back. */
  function Apply(s: State, st: Step): State
    requires Enabled(s, st)
  {
    State(
      rows := NextRows(s, st),
      nextId := if st.Create? || (st.CreateFails? && st.idTaken) then s.nextId + 1 else s.nextId,
      creating := NextCreating(s, st),
      queue := NextQueue(s, st),
      slots := if OnSlot(st) then s.slots[st.w := NextSlot(s, st)] else s.slots,
      printable := s.printable,
      log := NextLog(s, st))
  }

  const EMPTY_LOG := Log([], [], [], [], {}, {}, 0, 0)

  /** An empty system with `workers` workers. */
  function Start(workers: nat, printable: char -> bool): State {
    State(map[], 1, {}, [], seq(workers, _ => Idle), printable, EMPTY_LOG)
  }

  /** The steps can be taken one after the other from s. */
  predicate CanRun(s: State, steps: seq<Step>)
    decreases |steps|
  {
    steps == [] || (Enabled(s, steps[0]) && CanRun(Apply(s, steps[0]), steps[1..]))
  }

  function Final(s: State, steps: seq<Step>): State
    requires CanRun(s, steps)
    decreases |steps|
  {
    if steps == [] then s else Final(Apply(s, steps[0]), steps[1..])
  }

  /** s is a state of some run of a pool with some number of workers. */
  ghost predicate Reachable(s: State) {
    exists workers: nat, printable, steps ::
      CanRun(Start(workers, printable), steps) && Final(Start(workers, printable), steps) == s
  }
}
