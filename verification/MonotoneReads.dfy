/** Successive reads of one task through the cache, while the worker pool runs. */
module MonotoneReads {
  import opened Prelude
  import opened TaskTable
  import opened QueueBody
  import opened RedisKeys
  import opened WorkerDiscipline
  import WorkerOutcomes
  import WorkerPool
  import WorkerSafety
  import WorkerTheorems
  import WorkerScenarios
  import TaskCache

  datatype CachedRow = CachedRow(row: Row, expires: int)

  predicate Live(entry: Option<CachedRow>, now: int) {
    entry.Some? && now <= entry.value.expires
  }

  /** One call of GetTask that nothing interrupts: the entry left under the task's key, and the row
      returned. The cache may fail to be read or to be set, and the table to be read. */
  function GetTask(entry: Option<CachedRow>, row: Option<Row>, now: int,
                   getFails: bool, queryFails: bool, setFails: bool)
    : (Option<CachedRow>, Option<Row>)
  {
    if !getFails && Live(entry, now) then (entry, Some(entry.value.row))
    else if row.None? || queryFails then (entry, None)
    else if setFails then (entry, row)
    else (Some(CachedRow(row.value, now + TaskCache.TTL)), row)
  }

  datatype State = State(pool: WorkerPool.State, cache: map<string, CachedRow>, now: int,
                         returned: map<int, Row>)  // the row last returned for each task

  datatype Step =
    | Pool(st: WorkerPool.Step)
    | Tick(elapsed: nat)
    | Evict(redisKey: string)
    | Read(id: int, getFails: bool, queryFails: bool, setFails: bool)

  function EntryOf(s: State, id: int): Option<CachedRow> {
    if TaskKey(id) in s.cache then Some(s.cache[TaskKey(id)]) else None
  }

  function RowOf(s: State, id: int): Option<Row> {
    if id in s.pool.rows then Some(s.pool.rows[id]) else None
  }

  predicate Enabled(s: State, st: Step) {
    st.Pool? ==> WorkerPool.Enabled(s.pool, st.st)
  }

  function Apply(s: State, st: Step): State
    requires Enabled(s, st)
  {
    match st
    case Pool(p) => s.(pool := WorkerPool.Apply(s.pool, p))
    case Tick(elapsed) => s.(now := s.now + elapsed)
    case Evict(redisKey) => s.(cache := s.cache - {redisKey})
    case Read(id, getFails, queryFails, setFails) =>
      var (entry, row) := GetTask(EntryOf(s, id), RowOf(s, id), s.now, getFails, queryFails, setFails);
      s.(cache := if entry.Some? then s.cache[TaskKey(id) := entry.value] else s.cache,
         returned := if row.Some? then s.returned[id := row.value] else s.returned)
  }

  /** A read that can neither read nor set a live entry, and so returns the row past it. */
  predicate Bypasses(s: State, st: Step) {
    && st.Read? && st.getFails && !st.queryFails && st.setFails
    && st.id in s.pool.rows && Live(EntryOf(s, st.id), s.now)
  }

  /** It does so although the row has moved on since the entry was made. */
  predicate StepsAhead(s: State, st: Step) {
    Bypasses(s, st) && Rank(EntryOf(s, st.id).value.row.status) < Rank(s.pool.rows[st.id].status)
  }

  /** The queue body cannot carry the type of the task. */
  predicate Unreadable(pool: WorkerPool.State, id: int) {
    id in pool.rows && !Encodable(pool.rows[id].taskType, pool.printable)
  }

  /** The step disturbs the order in which the task is read. */
  predicate Disturbs(s: State, st: Step, id: int)
    requires Enabled(s, st)
  {
    match st
    case Pool(p) => Harms(s.pool, p, id) && !Unreadable(s.pool, id)
    case Tick(_) => false
    case Evict(_) => false
    case Read(other, _, _, _) => other == id && StepsAhead(s, st)
  }

  predicate CanRun(s: State, steps: seq<Step>)
    decreases |steps|
  {
    steps == [] || (Enabled(s, steps[0]) && CanRun(Apply(s, steps[0]), steps[1..]))
  }

  function Final(s: State, steps: seq<Step>): State
    requires CanRun(s, steps)
    decreases |steps|
  {
    if steps == [] then s else Final(Apply(s, steps[0]), steps[1..])
  }

  /** No step of the run disturbs the order in which the task is read. */
  predicate Undisturbed(s: State, steps: seq<Step>, id: int)
    requires CanRun(s, steps)
    decreases |steps|
  {
    steps == [] || (!Disturbs(s, steps[0], id) && Undisturbed(Apply(s, steps[0]), steps[1..], id))
  }

  function Start(workers: nat, printable: char -> bool, now: int): State {
    State(WorkerPool.Start(workers, printable), map[], now, map[])
  }

  /** Some run leads from s to t without disturbing the order in which the task is read. */
  ghost predicate Reaches(s: State, t: State, id: int) {
    exists steps :: CanRun(s, steps) && Undisturbed(s, steps, id) && Final(s, steps) == t
  }

  /** s is a state of some such run from the start. */
  ghost predicate Reachable(s: State, id: int) {
    exists workers: nat, printable, now :: Reaches(Start(workers, printable, now), s, id)
  }

  // ---------------------------------------------------------------- invariant

  /** The entry and the last returned row are earlier states of the live row, and a reader that hits a
      live entry is not taken back. */
  predicate InOrder(s: State, id: int) {
    var entry := EntryOf(s, id);
    && (entry.Some? ==> id in s.pool.rows && Later(entry.value.row, s.pool.rows[id]))
    && (id in s.returned ==> id in s.pool.rows && Later(s.returned[id], s.pool.rows[id]))
    && (id in s.returned && Live(entry, s.now) ==> Later(s.returned[id], entry.value.row))
  }

  ghost predicate Invariant(s: State, id: int) {
    WorkerTheorems.Invariant(s.pool) && (Disciplined(s.pool, id) || Unreadable(s.pool, id)) && InOrder(s, id)
  }

  lemma LaterOn(a: Row, b: Row, c: Row)
    requires Later(a, b) && Later(b, c)
    ensures Later(a, c)
  {
  }

  lemma OtherReadsKeepEntry(s: State, st: Step, id: int)
    requires Enabled(s, st) && (st.Read? ==> st.id != id)
    ensures EntryOf(Apply(s, st), id) == EntryOf(s, id) || (st.Evict? && EntryOf(Apply(s, st), id).None?)
  {
    if st.Read? && TaskKey(st.id) == TaskKey(id) {
      KeysNeverCollide(Task(st.id), Task(id));
    }
  }

  lemma RowMovesOn(pool: WorkerPool.State, p: WorkerPool.Step, id: int)
    requires WorkerTheorems.Invariant(pool) && WorkerPool.Enabled(pool, p)
    requires Unreadable(pool, id) || (Disciplined(pool, id) && !Harms(pool, p, id))
    ensures id in pool.rows ==>
      id in WorkerPool.Apply(pool, p).rows && Later(pool.rows[id], WorkerPool.Apply(pool, p).rows[id])
    ensures var next := WorkerPool.Apply(pool, p); Disciplined(next, id) || Unreadable(next, id)
  {
    if Unreadable(pool, id) {
      var next := WorkerPool.Apply(pool, p);
      WorkerTheorems.InvariantAfter(pool, p);
      WorkerSafety.StepsKeepIdentity(pool, p);
      assert WorkerOutcomes.RowHonest(pool.rows[id], pool.log, pool.printable);
      assert WorkerOutcomes.RowHonest(next.rows[id], next.log, next.printable);
    } else {
      DisciplinedAfter(pool, p, id);
    }
  }

  /** The rows move on, and the order stays. */
  lemma InOrderAfterPoolStep(s: State, p: WorkerPool.Step, id: int)
    requires Invariant(s, id) && Enabled(s, Pool(p)) && !Disturbs(s, Pool(p), id)
    ensures InOrder(Apply(s, Pool(p)), id)
  {
    RowMovesOn(s.pool, p, id);
    if id in s.pool.rows {
      var before, after := s.pool.rows[id], WorkerPool.Apply(s.pool, p).rows[id];
      if EntryOf(s, id).Some? {
        LaterOn(EntryOf(s, id).value.row, before, after);
      }
      if id in s.returned {
        LaterOn(s.returned[id], before, after);
      }
    }
  }

  lemma InOrderAfterRead(s: State, st: Step)
    requires st.Read? && InOrder(s, st.id) && !StepsAhead(s, st)
    ensures InOrder(Apply(s, st), st.id)
  {
  }

  lemma InvariantAfter(s: State, st: Step, id: int)
    requires Invariant(s, id) && Enabled(s, st) && !Disturbs(s, st, id)
    ensures Invariant(Apply(s, st), id)
  {
    if st.Pool? {
      WorkerTheorems.InvariantAfter(s.pool, st.st);
      RowMovesOn(s.pool, st.st, id);
      InOrderAfterPoolStep(s, st.st, id);
    } else if st.Read? && st.id == id {
      InOrderAfterRead(s, st);
    } else {
      OtherReadsKeepEntry(s, st, id);
    }
  }

  /** A step that does not disturb the order never takes the returned row back. */
  lemma ReturnedAfter(s: State, st: Step, id: int)
    requires Invariant(s, id) && Enabled(s, st) && id in s.returned
    ensures id in Apply(s, st).returned && Later(s.returned[id], Apply(s, st).returned[id])
  {
  }

  lemma {:induction false} InvariantAlong(s: State, steps: seq<Step>, id: int)
    requires Invariant(s, id) && CanRun(s, steps) && Undisturbed(s, steps, id)
    ensures Invariant(Final(s, steps), id)
    ensures id in s.returned ==> id in Final(s, steps).returned && Later(s.returned[id], Final(s, steps).returned[id])
    decreases |steps|
  {
    if steps == [] {
    } else {
      var t := Apply(s, steps[0]);
      InvariantAfter(s, steps[0], id);
      InvariantAlong(t, steps[1..], id);
      if id in s.returned {
        ReturnedAfter(s, steps[0], id);
        LaterOn(s.returned[id], t.returned[id], Final(s, steps).returned[id]);
      }
    }
  }

  lemma ReachableInvariant(s: State, id: int)
    requires Reachable(s, id)
    ensures Invariant(s, id)
  {
    var workers: nat, printable, now :| Reaches(Start(workers, printable, now), s, id);
    var start := Start(workers, printable, now);
    var steps :| CanRun(start, steps) && Undisturbed(start, steps, id) && Final(start, steps) == s;
    WorkerTheorems.InvariantAtStart(workers, printable);
    InvariantAlong(start, steps, id);
  }

  // ---------------------------------------------------------------- theorems

  /** Of two reads of a task in an undisturbed run, however far apart, the later one never goes back, and
      once a read has returned a finished row all later ones return that row: across hits, misses, expiry
      and failures of the cache and the database. */
  lemma ReadsAreMonotone(s: State, steps: seq<Step>, id: int)
    requires Reachable(s, id) && CanRun(s, steps) && Undisturbed(s, steps, id) && id in s.returned
    ensures id in Final(s, steps).returned && Later(s.returned[id], Final(s, steps).returned[id])
  {
    ReachableInvariant(s, id);
    InvariantAlong(s, steps, id);
  }

  lemma NextReadInOrder(s: State, st: Step, setFails: bool)
    requires st.Read? && InOrder(s, st.id) && st.id in s.pool.rows
    ensures var t := Apply(s, st); var u := Apply(t, Read(st.id, false, false, setFails));
      && st.id in u.returned
      && (st.id in t.returned && !Later(t.returned[st.id], u.returned[st.id]) <==> StepsAhead(s, st))
      && (st.id in t.returned && Rank(u.returned[st.id].status) < Rank(t.returned[st.id].status) <==> StepsAhead(s, st))
  {
  }

  /** A read makes the next one that can read the cache go back exactly when it steps ahead of a live
      entry. */
  lemma NextReadGoesBackIffStepsAhead(s: State, st: Step, setFails: bool)
    requires st.Read? && Reachable(s, st.id) && st.id in s.pool.rows
    ensures var t := Apply(s, st); var u := Apply(t, Read(st.id, false, false, setFails));
      && st.id in u.returned
      && (st.id in t.returned && !Later(t.returned[st.id], u.returned[st.id]) <==> StepsAhead(s, st))
      && (st.id in t.returned && Rank(u.returned[st.id].status) < Rank(t.returned[st.id].status) <==> StepsAhead(s, st))
  {
    ReachableInvariant(s, st.id);
    NextReadInOrder(s, st, setFails);
  }

  // ---------------------------------------------------------------- a run that goes back

  lemma ReachesFrom(s: State, st: Step, next: State, t: State, id: int)
    requires Enabled(s, st) && !Disturbs(s, st, id) && Apply(s, st) == next && Reaches(next, t, id)
    ensures Reaches(s, t, id)
  {
    var steps :| CanRun(next, steps) && Undisturbed(next, steps, id) && Final(next, steps) == t;
    assert ([st] + steps)[1..] == steps;
    assert CanRun(s, [st] + steps) && Undisturbed(s, [st] + steps, id) && Final(s, [st] + steps) == t;
  }

  lemma PoolStepReaches(s: State, p: WorkerPool.Step, pool: WorkerPool.State, t: State)
    requires WorkerPool.Enabled(s.pool, p) && !p.Lose? && !p.CutOff? && WorkerPool.Apply(s.pool, p) == pool
    requires Reaches(s.(pool := pool), t, 1)
    ensures Reaches(s, t, 1)
  {
    ReachesFrom(s, Pool(p), s.(pool := pool), t, 1);
  }

  lemma FirstReadReaches(s: State, row: Row, t: State)
    requires s.pool.rows == map[1 := row] && s.cache == map[] && s.returned == map[]
    requires
      Reaches(State(s.pool, map[TaskKey(1) := CachedRow(row, s.now + TaskCache.TTL)], s.now, map[1 := row]), t, 1)
    ensures Reaches(s, t, 1)
  {
    ReachesFrom(s, Read(1, false, false, false),
      State(s.pool, map[TaskKey(1) := CachedRow(row, s.now + TaskCache.TTL)], s.now, map[1 := row]), t, 1);
  }

  lemma MarkedTask(row: Row, m: WorkerPool.Message, printable: char -> bool, log: WorkerPool.Log)
    returns (marked: WorkerPool.State)
    requires row == Row(1, 7, "send_email", PENDING, None, None, 0, 0) && m.payload == WorkerPool.PayloadOf(row)
    requires log.redelivered == []
    ensures var s := WorkerScenarios.Single(row, [], WorkerPool.Busy(m, WorkerPool.Received, true), printable, log);
      WorkerPool.Enabled(s, WorkerPool.Tx1(0, 1)) && marked == WorkerPool.Apply(s, WorkerPool.Tx1(0, 1))
    ensures 1 in marked.rows && marked.rows[1].status == PROCESSING
  {
    var s := WorkerScenarios.Single(row, [], WorkerPool.Busy(m, WorkerPool.Received, true), printable, log);
    WorkerScenarios.SingleHolds(row, m, printable, log);
    WorkerScenarios.MarkingStep(s, 1, 1);
    marked := WorkerPool.Apply(s, WorkerPool.Tx1(0, 1));
  }

  /** A first task has been created, read, published and delivered, and is marked PROCESSING: the cache
      still has it PENDING. */
  lemma CachedWhilePending(printable: char -> bool) returns (s: State)
    ensures Reaches(Start(1, printable, 0), s, 1) && s.now == 0
    ensures 1 in s.pool.rows && s.pool.rows[1].status == PROCESSING
    ensures EntryOf(s, 1).Some? && EntryOf(s, 1).value.row.status == PENDING && Live(EntryOf(s, 1), 0)
  {
    var row := Row(1, 7, "send_email", PENDING, None, None, 0, 0);
    var m := WorkerPool.Message(WorkerPool.PayloadOf(row), None);
    var log := WorkerPool.EMPTY_LOG.(published := [1]);
    var created := WorkerPool.State(map[1 := row], 2, {1}, [], [WorkerPool.Idle], printable, WorkerPool.EMPTY_LOG);
    var published := WorkerScenarios.Single(row, [m], WorkerPool.Idle, printable, log);
    var held := WorkerPool.Busy(m, WorkerPool.Received, true);
    var delivered := WorkerScenarios.Single(row, [], held, printable, log.(workerSteps := 1));
    var marked := MarkedTask(row, m, printable, log.(workerSteps := 1));

    s := State(marked, map[TaskKey(1) := CachedRow(row, TaskCache.TTL)], 0, map[1 := row]);
    assert CanRun(s, []) && Undisturbed(s, [], 1) && Final(s, []) == s;
    PoolStepReaches(s.(pool := delivered), WorkerPool.Tx1(0, 1), marked, s);
    WorkerScenarios.FirstDelivery(row, m, printable, log);
    PoolStepReaches(s.(pool := published), WorkerPool.Deliver(0, 0), delivered, s);
    WorkerScenarios.FirstPublish(row, printable);
    PoolStepReaches(s.(pool := created), WorkerPool.Publish(1), published, s);
    FirstReadReaches(State(created, map[], 0, map[]), row, s);
    WorkerScenarios.FirstCreate(7, "send_email", printable);
    PoolStepReaches(Start(1, printable, 0), WorkerPool.Create(7, "send_email", 0), created, s);
  }

  /** There is an undisturbed run after which a read that steps ahead returns PROCESSING and the next one
      PENDING. */
  lemma ReadThatStepsAheadIsTakenBack(printable: char -> bool)
    ensures exists s ::
      && Reachable(s, 1) && 1 in s.pool.rows && EntryOf(s, 1).Some? && StepsAhead(s, Read(1, true, false, true))
      && Apply(s, Read(1, true, false, true)).returned[1].status == PROCESSING
      && Apply(Apply(s, Read(1, true, false, true)), Read(1, false, false, false)).returned[1].status == PENDING
  {
    var s := CachedWhilePending(printable);
    assert Reachable(s, 1);
    assert StepsAhead(s, Read(1, true, false, true));
  }
}
