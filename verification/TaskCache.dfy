/** The read-through cache as concurrent readers and writers see it. A reader looks its key up, on a
    miss reads the table, and then sets the entry; between these steps other readers act and the table
    changes. Nothing removes an entry when a row changes. Instants are milliseconds. */
module TaskCache {
  import opened Prelude
  import opened TaskTable
  import opened RedisKeys

  const TTL := 3_600_000
  const DEADLINE := 2_000

  datatype Cached = One(row: Row) | Many(rows: seq<Row>)

  /** v is what the query for key k reads from the table. */
  predicate ReadFrom(rows: Table, k: Key, v: Cached) {
    match k
    case Task(id) => id in rows && v == One(rows[id])
    case UserTasks(u) =>
      && v.Many? && DistinctIds(v.rows)
      && (forall r | r in v.rows :: r.id in rows && rows[r.id] == r && r.userId == u)
      && (forall id | id in rows && rows[id].userId == u :: rows[id] in v.rows)
    case Limiter(_) => false
  }

  /** The table that was committed at an instant and stayed until the next version. */
  datatype Version = Version(at: int, rows: Table)

  /** Where a value comes from: the version it was read from and the instant of the read. The code keeps
      neither; no step depends on them. */
  datatype Origin = Origin(version: nat, readAt: int)

  datatype Entry = Entry(key: Key, value: Cached, expires: int, origin: Origin)

  datatype Reader =
    | Looking(key: Key, started: int)
    | Missed(key: Key, started: int, lookedUpAt: int)
    | Loaded(key: Key, started: int, lookedUpAt: int, value: Cached, origin: Origin)

  /** What a reader returned, and when it looked the key up. */
  datatype Answer = Answer(key: Key, value: Cached, lookedUpAt: int, origin: Origin)

  datatype State = State(
    now: int,
    history: seq<Version>,
    cache: map<string, Entry>,
    readers: map<nat, Reader>,
    answers: seq<Answer>)

  datatype Step =
    | Tick(elapsed: nat)
    | Commit(rows: Table)
    | Evict(redisKey: string)
    | Begin(r: nat, key: Key)
    | LookUp(r: nat, fails: bool)
    | Load(r: nat, value: Cached)
    | LoadFails(r: nat)
    | Store(r: nat, fails: bool)

  function Current(s: State): Table
    requires s.history != []
  {
    Last(s.history).rows
  }

  function Hit(s: State, k: Key): Option<Entry> {
    if Print(k) in s.cache && s.now <= s.cache[Print(k)].expires then Some(s.cache[Print(k)]) else None
  }

  /** The two seconds of the reader's context are over. */
  predicate Overdue(s: State, reader: Reader) {
    s.now > reader.started + DEADLINE
  }

  /** Calls to Redis then fail. */
  predicate Enabled(s: State, st: Step) {
    s.history != [] &&
    match st
    case Tick(_) => true
    case Commit(rows) => Evolves(Current(s), rows) && KeyedById(rows)
    case Evict(_) => true
    case Begin(r, key) => r !in s.readers && !key.Limiter?
    case LookUp(r, fails) => r in s.readers && s.readers[r].Looking? && (Overdue(s, s.readers[r]) ==> fails)
    case Load(r, value) => r in s.readers && s.readers[r].Missed? && ReadFrom(Current(s), s.readers[r].key, value)
    case LoadFails(r) => r in s.readers && s.readers[r].Missed?
    case Store(r, fails) => r in s.readers && s.readers[r].Loaded? && (Overdue(s, s.readers[r]) ==> fails)
  }

  function Apply(s: State, st: Step): State
    requires Enabled(s, st)
  {
    match st
    case Tick(elapsed) => s.(now := s.now + elapsed)
    case Commit(rows) => s.(history := s.history + [Version(s.now, rows)])
    case Evict(redisKey) => s.(cache := s.cache - {redisKey})
    case Begin(r, key) => s.(readers := s.readers[r := Looking(key, s.now)])
    case LookUp(r, fails) =>
      var key, started := s.readers[r].key, s.readers[r].started;
      if !fails && Hit(s, key).Some? then
        var e := Hit(s, key).value;
        s.(readers := s.readers - {r}, answers := s.answers + [Answer(key, e.value, s.now, e.origin)])
      else
        s.(readers := s.readers[r := Missed(key, started, s.now)])
    case Load(r, value) =>
      var Missed(key, started, lookedUpAt) := s.readers[r];
      s.(readers := s.readers[r := Loaded(key, started, lookedUpAt, value, Origin(|s.history| - 1, s.now))])
    case LoadFails(r) => s.(readers := s.readers - {r})
    case Store(r, fails) =>
      var Loaded(key, started, lookedUpAt, value, origin) := s.readers[r];
      s.(readers := s.readers - {r},
         cache := if fails then s.cache else s.cache[Print(key) := Entry(key, value, s.now + TTL, origin)],
         answers := s.answers + [Answer(key, value, lookedUpAt, origin)])
  }

  predicate CanRun(s: State, steps: seq<Step>)
    decreases |steps|
  {
    steps == [] || (Enabled(s, steps[0]) && CanRun(Apply(s, steps[0]), steps[1..]))
  }

  function Final(s: State, steps: seq<Step>): State
    requires CanRun(s, steps)
    decreases |steps|
  {
    if steps == [] then s else Final(Apply(s, steps[0]), steps[1..])
  }

  /** An empty cache over a table. */
  function Start(now: int, rows: Table): State {
    State(now, [Version(now, rows)], map[], map[], [])
  }

  ghost predicate Reachable(s: State) {
    exists now, rows, steps :: KeyedById(rows) && CanRun(Start(now, rows), steps) && Final(Start(now, rows), steps) == s
  }

  // ---------------------------------------------------------------- invariant

  /** At instant `at` the table was version v. */
  predicate WasCommittedAt(history: seq<Version>, v: nat, at: int) {
    v < |history| && history[v].at <= at && (v + 1 < |history| ==> at <= history[v + 1].at)
  }

  predicate OriginOk(s: State, k: Key, v: Cached, o: Origin) {
    && WasCommittedAt(s.history, o.version, o.readAt)
    && o.readAt <= s.now
    && ReadFrom(s.history[o.version].rows, k, v)
  }

  predicate HistoryOk(s: State) {
    && s.history != []
    && Last(s.history).at <= s.now
    && (forall i | 0 <= i < |s.history| :: KeyedById(s.history[i].rows) && Evolves(s.history[i].rows, Current(s)))
  }

  predicate EntryOk(s: State, redisKey: string, e: Entry) {
    Print(e.key) == redisKey && OriginOk(s, e.key, e.value, e.origin) && e.expires - TTL <= e.origin.readAt + DEADLINE
  }

  predicate ReaderOk(s: State, reader: Reader) {
    match reader
    case Looking(_, started) => started <= s.now
    case Missed(_, started, lookedUpAt) => started <= lookedUpAt <= s.now
    case Loaded(key, started, lookedUpAt, value, origin) =>
      started <= lookedUpAt <= origin.readAt && OriginOk(s, key, value, origin)
  }

  predicate AnswerOk(s: State, a: Answer) {
    OriginOk(s, a.key, a.value, a.origin) && a.origin.readAt >= a.lookedUpAt - TTL - DEADLINE
  }

  ghost predicate Invariant(s: State) {
    && HistoryOk(s)
    && (forall k | k in s.cache :: EntryOk(s, k, s.cache[k]))
    && (forall r | r in s.readers :: ReaderOk(s, s.readers[r]))
    && (forall i | 0 <= i < |s.answers| :: AnswerOk(s, s.answers[i]))
  }

  lemma EvolvesOn(a: Table, b: Table, c: Table)
    requires Evolves(a, b) && Evolves(b, c)
    ensures Evolves(a, c)
  {
    forall id | id in a ensures id in c && SameIdentity(a[id], c[id]) {
      assert id in b && SameIdentity(a[id], b[id]);
    }
  }

  lemma HistoryOkAfter(s: State, st: Step)
    requires HistoryOk(s) && Enabled(s, st)
    ensures HistoryOk(Apply(s, st))
  {
    if st.Commit? {
      var t := Apply(s, st);
      forall i | 0 <= i < |t.history| ensures KeyedById(t.history[i].rows) && Evolves(t.history[i].rows, st.rows) {
        if i < |s.history| {
          EvolvesOn(s.history[i].rows, Current(s), st.rows);
        }
      }
    }
  }

  /** A value keeps its origin. */
  lemma OriginStays(s: State, st: Step, k: Key, v: Cached, o: Origin)
    requires HistoryOk(s) && Enabled(s, st) && OriginOk(s, k, v, o)
    ensures OriginOk(Apply(s, st), k, v, o)
  {
  }

  lemma EntriesStayOk(s: State, st: Step)
    requires Invariant(s) && Enabled(s, st)
    ensures var t := Apply(s, st); forall k | k in t.cache :: EntryOk(t, k, t.cache[k])
  {
    var t := Apply(s, st);
    forall k | k in t.cache ensures EntryOk(t, k, t.cache[k]) {
      if k in s.cache && t.cache[k] == s.cache[k] {
        OriginStays(s, st, s.cache[k].key, s.cache[k].value, s.cache[k].origin);
      } else {
        assert ReaderOk(s, s.readers[st.r]);
      }
    }
  }

  lemma ReadersStayOk(s: State, st: Step)
    requires Invariant(s) && Enabled(s, st)
    ensures var t := Apply(s, st); forall r | r in t.readers :: ReaderOk(t, t.readers[r])
  {
    var t := Apply(s, st);
    forall r | r in t.readers ensures ReaderOk(t, t.readers[r]) {
      if r in s.readers {
        assert ReaderOk(s, s.readers[r]);
        if s.readers[r].Loaded? {
          OriginStays(s, st, s.readers[r].key, s.readers[r].value, s.readers[r].origin);
        }
      }
    }
  }

  lemma NewAnswerOk(s: State, st: Step)
    requires Invariant(s) && Enabled(s, st) && (st.LookUp? || st.Store?)
    ensures var t := Apply(s, st); |t.answers| > |s.answers| ==> AnswerOk(s, Last(t.answers))
  {
    var reader := s.readers[st.r];
    assert ReaderOk(s, reader);
    if st.LookUp? && !st.fails && Hit(s, reader.key).Some? {
      var e := Hit(s, reader.key).value;
      assert EntryOk(s, Print(reader.key), e);
      KeysNeverCollide(e.key, reader.key);
    }
  }

  lemma AnswersStayOk(s: State, st: Step)
    requires Invariant(s) && Enabled(s, st)
    ensures var t := Apply(s, st); forall i | 0 <= i < |t.answers| :: AnswerOk(t, t.answers[i])
  {
    var t := Apply(s, st);
    forall i | 0 <= i < |t.answers| ensures AnswerOk(t, t.answers[i]) {
      var a := t.answers[i];
      if i < |s.answers| {
        assert a == s.answers[i];
      } else {
        NewAnswerOk(s, st);
      }
      OriginStays(s, st, a.key, a.value, a.origin);
    }
  }

  lemma InvariantAfter(s: State, st: Step)
    requires Invariant(s) && Enabled(s, st)
    ensures Invariant(Apply(s, st))
  {
    HistoryOkAfter(s, st);
    EntriesStayOk(s, st);
    ReadersStayOk(s, st);
    AnswersStayOk(s, st);
  }

  lemma {:induction false} InvariantAlong(s: State, steps: seq<Step>)
    requires Invariant(s) && CanRun(s, steps)
    ensures Invariant(Final(s, steps))
    decreases |steps|
  {
    if steps == [] {
    } else {
      InvariantAfter(s, steps[0]);
      InvariantAlong(Apply(s, steps[0]), steps[1..]);
    }
  }

  lemma ReachableInvariant(s: State)
    requires Reachable(s)
    ensures Invariant(s)
  {
    var now, rows, steps :| KeyedById(rows) && CanRun(Start(now, rows), steps) && Final(Start(now, rows), steps) == s;
    InvariantAlong(Start(now, rows), steps);
  }

  // ---------------------------------------------------------------- theorems

  /** Whatever a reader returns is what its query would have read from the table as committed at some
      instant no more than one hour and two seconds before the reader looked its key up, even when slow
      readers overwrite newer entries. */
  lemma StalenessIsBounded(s: State, i: nat)
    requires Reachable(s) && i < |s.answers|
    ensures var a := s.answers[i];
      exists v: nat, at :: WasCommittedAt(s.history, v, at) && ReadFrom(s.history[v].rows, a.key, a.value)
                      && a.lookedUpAt - 3_602_000 <= at
  {
    ReachableInvariant(s);
    var a := s.answers[i];
    assert AnswerOk(s, a);
    assert WasCommittedAt(s.history, a.origin.version, a.origin.readAt);
  }

  /** Every row in a value is still in the table, with the same identity. */
  ghost predicate AgreesWith(k: Key, v: Cached, rows: Table) {
    match k
    case Task(id) => v.One? && v.row.id == id && id in rows && SameIdentity(v.row, rows[id])
    case UserTasks(u) =>
      v.Many? && forall r | r in v.rows :: r.userId == u && r.id in rows && SameIdentity(r, rows[r.id])
    case Limiter(_) => false
  }

  lemma OldReadAgrees(k: Key, v: Cached, before: Table, rows: Table)
    requires ReadFrom(before, k, v) && Evolves(before, rows) && KeyedById(before)
    ensures AgreesWith(k, v, rows)
  {
  }

  lemma CachedEntryAgrees(s: State, k: Key)
    requires Invariant(s)
    ensures Print(k) in s.cache ==> AgreesWith(k, s.cache[Print(k)].value, Current(s))
  {
    if Print(k) in s.cache {
      var e := s.cache[Print(k)];
      assert EntryOk(s, Print(k), e);
      KeysNeverCollide(e.key, k);
      OldReadAgrees(k, e.value, s.history[e.origin.version].rows, Current(s));
    }
  }

  /** Cached entries and returned values, however stale, agree with the live table on what never
      changes: a task's id, user, type and creation time, and to whom the rows of a list belong. */
  lemma StaleValuesKeepIdentity(s: State, k: Key, i: nat)
    requires Reachable(s) && i < |s.answers|
    ensures s.history != []
    ensures AgreesWith(s.answers[i].key, s.answers[i].value, Current(s))
    ensures Print(k) in s.cache ==> AgreesWith(k, s.cache[Print(k)].value, Current(s))
  {
    ReachableInvariant(s);
    var a := s.answers[i];
    assert AnswerOk(s, a);
    OldReadAgrees(a.key, a.value, s.history[a.origin.version].rows, Current(s));
    CachedEntryAgrees(s, k);
  }

  /** GetTask's test of ownership gives the same answer on a returned row as on the live one. */
  lemma OwnershipTestIsUnaffected(s: State, i: nat, userId: int)
    requires Reachable(s) && i < |s.answers| && s.answers[i].key.Task?
    ensures s.history != []
    ensures var id := s.answers[i].key.taskId;
      s.answers[i].value.One? && id in Current(s) &&
      (s.answers[i].value.row.userId == userId <==> Current(s)[id].userId == userId)
  {
    StaleValuesKeepIdentity(s, s.answers[i].key, i);
  }

  // ---------------------------------------------------------------- the bound is reached

  ghost predicate Reaches(s: State, t: State) {
    exists steps :: CanRun(s, steps) && Final(s, steps) == t
  }

  lemma ReachesFrom(s: State, st: Step, next: State, t: State)
    requires Enabled(s, st) && Apply(s, st) == next && Reaches(next, t)
    ensures Reaches(s, t)
  {
    var steps :| CanRun(next, steps) && Final(next, steps) == t;
    assert ([st] + steps)[1..] == steps;
    assert CanRun(s, [st] + steps) && Final(s, [st] + steps) == t;
  }

  /** The state after a slow reader read a row just before it changed and set the entry two seconds
      later. */
  function AfterSlowReader(rows: Table, changed: Table, id: int): State
    requires id in rows
  {
    State(2_000, [Version(0, rows), Version(0, changed)],
          map[TaskKey(id) := Entry(Task(id), One(rows[id]), 2_000 + TTL, Origin(0, 0))], map[],
          [Answer(Task(id), One(rows[id]), 0, Origin(0, 0))])
  }

  lemma SlowReader(rows: Table, changed: Table, id: int, t: State)
    requires KeyedById(rows) && KeyedById(changed) && Evolves(rows, changed) && id in rows
    requires Reaches(AfterSlowReader(rows, changed, id), t)
    ensures Reaches(Start(0, rows), t)
  {
    var k, v := Task(id), One(rows[id]);
    var s0 := Start(0, rows);
    var s1 := s0.(readers := map[0 := Looking(k, 0)]);
    var s2 := s0.(readers := map[0 := Missed(k, 0, 0)]);
    var s3 := s0.(readers := map[0 := Loaded(k, 0, 0, v, Origin(0, 0))]);
    var s4 := s3.(history := [Version(0, rows), Version(0, changed)]);
    var s5 := s4.(now := 2_000);
    var s6 := AfterSlowReader(rows, changed, id);
    assert Apply(s5, Store(0, false)).readers == map[];
    ReachesFrom(s5, Store(0, false), s6, t);
    ReachesFrom(s4, Tick(2_000), s5, t);
    ReachesFrom(s3, Commit(changed), s4, t);
    ReachesFrom(s2, Load(0, v), s3, t);
    ReachesFrom(s1, LookUp(0, false), s2, t);
    ReachesFrom(s0, Begin(0, k), s1, t);
  }

  lemma LateHit(s: State, id: int, e: Entry)
    requires s.history != [] && s.readers == map[] && s.cache == map[TaskKey(id) := e] && e.expires == s.now + TTL
    ensures var late := s.now + TTL;
      Reaches(s, s.(now := late, answers := s.answers + [Answer(Task(id), e.value, late, e.origin)]))
  {
    var s1 := s.(now := s.now + TTL);
    var s2 := s1.(readers := map[1 := Looking(Task(id), s1.now)]);
    var t := s1.(answers := s.answers + [Answer(Task(id), e.value, s1.now, e.origin)]);
    assert Apply(s2, LookUp(1, false)).readers == map[];
    assert CanRun(t, []) && Final(t, []) == t;
    ReachesFrom(s2, LookUp(1, false), t, t);
    ReachesFrom(s1, Begin(1, Task(id)), s2, t);
    ReachesFrom(s, Tick(TTL), s1, t);
  }

  /** Answer i is what the table held `age` before the lookup or earlier, and at no later instant. */
  ghost predicate StaleBy(s: State, i: nat, age: int)
    requires i < |s.answers|
  {
    var a := s.answers[i];
    forall v: nat, at | WasCommittedAt(s.history, v, at) && ReadFrom(s.history[v].rows, a.key, a.value) ::
      at <= a.lookedUpAt - age
  }

  /** The bound cannot be lowered: for any change of a row there is a run in which a reader is given the
      row from before the change one hour and two seconds after it. */
  lemma StalenessBoundIsReached(rows: Table, changed: Table, id: int)
    requires KeyedById(rows) && KeyedById(changed) && Evolves(rows, changed) && id in rows && rows[id] != changed[id]
    ensures exists s ::
      Reachable(s) && |s.answers| == 2 && s.answers[1].key == Task(id) && StaleBy(s, 1, 3_602_000)
  {
    var s := AfterSlowReader(rows, changed, id);
    var late := Answer(Task(id), One(rows[id]), 3_602_000, Origin(0, 0));
    var t := s.(now := 3_602_000, answers := s.answers + [late]);
    LateHit(s, id, s.cache[TaskKey(id)]);
    SlowReader(rows, changed, id, t);
    assert Reachable(t);
    assert StaleBy(t, 1, 3_602_000);
  }
}
