/** The steps that disturb the order in which a task is read are exactly those after which an undisturbed run
    can have a read return an older row than an earlier read. */
module ReadsTakenBack {
  import opened MonotoneReads
  import opened TaskTable
  import WorkerDiscipline
  import WorkerHarm
  import WorkerPool
  import WorkerSafety

  /** Some undisturbed run has two reads of the task, of which the later one goes back. */
  ghost predicate CanReadBack(s: State, id: int) {
    exists t, u ::
      && Reaches(s, t, id) && Reaches(t, u, id)
      && id in t.returned && id in u.returned && !WorkerDiscipline.Later(t.returned[id], u.returned[id])
  }

  lemma ReachesItself(s: State, id: int)
    ensures Reaches(s, s, id)
  {
    assert CanRun(s, []) && Undisturbed(s, [], id) && Final(s, []) == s;
  }

  /** A run of the pool that does not harm the task is undisturbed. */
  lemma {:induction false} PoolRunReaches(s: State, steps: seq<WorkerPool.Step>, t: State, id: int)
    requires WorkerPool.CanRun(s.pool, steps) && WorkerDiscipline.Undisturbed(s.pool, steps, id)
    requires Reaches(s.(pool := WorkerPool.Final(s.pool, steps)), t, id)
    ensures Reaches(s, t, id)
    decreases |steps|
  {
    if steps == [] {
      assert s.(pool := s.pool) == s;
    } else {
      var next := Apply(s, Pool(steps[0]));
      assert next.(pool := WorkerPool.Final(next.pool, steps[1..])) == s.(pool := WorkerPool.Final(s.pool, steps));
      PoolRunReaches(next, steps[1..], t, id);
      ReachesFrom(s, Pool(steps[0]), next, t, id);
    }
  }

  /** A read that fails to get the entry and does not fail to set it returns the live row. */
  function AfterLiveRead(s: State, id: int): State {
    Apply(s, Read(id, true, false, false))
  }

  lemma LiveReadReaches(s: State, steps: seq<WorkerPool.Step>, id: int)
    requires WorkerPool.CanRun(s.pool, steps) && WorkerDiscipline.Undisturbed(s.pool, steps, id)
    requires id in WorkerPool.Final(s.pool, steps).rows
    ensures var t := AfterLiveRead(s.(pool := WorkerPool.Final(s.pool, steps)), id);
      && Reaches(s, t, id) && t.pool == WorkerPool.Final(s.pool, steps)
      && id in t.returned && t.returned[id] == t.pool.rows[id]
  {
    var m := s.(pool := WorkerPool.Final(s.pool, steps));
    var t := AfterLiveRead(m, id);
    ReachesItself(t, id);
    ReachesFrom(m, Read(id, true, false, false), t, t, id);
    PoolRunReaches(s, steps, t, id);
  }

  lemma TakenBackIsReadBack(s: State, id: int)
    requires WorkerHarm.FinishesAndTakesBack(s.pool, id)
    ensures CanReadBack(s, id)
  {
    var a :|
      && WorkerPool.CanRun(s.pool, a) && WorkerDiscipline.Undisturbed(s.pool, a, id)
      && id in WorkerPool.Final(s.pool, a).rows && WorkerSafety.Terminal(WorkerPool.Final(s.pool, a).rows[id])
      && WorkerHarm.TakesBack(WorkerPool.Final(s.pool, a), id);
    var t := AfterLiveRead(s.(pool := WorkerPool.Final(s.pool, a)), id);
    LiveReadReaches(s, a, id);
    var b :|
      && WorkerPool.CanRun(t.pool, b) && WorkerDiscipline.Undisturbed(t.pool, b, id)
      && id in WorkerPool.Final(t.pool, b).rows && WorkerPool.Final(t.pool, b).rows[id].status == PROCESSING;
    var u := AfterLiveRead(t.(pool := WorkerPool.Final(t.pool, b)), id);
    LiveReadReaches(t, b, id);
    assert !WorkerDiscipline.Later(t.returned[id], u.returned[id]);
  }

  lemma SteppingAheadIsReadBack(s: State, st: Step)
    requires st.Read? && Reachable(s, st.id) && StepsAhead(s, st)
    ensures CanReadBack(Apply(s, st), st.id)
  {
    var t := Apply(s, st);
    var again := Read(st.id, false, false, false);
    NextReadGoesBackIffStepsAhead(s, st, false);
    ReachesItself(t, st.id);
    ReachesItself(Apply(t, again), st.id);
    ReachesFrom(t, again, Apply(t, again), Apply(t, again), st.id);
  }

  lemma InOrderIsNotReadBack(s: State, id: int)
    requires Invariant(s, id)
    ensures !CanReadBack(s, id)
  {
    forall t, u | Reaches(s, t, id) && Reaches(t, u, id) && id in t.returned
      ensures id in u.returned && WorkerDiscipline.Later(t.returned[id], u.returned[id])
    {
      var a :| CanRun(s, a) && Undisturbed(s, a, id) && Final(s, a) == t;
      var b :| CanRun(t, b) && Undisturbed(t, b, id) && Final(t, b) == u;
      InvariantAlong(s, a, id);
      InvariantAlong(t, b, id);
    }
  }

  lemma HarmIsReadBack(s: State, p: WorkerPool.Step, id: int)
    requires Invariant(s, id) && Enabled(s, Pool(p)) && Disturbs(s, Pool(p), id)
    ensures CanReadBack(Apply(s, Pool(p)), id)
  {
    WorkerHarm.HarmTakesBack(s.pool, p, id);
    TakenBackIsReadBack(Apply(s, Pool(p)), id);
  }

  /** Up to now nothing has disturbed the order in which the task is read. Then a step disturbs it exactly when
      afterwards an undisturbed run can have a read go back behind an earlier one. */
  lemma DisturbsIffCanReadBack(s: State, st: Step, id: int)
    requires Reachable(s, id) && Enabled(s, st)
    ensures Disturbs(s, st, id) <==> CanReadBack(Apply(s, st), id)
  {
    ReachableInvariant(s, id);
    if !Disturbs(s, st, id) {
      InvariantAfter(s, st, id);
      InOrderIsNotReadBack(Apply(s, st), id);
    } else if st.Pool? {
      HarmIsReadBack(s, st.st, id);
    } else {
      SteppingAheadIsReadBack(s, st);
    }
  }
}
