/** Putting runs of the pool together. */
module WorkerRuns {
  import opened WorkerPool

  lemma RunCons(s: State, st: Step, rest: seq<Step>)
    requires Enabled(s, st) && CanRun(Apply(s, st), rest)
    ensures CanRun(s, [st] + rest) && Final(s, [st] + rest) == Final(Apply(s, st), rest)
  {
    assert ([st] + rest)[1..] == rest;
  }

  lemma {:induction false} Joined(s: State, a: seq<Step>, b: seq<Step>)
    requires CanRun(s, a) && CanRun(Final(s, a), b)
    ensures CanRun(s, a + b) && Final(s, a + b) == Final(Final(s, a), b)
    decreases |a|
  {
    if a == [] {
      assert a + b == b;
    } else {
      assert (a + b)[1..] == a[1..] + b;
      Joined(Apply(s, a[0]), a[1..], b);
    }
  }

  lemma RunKeepsReachable(s: State, steps: seq<Step>)
    requires CanRun(s, steps)
    ensures Reachable(s) ==> Reachable(Final(s, steps))
  {
    if Reachable(s) {
      var workers: nat, printable, before :|
        CanRun(Start(workers, printable), before) && Final(Start(workers, printable), before) == s;
      Joined(Start(workers, printable), before, steps);
    }
  }

  lemma OneStep(s: State, st: Step)
    requires Enabled(s, st)
    ensures CanRun(s, [st]) && Final(s, [st]) == Apply(s, st)
  {
    assert [st][1..] == [];
    assert CanRun(Apply(s, st), []);
  }

  lemma TwoSteps(s: State, a: Step, b: Step)
    requires Enabled(s, a) && Enabled(Apply(s, a), b)
    ensures CanRun(s, [a, b]) && Final(s, [a, b]) == Apply(Apply(s, a), b)
  {
    assert [a, b][1..] == [b];
    OneStep(Apply(s, a), b);
  }

  lemma ReachableStep(s: State, st: Step)
    requires Reachable(s) && Enabled(s, st)
    ensures Reachable(Apply(s, st))
  {
    OneStep(s, st);
    RunKeepsReachable(s, [st]);
  }

  lemma ReachableStart(workers: nat, printable: char -> bool)
    ensures Reachable(Start(workers, printable))
  {
    assert CanRun(Start(workers, printable), []) && Final(Start(workers, printable), []) == Start(workers, printable);
  }
}
