/** Theorems that compare whole runs of the token bucket: with and without denied requests, and
    under two configurations. */
module TokenBucketRuns {
  import opened Prelude
  import opened TokenBucket

  /** Decisions of the requests `ts`, starting from bucket b. */
  function Decisions(cfg: Config, b: Option<Bucket>, ts: seq<int>): (ds: seq<bool>)
    ensures |ds| == |ts|
    decreases |ts|
  {
    if ts == [] then [] else
    var found := Refill(cfg, b, ts[0]);
    [HasToken(found)] + Decisions(cfg, Some(Take(found)), ts[1..])
  }

  lemma {:induction false} DecisionsAfter(cfg: Config, ts: seq<int>, k: nat, n: nat)
    requires k <= n < |ts|
    ensures Decisions(cfg, After(cfg, ts, k), ts[k..])[n - k] == Admitted(cfg, ts, n)
    decreases n - k
  {
    var b := After(cfg, ts, k);
    assert ts[k..][0] == ts[k] && ts[k..][1..] == ts[k + 1..];
    if k == n {
    } else {
      DecisionsAfter(cfg, ts, k + 1, n);
      assert After(cfg, ts, k + 1) == Some(Take(Refill(cfg, b, ts[k])));
      assert Decisions(cfg, b, ts[k..])[n - k] == Decisions(cfg, After(cfg, ts, k + 1), ts[k + 1..])[n - k - 1];
    }
  }

  /** From a missing bucket, decision n is whether request n is admitted. */
  lemma DecisionsAreAdmissions(cfg: Config, ts: seq<int>, n: nat)
    requires n < |ts|
    ensures Decisions(cfg, None, ts)[n] == Admitted(cfg, ts, n)
  {
    DecisionsAfter(cfg, ts, 0, n);
    assert ts[0..] == ts;
  }

  // ---------------------------------------------------------------- denied requests

  /** The elements of s marked in `keep`. */
  function Kept<T>(s: seq<T>, keep: seq<bool>): seq<T>
    requires |s| == |keep|
  {
    if s == [] then [] else (if keep[0] then [s[0]] else []) + Kept(s[1..], keep[1..])
  }

  /** Bucket `early` is bucket `late` before some refills that did not reach the cap. */
  predicate Lags(cfg: Config, early: Bucket, late: Bucket) {
    early == late ||
    (early.lastRefill <= late.lastRefill && late.tokens < 1.0 &&
     late.tokens == early.tokens + Earned(cfg, late.lastRefill - early.lastRefill))
  }

  lemma LagsMeansSameDecision(cfg: Config, early: Bucket, late: Bucket, now: int)
    requires cfg.refillRate > 0.0 && cfg.capacity >= 1 && Lags(cfg, early, late)
    ensures var e, l := Refill(cfg, Some(early), now), Refill(cfg, Some(late), now);
            HasToken(e) == HasToken(l) && Lags(cfg, Take(e), Take(l))
  {
    var gap := late.lastRefill - early.lastRefill;
    EarnedAdds(cfg, now - late.lastRefill, gap);
    EarnedAdds(cfg, now - early.lastRefill, late.lastRefill - now);
    if early != late {
      EarnedGrows(cfg, 0, gap);
      if now <= late.lastRefill {
        EarnedGrows(cfg, now - early.lastRefill, gap);
      }
    }
  }

  lemma DeniedRequestLags(cfg: Config, early: Bucket, late: Bucket, now: int)
    requires cfg.refillRate > 0.0 && cfg.capacity >= 1 && Lags(cfg, early, late)
    requires !HasToken(Refill(cfg, Some(late), now))
    ensures Lags(cfg, early, Refill(cfg, Some(late), now))
  {
    if now > late.lastRefill {
      EarnedAdds(cfg, now - late.lastRefill, late.lastRefill - early.lastRefill);
    }
  }

  lemma {:induction false} DroppingFromLaggingRun(
    cfg: Config, early: Bucket, late: Bucket, ts: seq<int>, keep: seq<bool>)
    requires cfg.refillRate > 0.0 && cfg.capacity >= 1 && Lags(cfg, early, late)
    requires |keep| == |ts|
    requires forall i | 0 <= i < |ts| && !keep[i] :: !Decisions(cfg, Some(late), ts)[i]
    ensures Decisions(cfg, Some(early), Kept(ts, keep)) == Kept(Decisions(cfg, Some(late), ts), keep)
    decreases |ts|
  {
    if ts == [] {
    } else {
      var found := Refill(cfg, Some(late), ts[0]);
      var ds := Decisions(cfg, Some(late), ts);
      assert ds[1..] == Decisions(cfg, Some(Take(found)), ts[1..]);
      assert forall i | 0 <= i < |ts| - 1 && !keep[1..][i] :: !keep[i + 1] && !ds[i + 1];
      if keep[0] {
        LagsMeansSameDecision(cfg, early, late, ts[0]);
        var early' := Take(Refill(cfg, Some(early), ts[0]));
        DroppingFromLaggingRun(cfg, early', Take(found), ts[1..], keep[1..]);
        assert Kept(ts, keep)[1..] == Kept(ts[1..], keep[1..]);
      } else {
        assert !ds[0];
        DeniedRequestLags(cfg, early, late, ts[0]);
        DroppingFromLaggingRun(cfg, early, found, ts[1..], keep[1..]);
        assert Kept(ts, keep) == Kept(ts[1..], keep[1..]);
        assert Kept(ds, keep) == Kept(ds[1..], keep[1..]);
      }
    }
  }

  /** A bucket that cannot hold one token never admits. */
  lemma {:induction false} TooSmallDeniesAll(cfg: Config, b: Option<Bucket>, ts: seq<int>)
    requires cfg.capacity < 1
    requires b.Some? ==> b.value.tokens < 1.0
    ensures forall i | 0 <= i < |ts| :: !Decisions(cfg, b, ts)[i]
    decreases |ts|
  {
    if ts == [] {
    } else {
      TooSmallDeniesAll(cfg, Some(Take(Refill(cfg, b, ts[0]))), ts[1..]);
    }
  }

  lemma {:induction false} KeptOfAllFalse(ds: seq<bool>, keep: seq<bool>)
    requires |ds| == |keep| && forall i | 0 <= i < |ds| :: !ds[i]
    ensures forall i | 0 <= i < |Kept(ds, keep)| :: !Kept(ds, keep)[i]
  {
    if ds == [] {
    } else {
      KeptOfAllFalse(ds[1..], keep[1..]);
    }
  }

  lemma {:induction false} KeptLength<S, T>(s: seq<S>, t: seq<T>, keep: seq<bool>)
    requires |s| == |t| == |keep|
    ensures |Kept(s, keep)| == |Kept(t, keep)|
  {
    if s == [] {
    } else {
      KeptLength(s[1..], t[1..], keep[1..]);
    }
  }

  /** Deleting any denied requests from a run changes no other decision. */
  lemma DeniedRequestsLeaveNoTrace(cfg: Config, ts: seq<int>, keep: seq<bool>)
    requires cfg.refillRate > 0.0 && |keep| == |ts|
    requires forall i | 0 <= i < |ts| && !keep[i] :: !Decisions(cfg, None, ts)[i]
    ensures Decisions(cfg, None, Kept(ts, keep)) == Kept(Decisions(cfg, None, ts), keep)
  {
    var ds := Decisions(cfg, None, ts);
    if cfg.capacity < 1 {
      TooSmallDeniesAll(cfg, None, ts);
      TooSmallDeniesAll(cfg, None, Kept(ts, keep));
      KeptOfAllFalse(ds, keep);
      KeptLength(ts, ds, keep);
    } else if ts != [] {
      var first := Take(Refill(cfg, None, ts[0]));
      assert ds[0] && keep[0];
      assert ds[1..] == Decisions(cfg, Some(first), ts[1..]);
      assert forall i | 0 <= i < |ts| - 1 && !keep[1..][i] :: !keep[i + 1] && !ds[i + 1];
      DroppingFromLaggingRun(cfg, first, first, ts[1..], keep[1..]);
      assert Kept(ts, keep)[1..] == Kept(ts[1..], keep[1..]);
    }
  }

  // ---------------------------------------------------------------- larger configurations

  predicate AtMost(small: Config, large: Config) {
    small.capacity <= large.capacity && 0.0 < small.refillRate <= large.refillRate
  }

  lemma EarnsAtMost(small: Config, large: Config, seconds: nat)
    requires AtMost(small, large)
    ensures Earned(small, seconds) <= Earned(large, seconds)
  {
    assert seconds as real * (large.refillRate - small.refillRate) >= 0.0;
  }

  /** The window that has no room for a denied request. */
  lemma FullWindow(cfg: Config, ts: seq<int>, n: nat) returns (i: nat)
    requires n < |ts| && cfg.refillRate > 0.0 && !Admitted(cfg, ts, n)
    ensures i <= n && Room(cfg, ts, i, n) < 1.0
  {
    AdmittedIffEveryWindowHasRoom(cfg, ts, n);
    i :| 0 <= i <= n && Room(cfg, ts, i, n) < 1.0;
  }

  /** After every prefix of the same requests, a configuration with more capacity and more rate has
      admitted at least as many of them. */
  lemma {:induction false} LargerAdmitsAtLeastAsMany(small: Config, large: Config, ts: seq<int>, n: nat)
    requires AtMost(small, large) && n <= |ts|
    ensures Admissions(small, ts, 0, n) <= Admissions(large, ts, 0, n)
  {
    if n == 0 {
    } else {
      LargerAdmitsAtLeastAsMany(small, large, ts, n - 1);
      var m := n - 1;
      if Admitted(small, ts, m) && !Admitted(large, ts, m) {
        var i := FullWindow(large, ts, m);
        LargerAdmitsAtLeastAsMany(small, large, ts, i);
        AdmittedIffEveryWindowHasRoom(small, ts, m);
        assert Room(small, ts, i, m) >= 1.0;
        LatestGrows(ts, i, m);
        EarnsAtMost(small, large, Latest(ts, m) - Latest(ts, i));
        AdmissionsSplit(small, ts, 0, i, m);
        AdmissionsSplit(large, ts, 0, i, m);
      }
    }
  }

  /** Yet the larger configuration may hold fewer tokens at the same instant: it has just spent one
      on a request that the smaller one denied. */
  lemma LargerMayHoldFewerTokens()
    ensures var small, large, ts := Config(1, 0.9), Config(1, 1.0), [0, 1, 1];
            AtMost(small, large) && Found(small, ts, 2).tokens > Found(large, ts, 2).tokens
  {
    var small, large, ts := Config(1, 0.9), Config(1, 1.0), [0, 1, 1];
    assert After(small, ts, 1) == Some(Bucket(0.0, 0));
    assert After(small, ts, 2) == Some(Bucket(0.9, 1));
    assert After(large, ts, 1) == Some(Bucket(0.0, 0));
    assert After(large, ts, 2) == Some(Bucket(0.0, 1));
  }

  // ---------------------------------------------------------------- waiting for a token

  lemma CeilIsLeast(x: real, n: int)
    ensures n >= Ceil(x) <==> n as real >= x
  {
    assert (-x).Floor as real <= -x < (-x).Floor as real + 1.0;
  }

  lemma OneTokenEarned(cfg: Config, seconds: int)
    requires cfg.refillRate > 0.0
    ensures Earned(cfg, seconds) >= 1.0 <==> seconds as real >= 1.0 / cfg.refillRate
  {
    var wait := 1.0 / cfg.refillRate;
    assert wait * cfg.refillRate == 1.0;
    if seconds as real >= wait {
      assert (seconds as real - wait) * cfg.refillRate >= 0.0;
    } else {
      assert (wait - seconds as real) * cfg.refillRate > 0.0;
    }
  }

  /** Every bucket that is not overdrawn holds a token once the readings have gone up by `seconds` exactly
      when `seconds` are at least the whole seconds that one token takes. */
  lemma WaitSufficesIffTokenEarned(cfg: Config, seconds: nat)
    requires cfg.capacity >= 1 && cfg.refillRate > 0.0
    ensures (forall b: Bucket | b.tokens >= 0.0 :: HasToken(Refill(cfg, Some(b), b.lastRefill + seconds))) <==>
            seconds >= Ceil(1.0 / cfg.refillRate)
  {
    CeilIsLeast(1.0 / cfg.refillRate, seconds);
    OneTokenEarned(cfg, seconds);
    assert Earned(cfg, 0) == 0.0;
    forall b: Bucket | b.tokens >= 0.0 && Earned(cfg, seconds) >= 1.0
      ensures HasToken(Refill(cfg, Some(b), b.lastRefill + seconds))
    {
      assert b.lastRefill + seconds - b.lastRefill == seconds;
    }
    assert Earned(cfg, seconds) < 1.0 ==> !HasToken(Refill(cfg, Some(Bucket(0.0, 0)), 0 + seconds));
  }

  /** No run overdraws a bucket, so the theorem above is about every bucket that a run leaves. */
  lemma {:induction false} NeverOverdrawn(cfg: Config, ts: seq<int>, n: nat)
    requires n < |ts| && cfg.refillRate > 0.0 && cfg.capacity >= 0
    ensures After(cfg, ts, n + 1).value.tokens >= 0.0
  {
    if n == 0 {
    } else {
      NeverOverdrawn(cfg, ts, n - 1);
      var last := After(cfg, ts, n).value.lastRefill;
      if ts[n] > last {
        EarnedGrows(cfg, 0, ts[n] - last);
      }
    }
  }
}
