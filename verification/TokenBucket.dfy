/** The token bucket as the Lua script computes it, over a key that never expires: what one
    request does, what a sequence of requests does, and the closed form of the token level.

    A run is a sequence `ts` of clock readings, one for each request, in the order in which the
    script executed them. Nothing is assumed about their order in time. */
module TokenBucket {
  import opened Prelude

  datatype Config = Config(capacity: int, refillRate: real)

  datatype Bucket = Bucket(tokens: real, lastRefill: int)

  /** Tokens earned in `seconds`. */
  function Earned(cfg: Config, seconds: int): real {
    seconds as real * cfg.refillRate
  }

  /** Initialise a missing bucket to full, then refill with a cap; the time of the last refill
      never moves backwards. */
  function Refill(cfg: Config, b: Option<Bucket>, now: int): Bucket {
    match b
    case None => Bucket(cfg.capacity as real, now)
    case Some(Bucket(tokens, last)) =>
      if now > last
      then Bucket(Min(cfg.capacity as real, tokens + Earned(cfg, now - last)), now)
      else Bucket(tokens, last)
  }

  predicate HasToken(b: Bucket) {
    b.tokens >= 1.0
  }

  function Take(b: Bucket): Bucket {
    if HasToken(b) then b.(tokens := b.tokens - 1.0) else b
  }

  /** Bucket after the first n requests. */
  function After(cfg: Config, ts: seq<int>, n: nat): Option<Bucket>
    requires n <= |ts|
  {
    if n == 0 then None else Some(Take(Refill(cfg, After(cfg, ts, n - 1), ts[n - 1])))
  }

  /** Bucket that request n finds, refilled. */
  function Found(cfg: Config, ts: seq<int>, n: nat): Bucket
    requires n < |ts|
  {
    Refill(cfg, After(cfg, ts, n), ts[n])
  }

  predicate Admitted(cfg: Config, ts: seq<int>, n: nat)
    requires n < |ts|
  {
    HasToken(Found(cfg, ts, n))
  }

  /** Number of admitted requests among i, ..., j-1. */
  function Admissions(cfg: Config, ts: seq<int>, i: nat, j: nat): (count: nat)
    requires i <= j <= |ts|
    ensures count <= j - i
  {
    if i == j then 0 else Admissions(cfg, ts, i, j - 1) + if Admitted(cfg, ts, j - 1) then 1 else 0
  }

  /** Latest clock reading among requests 0, ..., n. */
  function Latest(ts: seq<int>, n: nat): int
    requires n < |ts|
  {
    if n == 0 then ts[0] else Max(Latest(ts, n - 1), ts[n])
  }

  /** What the window that opens with request i still leaves to request n. */
  function Room(cfg: Config, ts: seq<int>, i: nat, n: nat): real
    requires i <= n < |ts|
  {
    cfg.capacity as real + Earned(cfg, Latest(ts, n) - Latest(ts, i)) - Admissions(cfg, ts, i, n) as real
  }

  lemma EarnedAdds(cfg: Config, a: int, b: int)
    ensures Earned(cfg, a + b) == Earned(cfg, a) + Earned(cfg, b)
  {
    assert (a + b) as real == a as real + b as real;
  }

  lemma EarnedGrows(cfg: Config, a: int, b: int)
    requires cfg.refillRate > 0.0 && a <= b
    ensures Earned(cfg, a) <= Earned(cfg, b)
  {
    var d := (b - a) as real;
    assert d >= 0.0 && d * cfg.refillRate >= 0.0;
    EarnedAdds(cfg, a, b - a);
  }

  lemma {:induction false} LatestGrows(ts: seq<int>, i: nat, n: nat)
    requires i <= n < |ts|
    ensures Latest(ts, i) <= Latest(ts, n)
  {
    if i == n {
    } else {
      LatestGrows(ts, i, n - 1);
    }
  }

  /** The level of a bucket is never above its capacity, and its refill time is the latest clock
      reading seen. */
  lemma {:induction false} AfterShape(cfg: Config, ts: seq<int>, n: nat)
    requires n < |ts|
    ensures Found(cfg, ts, n).lastRefill == Latest(ts, n)
    ensures Found(cfg, ts, n).tokens <= cfg.capacity as real
  {
    if n == 0 {
    } else {
      AfterShape(cfg, ts, n - 1);
    }
  }

  /** A request finds min over i <= n of Room(i, n) tokens: no window leaves less, and one window
      leaves exactly that. */
  lemma {:induction false} ClosedForm(cfg: Config, ts: seq<int>, n: nat)
    requires n < |ts| && cfg.refillRate > 0.0
    ensures forall i | 0 <= i <= n :: Found(cfg, ts, n).tokens <= Room(cfg, ts, i, n)
    ensures exists i :: 0 <= i <= n && Found(cfg, ts, n).tokens == Room(cfg, ts, i, n)
  {
    if n == 0 {
      assert Found(cfg, ts, 0).tokens == Room(cfg, ts, 0, 0);
    } else {
      ClosedForm(cfg, ts, n - 1);
      AfterShape(cfg, ts, n - 1);
      AfterShape(cfg, ts, n);
      forall i | 0 <= i < n
        ensures Room(cfg, ts, i, n) == Room(cfg, ts, i, n - 1) - (if Admitted(cfg, ts, n - 1) then 1.0 else 0.0)
                                       + Earned(cfg, Latest(ts, n) - Latest(ts, n - 1))
      {
        EarnedAdds(cfg, Latest(ts, n - 1) - Latest(ts, i), Latest(ts, n) - Latest(ts, n - 1));
      }
      assert Earned(cfg, 0) == 0.0;
      assert Room(cfg, ts, n, n) == cfg.capacity as real;
      var k :| 0 <= k <= n - 1 && Found(cfg, ts, n - 1).tokens == Room(cfg, ts, k, n - 1);
      assert Found(cfg, ts, n).tokens == Room(cfg, ts, n, n) || Found(cfg, ts, n).tokens == Room(cfg, ts, k, n);
    }
  }

  /** A request is admitted exactly when every window that ends with it has room for one more. */
  lemma AdmittedIffEveryWindowHasRoom(cfg: Config, ts: seq<int>, n: nat)
    requires n < |ts| && cfg.refillRate > 0.0
    ensures Admitted(cfg, ts, n) <==> forall i | 0 <= i <= n :: Room(cfg, ts, i, n) >= 1.0
  {
    ClosedForm(cfg, ts, n);
  }

  lemma RoomStep(cfg: Config, ts: seq<int>, i: nat, n: nat)
    requires i < n < |ts| && cfg.refillRate > 0.0
    ensures Room(cfg, ts, i, n) >= Room(cfg, ts, i, n - 1) - if Admitted(cfg, ts, n - 1) then 1.0 else 0.0
  {
    EarnedGrows(cfg, Latest(ts, n - 1) - Latest(ts, i), Latest(ts, n) - Latest(ts, i));
  }

  lemma {:induction false} RoomNeverOverspent(cfg: Config, ts: seq<int>, i: nat, n: nat)
    requires i <= n < |ts| && cfg.refillRate > 0.0 && cfg.capacity >= 0
    ensures Room(cfg, ts, i, n) >= if Admitted(cfg, ts, n) then 1.0 else 0.0
  {
    if Admitted(cfg, ts, n) {
      AdmittedIffEveryWindowHasRoom(cfg, ts, n);
    } else if i < n {
      RoomNeverOverspent(cfg, ts, i, n - 1);
      RoomStep(cfg, ts, i, n);
    } else {
      assert Earned(cfg, 0) == 0.0;
    }
  }

  /** Every contiguous block i, ..., n admits at most the capacity plus what time earned. */
  lemma BlockBound(cfg: Config, ts: seq<int>, i: nat, n: nat)
    requires i <= n < |ts| && cfg.refillRate > 0.0 && cfg.capacity >= 0
    ensures Admissions(cfg, ts, i, n + 1) as real <= cfg.capacity as real + Earned(cfg, Latest(ts, n) - Latest(ts, i))
  {
    RoomNeverOverspent(cfg, ts, i, n);
  }

  /** What the window that opens with request i holds for n - i + 1 requests, were all admitted. */
  predicate FitsWindow(cfg: Config, ts: seq<int>, i: nat, n: nat)
    requires i <= n < |ts|
  {
    (n - i + 1) as real <= cfg.capacity as real + Earned(cfg, Latest(ts, n) - Latest(ts, i))
  }

  /** The requests themselves, admitted or not, fit into every window. */
  ghost predicate Conforms(cfg: Config, ts: seq<int>) {
    forall i, n | 0 <= i <= n < |ts| :: FitsWindow(cfg, ts, i, n)
  }

  lemma {:induction false} AllAdmitted(cfg: Config, ts: seq<int>, i: nat, n: nat)
    requires i <= n <= |ts|
    requires forall k | i <= k < n :: Admitted(cfg, ts, k)
    ensures Admissions(cfg, ts, i, n) == n - i
  {
    if i == n {
    } else {
      AllAdmitted(cfg, ts, i, n - 1);
    }
  }

  /** No request of a run is denied exactly when the run conforms. */
  lemma NeverDeniedIffConforms(cfg: Config, ts: seq<int>)
    requires cfg.refillRate > 0.0
    ensures (forall n | 0 <= n < |ts| :: Admitted(cfg, ts, n)) <==> Conforms(cfg, ts)
  {
    if Conforms(cfg, ts) {
      forall n | 0 <= n < |ts| ensures Admitted(cfg, ts, n) {
        forall i | 0 <= i <= n ensures Room(cfg, ts, i, n) >= 1.0 {
          assert FitsWindow(cfg, ts, i, n);
        }
        AdmittedIffEveryWindowHasRoom(cfg, ts, n);
      }
    }
    if forall n | 0 <= n < |ts| :: Admitted(cfg, ts, n) {
      forall i, n | 0 <= i <= n < |ts| ensures FitsWindow(cfg, ts, i, n) {
        AdmittedIffEveryWindowHasRoom(cfg, ts, n);
        assert Room(cfg, ts, i, n) >= 1.0;
        AllAdmitted(cfg, ts, i, n);
      }
    }
  }

  /** Of a burst at one instant, a fresh bucket admits exactly the first `capacity` requests. */
  lemma {:induction false} BurstAdmitsCapacity(cfg: Config, ts: seq<int>, n: nat)
    requires n < |ts| && cfg.capacity >= 0 && forall i, j | 0 <= i < j < |ts| :: ts[i] == ts[j]
    ensures Found(cfg, ts, n) == Bucket((if n <= cfg.capacity then cfg.capacity - n else 0) as real, ts[0])
    ensures Admitted(cfg, ts, n) <==> n < cfg.capacity
  {
    if n == 0 {
    } else {
      BurstAdmitsCapacity(cfg, ts, n - 1);
    }
  }

  lemma {:induction false} AdmissionsSplit(cfg: Config, ts: seq<int>, i: nat, k: nat, n: nat)
    requires i <= k <= n <= |ts|
    ensures Admissions(cfg, ts, i, n) == Admissions(cfg, ts, i, k) + Admissions(cfg, ts, k, n)
  {
    if k == n {
    } else {
      AdmissionsSplit(cfg, ts, i, k, n - 1);
    }
  }
}
