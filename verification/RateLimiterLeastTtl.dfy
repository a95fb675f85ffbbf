/** The expiry that the script sets, ceil(capacity / rate) seconds, is the shortest one that no run on one
    clock can see. */
module RateLimiterLeastTtl {
  import opened Prelude
  import opened RateLimiterTtl
  import opened RedisStore
  import opened TokenBucket
  import opened TokenBucketRuns

  /** Decisions of a store that forgets a bucket `ttl` seconds after it was last written. */
  function ForgetfulDecisions(cfg: Config, ttl: int, b: Option<Bucket>, written: int, rs: seq<Request>): (ds: seq<bool>)
    ensures |ds| == |rs|
    decreases |rs|
  {
    if rs == [] then [] else
    var kept := if rs[0].at > written + 1000 * ttl then None else b;
    var found := Refill(cfg, kept, rs[0].now);
    [HasToken(found)] + ForgetfulDecisions(cfg, ttl, Some(Take(found)), rs[0].at, rs[1..])
  }

  /** The script is such a store. */
  lemma {:induction false} ScriptForgets<V>(cfg: Config, b: Option<Bucket>, written: int, rs: seq<Request>)
    requires cfg.refillRate > 0.0 && cfg.capacity >= 1
    ensures forall i | 0 <= i < |rs| ::
      Replies<V>(cfg, Stored(cfg, b, written), rs)[i] == Shown(ForgetfulDecisions(cfg, Ttl(cfg), b, written, rs)[i])
    decreases |rs|
  {
    if rs == [] {
    } else {
      TtlRefillsFully(cfg, Ttl(cfg));
      var kept := if rs[0].at > written + 1000 * Ttl(cfg) then None else b;
      var found := Refill(cfg, kept, rs[0].now);
      assert ScriptStep<V>(cfg, Stored(cfg, b, written), rs[0].now, rs[0].at) ==
             (Stored(cfg, Some(Take(found)), rs[0].at), Shown(HasToken(found)));
      ScriptForgets<V>(cfg, Some(Take(found)), rs[0].at, rs[1..]);
    }
  }

  // ---------------------------------------------------------------- long enough

  /** A bucket left on one clock by a request at `written`. */
  predicate LeftAt(cfg: Config, b: Option<Bucket>, written: int) {
    b.Some? ==> 0.0 <= b.value.tokens < cfg.capacity as real && b.value.lastRefill == written / 1000
  }

  lemma ForgettingFindsFull(cfg: Config, ttl: int, b: Bucket, written: int, r: Request)
    requires cfg.refillRate > 0.0 && cfg.capacity >= 1 && ttl >= Ttl(cfg) && LeftAt(cfg, Some(b), written)
    requires r.now == r.at / 1000 && r.at > written + 1000 * ttl
    ensures Refill(cfg, None, r.now) == Refill(cfg, Some(b), r.now)
  {
    assert r.now - b.lastRefill >= ttl;
    TtlRefillsFully(cfg, r.now - b.lastRefill);
    FullAfterRefillIsFresh(cfg, b, r.now);
  }

  lemma LeftOnOneClock(cfg: Config, b: Option<Bucket>, written: int, r: Request)
    requires cfg.refillRate > 0.0 && cfg.capacity >= 1 && LeftAt(cfg, b, written)
    requires r.now == r.at / 1000 && (b.Some? ==> written <= r.at)
    ensures LeftAt(cfg, Some(Take(Refill(cfg, b, r.now))), r.at)
  {
    if b.Some? && r.now > b.value.lastRefill {
      EarnedGrows(cfg, 0, r.now - b.value.lastRefill);
    }
  }

  lemma {:induction false} LongTtlIsInvisible(cfg: Config, ttl: int, b: Option<Bucket>, written: int, rs: seq<Request>)
    requires cfg.refillRate > 0.0 && cfg.capacity >= 1 && ttl >= Ttl(cfg) && LeftAt(cfg, b, written)
    requires OneClock(rs) && (b.Some? ==> forall r | r in rs :: written <= r.at)
    ensures ForgetfulDecisions(cfg, ttl, b, written, rs) == Decisions(cfg, b, Readings(rs))
    decreases |rs|
  {
    if rs == [] {
    } else {
      assert rs[0] in rs;
      if b.Some? && rs[0].at > written + 1000 * ttl {
        ForgettingFindsFull(cfg, ttl, b.value, written, rs[0]);
      }
      LeftOnOneClock(cfg, b, written, rs[0]);
      OneClockRest(rs);
      assert Readings(rs)[1..] == Readings(rs[1..]);
      LongTtlIsInvisible(cfg, ttl, Some(Take(Refill(cfg, b, rs[0].now))), rs[0].at, rs[1..]);
    }
  }

  // ---------------------------------------------------------------- too short

  lemma {:induction false} NothingForgottenInBurst(cfg: Config, ttl: nat, b: Option<Bucket>, r: Request, n: nat)
    ensures ForgetfulDecisions(cfg, ttl, b, r.at, Burst(r, n)) == Decisions(cfg, b, seq(n, _ => r.now))
    decreases n
  {
    if n == 0 {
    } else {
      assert Burst(r, n)[1..] == Burst(r, n - 1) && seq(n, _ => r.now)[1..] == seq(n - 1, _ => r.now);
      NothingForgottenInBurst(cfg, ttl, Some(Take(Refill(cfg, b, r.now))), r, n - 1);
    }
  }

  /** After n requests at the start of time a bucket with n tokens is empty. */
  lemma {:induction false} DrainedThen(cfg: Config, ttl: nat, n: nat, rest: seq<Request>)
    requires var rs := Burst(Request(0, 0), n) + rest;
      ForgetfulDecisions(cfg, ttl, Some(Bucket(n as real, 0)), 0, rs) ==
      Decisions(cfg, Some(Bucket(n as real, 0)), Readings(rs))
    ensures ForgetfulDecisions(cfg, ttl, Some(Bucket(0.0, 0)), 0, rest) ==
            Decisions(cfg, Some(Bucket(0.0, 0)), Readings(rest))
    decreases n
  {
    var rs := Burst(Request(0, 0), n) + rest;
    if n == 0 {
      assert rs == rest;
    } else {
      var less := Burst(Request(0, 0), n - 1) + rest;
      assert rs[0] == Request(0, 0) && rs[1..] == less && Readings(rs)[1..] == Readings(less);
      var b, c := Bucket(n as real, 0), Bucket((n - 1) as real, 0);
      assert Take(Refill(cfg, Some(b), 0)) == c;
      assert ForgetfulDecisions(cfg, ttl, Some(b), 0, rs)[1..] == ForgetfulDecisions(cfg, ttl, Some(c), 0, less);
      assert Decisions(cfg, Some(b), Readings(rs))[1..] == Decisions(cfg, Some(c), Readings(less));
      DrainedThen(cfg, ttl, n - 1, rest);
    }
  }

  lemma EmptyBucketNotRefilled(cfg: Config, ttl: nat)
    requires cfg.refillRate > 0.0 && cfg.capacity >= 1 && ttl < Ttl(cfg)
    ensures Earned(cfg, ttl) < cfg.capacity as real
  {
    var ratio := cfg.capacity as real / cfg.refillRate;
    CeilIsLeast(ratio, ttl);
    assert ratio * cfg.refillRate == cfg.capacity as real;
    assert (ratio - ttl as real) * cfg.refillRate > 0.0;
  }

  /** A burst that drains a new bucket, and another one just after the store has forgotten it. */
  function TwoBursts(cfg: Config, ttl: nat): seq<Request>
    requires cfg.capacity >= 1
  {
    Burst(Request(0, 0), cfg.capacity) + Burst(Request(ttl, 1000 * ttl + 1), cfg.capacity)
  }

  lemma SecondBurstDiffers(cfg: Config, ttl: nat)
    requires cfg.refillRate > 0.0 && cfg.capacity >= 1 && ttl < Ttl(cfg)
    ensures var rest := Burst(Request(ttl, 1000 * ttl + 1), cfg.capacity);
      ForgetfulDecisions(cfg, ttl, Some(Bucket(0.0, 0)), 0, rest) !=
      Decisions(cfg, Some(Bucket(0.0, 0)), Readings(rest))
  {
    var n, r, empty := cfg.capacity, Request(ttl, 1000 * ttl + 1), Bucket(0.0, 0);
    EmptyBucketNotRefilled(cfg, ttl);
    BurstTellsBucketsApart(cfg, empty, ttl);
    assert Readings(Burst(r, n)) == seq(n, _ => ttl);
    NothingForgottenInBurst(cfg, ttl, None, r, n);
    assert ForgetfulDecisions(cfg, ttl, Some(empty), 0, Burst(r, n)) ==
           ForgetfulDecisions(cfg, ttl, None, r.at, Burst(r, n));
  }

  lemma ShortTtlIsVisible(cfg: Config, ttl: nat)
    requires cfg.refillRate > 0.0 && cfg.capacity >= 1 && ttl < Ttl(cfg)
    ensures var rs := TwoBursts(cfg, ttl);
      OneClock(rs) && ForgetfulDecisions(cfg, ttl, None, 0, rs) != Decisions(cfg, None, Readings(rs))
  {
    var rs := TwoBursts(cfg, ttl);
    var full := Bucket(cfg.capacity as real, 0);
    SecondBurstDiffers(cfg, ttl);
    assert rs[0] == Request(0, 0) && Refill(cfg, None, 0) == Refill(cfg, Some(full), 0);
    assert ForgetfulDecisions(cfg, ttl, None, 0, rs) == ForgetfulDecisions(cfg, ttl, Some(full), 0, rs);
    assert Decisions(cfg, None, Readings(rs)) == Decisions(cfg, Some(full), Readings(rs));
    if ForgetfulDecisions(cfg, ttl, None, 0, rs) == Decisions(cfg, None, Readings(rs)) {
      DrainedThen(cfg, ttl, cfg.capacity, Burst(Request(ttl, 1000 * ttl + 1), cfg.capacity));
    }
  }

  /** Forgetting after `ttl` seconds is invisible in all runs on one clock exactly when `ttl` is at least what the
      script sets. */
  lemma ScriptTtlIsLeast(cfg: Config, ttl: nat)
    requires cfg.refillRate > 0.0 && cfg.capacity >= 1
    ensures
      (forall rs | OneClock(rs) :: ForgetfulDecisions(cfg, ttl, None, 0, rs) == Decisions(cfg, None, Readings(rs)))
      <==> ttl >= Ttl(cfg)
  {
    if ttl >= Ttl(cfg) {
      forall rs | OneClock(rs)
        ensures ForgetfulDecisions(cfg, ttl, None, 0, rs) == Decisions(cfg, None, Readings(rs))
      {
        LongTtlIsInvisible(cfg, ttl, None, 0, rs);
      }
    } else {
      ShortTtlIsVisible(cfg, ttl);
    }
  }
}
