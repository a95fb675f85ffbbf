/** The expiry of a bucket: exactly which runs it changes no decision of, whatever the clock readings of
    the requests and the instants at which the script executes. */
module RateLimiterTtl {
  import opened Prelude
  import opened TokenBucket
  import opened TokenBucketRuns
  import opened RedisStore

  /** `now` is the clock reading in seconds that a request carries, `at` the millisecond at which
      Redis runs the script for it. */
  datatype Request = Request(now: int, at: int)

  /** Replies to a run of requests on one key, starting from value v. */
  function Replies<V>(cfg: Config, v: Option<Value<V>>, rs: seq<Request>): (replies: seq<Reply>)
    ensures |replies| == |rs|
    decreases |rs|
  {
    if rs == [] then [] else
    var (next, reply) := ScriptStep(cfg, v, rs[0].now, rs[0].at);
    [reply] + Replies(cfg, next, rs[1..])
  }

  function Readings(rs: seq<Request>): (ts: seq<int>)
    ensures |ts| == |rs|
    ensures forall i | 0 <= i < |rs| :: ts[i] == rs[i].now
  {
    seq(|rs|, i requires 0 <= i < |rs| => rs[i].now)
  }

  function Shown(admitted: bool): Reply {
    if admitted then Allowed else Denied
  }

  /** What Redis holds after a request at `written` has left bucket b behind. */
  function Stored<V>(cfg: Config, b: Option<Bucket>, written: int): Option<Value<V>>
    requires cfg.refillRate != 0.0
  {
    if b.None? then None else Some(Hash(b.value, Some(written + 1000 * Ttl(cfg))))
  }

  /** A store that lets the key expire replies to every request as one that never does decides. */
  ghost predicate Invisible<V>(cfg: Config, b: Option<Bucket>, written: int, rs: seq<Request>)
    requires cfg.refillRate != 0.0
  {
    forall i | 0 <= i < |rs| ::
      Replies<V>(cfg, Stored(cfg, b, written), rs)[i] == Shown(Decisions(cfg, b, Readings(rs))[i])
  }

  /** A request that comes after the expiry finds time enough to have refilled the bucket. */
  predicate ExpiryFindsFull(cfg: Config, b: Option<Bucket>, written: int, r: Request)
    requires cfg.refillRate != 0.0
  {
    b.Some? && r.at > written + 1000 * Ttl(cfg) ==>
      b.value.tokens + Earned(cfg, r.now - b.value.lastRefill) >= cfg.capacity as real
  }

  /** Every request of the run does. */
  predicate ExpiriesFindFull(cfg: Config, b: Option<Bucket>, written: int, rs: seq<Request>)
    requires cfg.refillRate != 0.0
    decreases |rs|
  {
    rs == [] ||
    (ExpiryFindsFull(cfg, b, written, rs[0]) &&
     ExpiriesFindFull(cfg, Some(Take(Refill(cfg, b, rs[0].now))), rs[0].at, rs[1..]))
  }

  predicate NotFull(cfg: Config, b: Option<Bucket>) {
    b.Some? ==> b.value.tokens < cfg.capacity as real
  }

  /** No request leaves a bucket full behind. */
  lemma StoredBucketIsNotFull(cfg: Config, b: Option<Bucket>, now: int)
    requires cfg.capacity >= 1 && (b.Some? ==> b.value.tokens <= cfg.capacity as real)
    ensures NotFull(cfg, Some(Take(Refill(cfg, b, now))))
  {
  }

  lemma TtlRefillsFully(cfg: Config, seconds: int)
    requires cfg.refillRate > 0.0 && cfg.capacity >= 1 && seconds >= Ttl(cfg)
    ensures Ttl(cfg) >= 1
    ensures Earned(cfg, seconds) >= cfg.capacity as real
  {
    var ratio := cfg.capacity as real / cfg.refillRate;
    assert ratio * cfg.refillRate == cfg.capacity as real;
    assert ratio > 0.0;
    assert Ttl(cfg) as real >= ratio;
    assert (Ttl(cfg) as real - ratio) * cfg.refillRate >= 0.0;
    EarnedGrows(cfg, Ttl(cfg), seconds);
  }

  /** Of n requests at one instant, a bucket that this instant does not refill admits the first
      floor(tokens). */
  lemma {:induction false} BurstFrom(cfg: Config, b: Bucket, now: int, n: nat, i: nat)
    requires now <= b.lastRefill && i < n
    ensures Decisions(cfg, Some(b), seq(n, _ => now))[i] <==> b.tokens >= (i + 1) as real
    decreases n
  {
    var ts := seq(n, _ => now);
    assert ts[1..] == seq(n - 1, _ => now);
    if i == 0 {
    } else {
      BurstFrom(cfg, Take(b), now, n - 1, i - 1);
    }
  }

  lemma FullAfterRefillIsFresh(cfg: Config, b: Bucket, now: int)
    requires b.tokens < cfg.capacity as real && cfg.refillRate > 0.0
    ensures Refill(cfg, Some(b), now) == Refill(cfg, None, now) <==>
            b.tokens + Earned(cfg, now - b.lastRefill) >= cfg.capacity as real
  {
    if now <= b.lastRefill {
      EarnedGrows(cfg, now - b.lastRefill, 0);
    }
  }

  lemma BurstTellsBucketsApart(cfg: Config, b: Bucket, now: int)
    requires b.tokens < cfg.capacity as real && cfg.refillRate > 0.0 && cfg.capacity >= 1
    requires b.tokens + Earned(cfg, now - b.lastRefill) < cfg.capacity as real
    ensures var ts := seq(cfg.capacity, _ => now); Decisions(cfg, None, ts) != Decisions(cfg, Some(b), ts)
  {
    var n := cfg.capacity;
    var ts := seq(n, _ => now);
    var full, partly := Refill(cfg, None, now), Refill(cfg, Some(b), now);
    assert Refill(cfg, Some(full), now) == full && Refill(cfg, Some(partly), now) == partly;
    assert Decisions(cfg, None, ts) == Decisions(cfg, Some(full), ts);
    assert Decisions(cfg, Some(b), ts) == Decisions(cfg, Some(partly), ts);
    BurstFrom(cfg, full, now, n, n - 1);
    BurstFrom(cfg, partly, now, n, n - 1);
  }

  // ---------------------------------------------------------------- exactly when the expiry shows

  lemma ScriptStepIsUnaffected<V>(cfg: Config, b: Option<Bucket>, written: int, r: Request)
    requires cfg.refillRate > 0.0 && cfg.capacity >= 1 && NotFull(cfg, b) && ExpiryFindsFull(cfg, b, written, r)
    ensures var found := Refill(cfg, b, r.now);
      ScriptStep<V>(cfg, Stored(cfg, b, written), r.now, r.at) ==
      (Stored(cfg, Some(Take(found)), r.at), Shown(HasToken(found)))
  {
    TtlRefillsFully(cfg, Ttl(cfg));
    if b.Some? {
      FullAfterRefillIsFresh(cfg, b.value, r.now);
    }
  }

  lemma {:induction false} RefilledMeansInvisible<V>(cfg: Config, b: Option<Bucket>, written: int, rs: seq<Request>)
    requires cfg.refillRate > 0.0 && cfg.capacity >= 1 && NotFull(cfg, b)
    requires ExpiriesFindFull(cfg, b, written, rs)
    ensures Invisible<V>(cfg, b, written, rs)
    decreases |rs|
  {
    if rs == [] {
    } else {
      ScriptStepIsUnaffected<V>(cfg, b, written, rs[0]);
      assert Readings(rs)[1..] == Readings(rs[1..]);
      RefilledMeansInvisible<V>(cfg, Some(Take(Refill(cfg, b, rs[0].now))), rs[0].at, rs[1..]);
    }
  }

  function Burst(r: Request, n: nat): seq<Request> {
    seq(n, _ => r)
  }

  /** The first k requests, and then n copies of the next one. */
  function Replayed(rs: seq<Request>, k: nat, n: nat): seq<Request>
    requires k < |rs|
  {
    rs[..k] + Burst(rs[k], n)
  }

  lemma {:induction false} NoExpiryWithinBurst(cfg: Config, b: Bucket, r: Request, n: nat)
    requires cfg.refillRate > 0.0 && cfg.capacity >= 1
    ensures ExpiriesFindFull(cfg, Some(b), r.at, Burst(r, n))
    decreases n
  {
    if n == 0 {
    } else {
      TtlRefillsFully(cfg, Ttl(cfg));
      assert Burst(r, n)[1..] == Burst(r, n - 1);
      NoExpiryWithinBurst(cfg, Take(Refill(cfg, Some(b), r.now)), r, n - 1);
    }
  }

  lemma BurstExpiresAtMostOnce(cfg: Config, b: Option<Bucket>, written: int, r: Request, n: nat)
    requires cfg.refillRate > 0.0 && cfg.capacity >= 1 && ExpiryFindsFull(cfg, b, written, r)
    ensures ExpiriesFindFull(cfg, b, written, Burst(r, n))
  {
    if n > 0 {
      assert Burst(r, n)[1..] == Burst(r, n - 1);
      NoExpiryWithinBurst(cfg, Take(Refill(cfg, b, r.now)), r, n - 1);
    }
  }

  lemma ReplayedRest(rs: seq<Request>, k: nat, n: nat)
    requires 0 < k < |rs|
    ensures Replayed(rs, k, n) != [] && Replayed(rs, k, n)[0] == rs[0]
    ensures Replayed(rs, k, n)[1..] == Replayed(rs[1..], k - 1, n)
  {
    assert rs[1..][..k - 1] == rs[..k][1..];
  }

  lemma {:induction false} ReplayingStaysRefilled(
    cfg: Config, b: Option<Bucket>, written: int, rs: seq<Request>, k: nat, n: nat)
    requires cfg.refillRate > 0.0 && cfg.capacity >= 1 && ExpiriesFindFull(cfg, b, written, rs) && k < |rs|
    ensures ExpiriesFindFull(cfg, b, written, Replayed(rs, k, n))
    decreases |rs|
  {
    if k == 0 {
      assert Replayed(rs, k, n) == Burst(rs[0], n);
      BurstExpiresAtMostOnce(cfg, b, written, rs[0], n);
    } else {
      ReplayedRest(rs, k, n);
      ReplayingStaysRefilled(cfg, Some(Take(Refill(cfg, b, rs[0].now))), rs[0].at, rs[1..], k - 1, n);
    }
  }

  /** A key that expires before its bucket is refilled shows in a burst. */
  lemma EarlyExpiryShows<V>(cfg: Config, b: Option<Bucket>, written: int, r: Request)
    requires cfg.refillRate > 0.0 && cfg.capacity >= 1 && NotFull(cfg, b) && !ExpiryFindsFull(cfg, b, written, r)
    ensures !Invisible<V>(cfg, b, written, Burst(r, cfg.capacity))
  {
    var n := cfg.capacity;
    var rs := Burst(r, n);
    BurstExpiresAtMostOnce(cfg, None, written, r, n);
    RefilledMeansInvisible<V>(cfg, None, written, rs);
    assert ScriptStep<V>(cfg, Stored(cfg, b, written), r.now, r.at) == ScriptStep<V>(cfg, None, r.now, r.at);
    assert Replies<V>(cfg, Stored(cfg, b, written), rs) == Replies<V>(cfg, None, rs);
    assert Readings(rs) == seq(n, _ => r.now);
    BurstTellsBucketsApart(cfg, b.value, r.now);
    var kept, lost := Decisions(cfg, b, Readings(rs)), Decisions(cfg, None, Readings(rs));
    assert exists i :: 0 <= i < n && kept[i] != lost[i];
  }

  lemma InvisibleRest<V>(cfg: Config, b: Option<Bucket>, written: int, rs: seq<Request>)
    requires cfg.refillRate > 0.0 && cfg.capacity >= 1 && NotFull(cfg, b) && rs != []
    requires ExpiryFindsFull(cfg, b, written, rs[0]) && Invisible<V>(cfg, b, written, rs)
    ensures Invisible<V>(cfg, Some(Take(Refill(cfg, b, rs[0].now))), rs[0].at, rs[1..])
  {
    ScriptStepIsUnaffected<V>(cfg, b, written, rs[0]);
    var found := Refill(cfg, b, rs[0].now);
    var v: Option<Value<V>> := Stored(cfg, Some(Take(found)), rs[0].at);
    assert Readings(rs)[1..] == Readings(rs[1..]);
    forall i | 0 <= i < |rs| - 1
      ensures Replies(cfg, v, rs[1..])[i] == Shown(Decisions(cfg, Some(Take(found)), Readings(rs[1..]))[i])
    {
      assert Replies<V>(cfg, Stored(cfg, b, written), rs)[i + 1] == Replies(cfg, v, rs[1..])[i];
      assert Decisions(cfg, b, Readings(rs))[i + 1] == Decisions(cfg, Some(Take(found)), Readings(rs)[1..])[i];
    }
  }

  lemma {:induction false} EarlyExpiryShowsInReplay<V>(cfg: Config, b: Option<Bucket>, written: int, rs: seq<Request>)
    returns (k: nat, n: nat)
    requires cfg.refillRate > 0.0 && cfg.capacity >= 1 && NotFull(cfg, b)
    requires !ExpiriesFindFull(cfg, b, written, rs)
    ensures k < |rs| && !Invisible<V>(cfg, b, written, Replayed(rs, k, n))
    decreases |rs|
  {
    if !ExpiryFindsFull(cfg, b, written, rs[0]) {
      k, n := 0, cfg.capacity;
      assert Replayed(rs, k, n) == Burst(rs[0], n);
      EarlyExpiryShows<V>(cfg, b, written, rs[0]);
    } else {
      var next := Some(Take(Refill(cfg, b, rs[0].now)));
      k, n := EarlyExpiryShowsInReplay<V>(cfg, next, rs[0].at, rs[1..]);
      k := k + 1;
      ReplayedRest(rs, k, n);
      if Invisible<V>(cfg, b, written, Replayed(rs, k, n)) {
        InvisibleRest<V>(cfg, b, written, Replayed(rs, k, n));
      }
    }
  }

  /** The expiry is invisible in a run, and in every run that replays one of its requests, exactly when
      each request that comes after an expiry finds time enough to have refilled the bucket. Nothing is
      assumed about the readings or the instants. */
  lemma ExpiryIsInvisibleIffRefilled<V>(cfg: Config, b: Option<Bucket>, written: int, rs: seq<Request>)
    requires cfg.refillRate > 0.0 && cfg.capacity >= 1 && NotFull(cfg, b)
    ensures (forall k: nat, n: nat | k < |rs| :: Invisible<V>(cfg, b, written, Replayed(rs, k, n))) <==>
            ExpiriesFindFull(cfg, b, written, rs)
    ensures ExpiriesFindFull(cfg, b, written, rs) ==> Invisible<V>(cfg, b, written, rs)
  {
    if ExpiriesFindFull(cfg, b, written, rs) {
      RefilledMeansInvisible<V>(cfg, b, written, rs);
      forall k: nat, n: nat | k < |rs| ensures Invisible<V>(cfg, b, written, Replayed(rs, k, n)) {
        ReplayingStaysRefilled(cfg, b, written, rs, k, n);
        RefilledMeansInvisible<V>(cfg, b, written, Replayed(rs, k, n));
      }
    } else {
      var k, n := EarlyExpiryShowsInReplay<V>(cfg, b, written, rs);
    }
  }

  // ---------------------------------------------------------------- runs on a new key

  lemma {:induction false} TooSmallRepliesDenied<V>(cfg: Config, v: Option<Value<V>>, rs: seq<Request>)
    requires cfg.capacity < 1 && cfg.refillRate != 0.0
    requires v.Some? ==> v.value.Hash? && v.value.bucket.tokens < 1.0
    ensures forall i | 0 <= i < |rs| :: Replies(cfg, v, rs)[i] == Denied
    decreases |rs|
  {
    if rs == [] {
    } else {
      TooSmallRepliesDenied(cfg, ScriptStep(cfg, v, rs[0].now, rs[0].at).0, rs[1..]);
    }
  }

  /** The run of requests on a new key in which no expiry can make a difference. */
  predicate NoExpiryShows(cfg: Config, rs: seq<Request>)
    requires cfg.refillRate != 0.0
  {
    cfg.capacity < 1 || ExpiriesFindFull(cfg, None, 0, rs)
  }

  /** A store that lets the key expire then replies to every request as one that never does. */
  lemma TtlIsInvisible<V>(cfg: Config, rs: seq<Request>)
    requires cfg.refillRate > 0.0 && NoExpiryShows(cfg, rs)
    ensures forall i | 0 <= i < |rs| :: Replies<V>(cfg, None, rs)[i] == Shown(Decisions(cfg, None, Readings(rs))[i])
  {
    if cfg.capacity < 1 {
      TooSmallRepliesDenied<V>(cfg, None, rs);
      TooSmallDeniesAll(cfg, None, Readings(rs));
    } else {
      RefilledMeansInvisible<V>(cfg, None, 0, rs);
    }
  }

  /** Every request that comes more than `ttl` seconds after the one before carries a reading at least
      `ttl` above all earlier ones; `last` has the latest reading and the last instant so far. */
  predicate KeepsUp(last: Option<Request>, rs: seq<Request>, ttl: int)
    decreases |rs|
  {
    rs == [] ||
    ((last.Some? && rs[0].at > last.value.at + 1000 * ttl ==> rs[0].now >= last.value.now + ttl) &&
     KeepsUp(Some(Request(if last.Some? then Max(last.value.now, rs[0].now) else rs[0].now, rs[0].at)), rs[1..], ttl))
  }

  lemma {:induction false} KeepingUpRefills(
    cfg: Config, b: Option<Bucket>, written: int, rs: seq<Request>)
    requires cfg.refillRate > 0.0 && cfg.capacity >= 1 && (b.Some? ==> b.value.tokens >= 0.0)
    requires KeepsUp(if b.Some? then Some(Request(b.value.lastRefill, written)) else None, rs, Ttl(cfg))
    ensures ExpiriesFindFull(cfg, b, written, rs)
    decreases |rs|
  {
    if rs == [] {
    } else {
      if b.Some? && rs[0].now > b.value.lastRefill {
        EarnedGrows(cfg, 0, rs[0].now - b.value.lastRefill);
      }
      if b.Some? && rs[0].at > written + 1000 * Ttl(cfg) {
        TtlRefillsFully(cfg, rs[0].now - b.value.lastRefill);
      }
      KeepingUpRefills(cfg, Some(Take(Refill(cfg, b, rs[0].now))), rs[0].at, rs[1..]);
    }
  }

  /** Readings that keep up with the instants of execution let no expiry show. */
  lemma KeepingUpIsEnough(cfg: Config, rs: seq<Request>)
    requires cfg.refillRate > 0.0 && KeepsUp(None, rs, Ttl(cfg))
    ensures NoExpiryShows(cfg, rs)
  {
    if cfg.capacity >= 1 {
      KeepingUpRefills(cfg, None, 0, rs);
    }
  }

  /** Every reading is the whole second at which the script executes. */
  predicate OneClock(rs: seq<Request>) {
    && (forall i, j | 0 <= i < j < |rs| :: rs[i].at <= rs[j].at)
    && forall i | 0 <= i < |rs| :: rs[i].now == rs[i].at / 1000
  }

  lemma OneClockRest(rs: seq<Request>)
    requires rs != [] && OneClock(rs)
    ensures OneClock(rs[1..]) && forall r | r in rs[1..] :: rs[0].at <= r.at
  {
    var rest := rs[1..];
    forall i, j | 0 <= i < j < |rest| ensures rest[i].at <= rest[j].at {
      assert rs[i + 1].at <= rs[j + 1].at;
    }
    forall i | 0 <= i < |rest| ensures rest[i].now == rest[i].at / 1000 && rs[0].at <= rest[i].at {
      assert rest[i] == rs[i + 1];
    }
  }

  lemma OneClockCons(r: Request, rest: seq<Request>)
    requires OneClock(rest) && r.now == r.at / 1000 && forall q | q in rest :: r.at <= q.at
    ensures OneClock([r] + rest)
  {
    var rs := [r] + rest;
    forall i, j | 0 <= i < j < |rs| ensures rs[i].at <= rs[j].at {
      assert rs[j] == rest[j - 1];
      if i > 0 {
        assert rest[i - 1].at <= rest[j - 1].at;
      }
    }
  }

  lemma {:induction false} OneClockKeepsUp(last: Option<Request>, rs: seq<Request>, ttl: int)
    requires OneClock(rs)
    requires last.Some? ==> last.value.now == last.value.at / 1000 && forall r | r in rs :: last.value.at <= r.at
    ensures KeepsUp(last, rs, ttl)
    decreases |rs|
  {
    if rs == [] {
    } else {
      OneClockRest(rs);
      assert rs[0] in rs;
      OneClockKeepsUp(Some(rs[0]), rs[1..], ttl);
    }
  }

  /** With one clock for readings and executions no expiry shows. */
  lemma OneClockIsEnough(cfg: Config, rs: seq<Request>)
    requires cfg.refillRate > 0.0 && OneClock(rs)
    ensures NoExpiryShows(cfg, rs)
  {
    OneClockKeepsUp(None, rs, Ttl(cfg));
    KeepingUpIsEnough(cfg, rs);
  }

  /** A reading taken before the script executes can make the expiry visible: the second request was
      stamped within second 1 and executed just after second 2 began, when the first one's key had expired. */
  lemma EarlyReadingMakesTtlVisible<V>()
    ensures var cfg, rs := Config(1, 1.0), [Request(1, 1000), Request(1, 2001)];
            !NoExpiryShows(cfg, rs) &&
            Replies<V>(cfg, None, rs) == [Allowed, Allowed] && Decisions(cfg, None, Readings(rs)) == [true, false]
  {
    var cfg, rs := Config(1, 1.0), [Request(1, 1000), Request(1, 2001)];
    assert Ttl(cfg) == 1;
    assert !(rs[1].now >= rs[0].now + Ttl(cfg));
    var v := ScriptStep<V>(cfg, None, 1, 1000).0;
    assert v == Some(Hash(Bucket(0.0, 1), Some(2000)));
    assert rs[1..] == [Request(1, 2001)] && rs[1..][1..] == [];
    assert Replies(cfg, v, rs[1..]) == [Allowed];
    assert Readings(rs) == [1, 1] && Readings(rs)[1..] == [1] && Readings(rs)[1..][1..] == [];
    assert Decisions(cfg, Some(Bucket(0.0, 1)), [1]) == [false];
  }

  lemma NegativeTtl(cfg: Config)
    requires cfg.refillRate < 0.0 && cfg.capacity >= 1
    ensures Ttl(cfg) <= 0
  {
    var ratio := cfg.capacity as real / cfg.refillRate;
    assert ratio * cfg.refillRate == cfg.capacity as real;
    assert ratio < 0.0;
  }

  /** A rate that is not positive limits nothing but a bucket too small for one token: a zero rate
      makes every execution fail, a negative one deletes the key each time. */
  lemma {:induction false} RateNotPositive<V>(cfg: Config, v: Option<Value<V>>, rs: seq<Request>)
    requires cfg.refillRate <= 0.0
    requires v.Some? ==> v.value.Hash? && (cfg.refillRate < 0.0 ==> cfg.capacity < 1 && v.value.bucket.tokens < 1.0)
    ensures forall i | 0 <= i < |rs| ::
              Replies(cfg, v, rs)[i] ==
              if cfg.refillRate == 0.0 then ScriptError else if cfg.capacity >= 1 then Allowed else Denied
    decreases |rs|
  {
    if rs == [] {
    } else {
      if cfg.refillRate < 0.0 && cfg.capacity >= 1 {
        NegativeTtl(cfg);
      }
      RateNotPositive(cfg, ScriptStep(cfg, v, rs[0].now, rs[0].at).0, rs[1..]);
    }
  }

  /** The script fails exactly when its key holds a text, which then stays, or the rate is zero, which spends a
      token all the same and leaves the expiry alone. Otherwise it replies what it decides. */
  lemma ScriptErrorsExactly<V>(cfg: Config, v: Option<Value<V>>, now: int, at: int)
    ensures var (next, reply) := ScriptStep(cfg, v, now, at); var live := Live(v, at);
      && (reply == ScriptError <==> cfg.refillRate == 0.0 || (live.Some? && live.value.Text?))
      && (live.Some? && live.value.Text? ==> next == live)
      && (reply == ScriptError && !(live.Some? && live.value.Text?) ==>
            && next.Some? && next.value.Hash? && next.value.bucket == Take(Refill(cfg, BucketOf(live), now))
            && next.value.expires == if live.Some? then live.value.expires else None)
      && (reply != ScriptError ==> (reply == Allowed <==> HasToken(Refill(cfg, BucketOf(live), now))))
  {
  }
}
