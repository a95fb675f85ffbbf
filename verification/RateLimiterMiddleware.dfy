/** The middleware in front of the script: which requests it passes on when Redis fails, and how the
    requests of different users keep out of each other's way in one shared database. */
module RateLimiterMiddleware {
  import opened Prelude
  import opened TokenBucket
  import opened TokenBucketRuns
  import opened RedisStore
  import opened RateLimiterTtl
  import opened RedisKeys

  /** An EvalSha call is answered, fails before the script runs, or fails after it has run. */
  datatype Network = Answered | RequestLost | ReplyLost

  datatype Outcome = PassedOn | TooManyRequests | Unauthorized

  datatype Call = Call(cfg: Config, request: Request, network: Network)

  /** One request of a user: the value left under the user's key, and what becomes of the request. */
  function CallStep<V>(v: Option<Value<V>>, c: Call): (Option<Value<V>>, Outcome) {
    var (next, reply) := ScriptStep(c.cfg, v, c.request.now, c.request.at);
    match c.network
    case Answered => (next, if reply == Denied then TooManyRequests else PassedOn)
    case RequestLost => (v, PassedOn)
    case ReplyLost => (next, PassedOn)
  }

  /** Only an answered denial blocks a request; a call that did not get to the script leaves its key alone, and
      any other leaves what the script leaves. */
  lemma OnlyDenialsBlock<V>(v: Option<Value<V>>, c: Call)
    ensures
      var (left, reply) := ScriptStep(c.cfg, v, c.request.now, c.request.at);
      var (next, outcome) := CallStep(v, c);
      && outcome == (if c.network.Answered? && reply == Denied then TooManyRequests else PassedOn)
      && next == if c.network.RequestLost? then v else left
  {
  }

  class RateLimiter<V> {
    const redis: Redis<V>
    const config: Config

    constructor (redis: Redis<V>, config: Config)
      ensures this.redis == redis && this.config == config
    {
      this.redis, this.config := redis, config;
    }

    /** Handle one request of the user that authentication found, if any. */
    method Handle(userId: Option<int>, now: int, at: int, network: Network) returns (outcome: Outcome)
      modifies redis
      ensures userId.None? ==> outcome == Unauthorized && redis.store == old(redis.store)
      ensures userId.Some? ==>
        var key := UserRateLimiterKey(userId.value);
        && (Lookup(redis.store, key), outcome) ==
           CallStep(Lookup(old(redis.store), key), Call(config, Request(now, at), network))
        && redis.store - {key} == old(redis.store) - {key}
    {
      if userId.None? {
        return Unauthorized;
      }
      var key := UserRateLimiterKey(userId.value);
      var reply := ScriptError;
      if network != RequestLost {
        reply := redis.EvalRateLimiter(key, config, now, at);
      }
      if network != Answered || reply == ScriptError {
        return PassedOn;
      }
      if reply == Denied {
        return TooManyRequests;
      }
      outcome := PassedOn;
    }
  }

  // ---------------------------------------------------------------- isolation

  /** What happens to the shared database: a rate-limited request, or a write or an expiry of an
      entry of the task cache. */
  datatype Event<V> =
    | Limited(userId: int, call: Call)
    | CacheSet(key: Key, text: V, until: int)
    | CacheExpire(key: Key)

  predicate KeepsToItsKeys<V>(e: Event<V>) {
    e.Limited? || !e.key.Limiter?
  }

  function EventStep<V>(store: map<string, Value<V>>, e: Event<V>): map<string, Value<V>> {
    match e
    case Limited(userId, call) =>
      var key := UserRateLimiterKey(userId);
      var v := CallStep(Lookup(store, key), call).0;
      if v.Some? then store[key := v.value] else store - {key}
    case CacheSet(key, text, until) => store[Print(key) := Text(text, until)]
    case CacheExpire(key) => store - {Print(key)}
  }

  /** Outcomes that the requests of one user have within a run of events. */
  function SharedOutcomes<V>(store: map<string, Value<V>>, events: seq<Event<V>>, userId: int): seq<Outcome>
    decreases |events|
  {
    if events == [] then [] else
    var e := events[0];
    (if e.Limited? && e.userId == userId
     then [CallStep(Lookup(store, UserRateLimiterKey(userId)), e.call).1] else [])
    + SharedOutcomes(EventStep(store, e), events[1..], userId)
  }

  function CallsOf<V>(events: seq<Event<V>>, userId: int): seq<Call> {
    if events == [] then [] else
    (if events[0].Limited? && events[0].userId == userId then [events[0].call] else [])
    + CallsOf(events[1..], userId)
  }

  /** Outcomes of a user's requests run alone on the value under the user's key. */
  function Outcomes<V>(v: Option<Value<V>>, calls: seq<Call>): (outcomes: seq<Outcome>)
    ensures |outcomes| == |calls|
    decreases |calls|
  {
    if calls == [] then [] else
    var (next, outcome) := CallStep(v, calls[0]);
    [outcome] + Outcomes(next, calls[1..])
  }

  lemma OtherEventsKeepValue<V>(store: map<string, Value<V>>, e: Event<V>, userId: int)
    requires KeepsToItsKeys(e)
    ensures var key := UserRateLimiterKey(userId);
            Lookup(EventStep(store, e), key) ==
            if e.Limited? && e.userId == userId then CallStep(Lookup(store, key), e.call).0 else Lookup(store, key)
  {
    var key := UserRateLimiterKey(userId);
    assert key == Print(Limiter(userId));
    if e.Limited? {
      assert UserRateLimiterKey(e.userId) == Print(Limiter(e.userId));
      if key == UserRateLimiterKey(e.userId) {
        KeysNeverCollide(Limiter(userId), Limiter(e.userId));
      }
    } else if key == Print(e.key) {
      KeysNeverCollide(Limiter(userId), e.key);
    }
  }

  /** However the requests of all users and the traffic of the task cache interleave, each user sees
      the outcomes of that user's requests alone. */
  lemma {:induction false} UsersAreIsolated<V>(store: map<string, Value<V>>, events: seq<Event<V>>, userId: int)
    requires forall e | e in events :: KeepsToItsKeys(e)
    ensures SharedOutcomes(store, events, userId) ==
            Outcomes(Lookup(store, UserRateLimiterKey(userId)), CallsOf(events, userId))
    decreases |events|
  {
    if events == [] {
    } else {
      OtherEventsKeepValue(store, events[0], userId);
      UsersAreIsolated(EventStep(store, events[0]), events[1..], userId);
      if events[0].Limited? && events[0].userId == userId {
        assert CallsOf(events, userId)[1..] == CallsOf(events[1..], userId);
      } else {
        assert CallsOf(events, userId) == CallsOf(events[1..], userId);
      }
    }
  }

  // ---------------------------------------------------------------- failing open

  predicate Reaches(c: Call) {
    c.network != RequestLost
  }

  /** The requests for which the script ran. */
  function Executed(calls: seq<Call>): seq<Request> {
    if calls == [] then [] else
    (if Reaches(calls[0]) then [calls[0].request] else []) + Executed(calls[1..])
  }

  /** How many of the first k requests reached the script. */
  function Position(calls: seq<Call>, k: nat): (p: nat)
    requires k <= |calls|
  {
    if k == 0 then 0 else (if Reaches(calls[0]) then 1 else 0) + Position(calls[1..], k - 1)
  }

  lemma {:induction false} PositionNext(calls: seq<Call>, k: nat)
    requires k < |calls|
    ensures Position(calls, k + 1) == Position(calls, k) + if Reaches(calls[k]) then 1 else 0
    ensures Position(calls, k + 1) <= |Executed(calls)|
    ensures Reaches(calls[k]) ==> Executed(calls)[Position(calls, k)] == calls[k].request
  {
    if k == 0 {
    } else {
      PositionNext(calls[1..], k - 1);
    }
  }

  lemma {:induction false} PositionFits(calls: seq<Call>, k: nat)
    requires k <= |calls|
    ensures Position(calls, k) <= |Executed(calls)|
  {
    if k > 0 {
      PositionNext(calls, k - 1);
    }
  }

  lemma RepliesShift<V>(cfg: Config, v: Option<Value<V>>, calls: seq<Call>, p: nat)
    requires calls != [] && calls[0].cfg == cfg && p < |Executed(calls[1..])|
    ensures Replies(cfg, CallStep(v, calls[0]).0, Executed(calls[1..]))[p] ==
            Replies(cfg, v, Executed(calls))[if Reaches(calls[0]) then p + 1 else p]
  {
    if Reaches(calls[0]) {
      assert Executed(calls)[1..] == Executed(calls[1..]);
    } else {
      assert Executed(calls) == Executed(calls[1..]);
    }
  }

  /** An answered request has the outcome of its place in the run of executions; any other request is
      passed on. */
  lemma {:induction false} OutcomeAt<V>(cfg: Config, v: Option<Value<V>>, calls: seq<Call>, k: nat)
    requires k < |calls| && forall c | c in calls :: c.cfg == cfg
    ensures calls[k].network.Answered? ==> Position(calls, k) < |Executed(calls)|
    ensures Outcomes(v, calls)[k] ==
      if calls[k].network.Answered? && Replies(cfg, v, Executed(calls))[Position(calls, k)] == Denied
      then TooManyRequests else PassedOn
    decreases k
  {
    PositionNext(calls, k);
    if k == 0 {
    } else {
      var next := CallStep(v, calls[0]).0;
      OutcomeAt(cfg, next, calls[1..], k - 1);
      assert Outcomes(v, calls)[k] == Outcomes(next, calls[1..])[k - 1];
      if calls[k].network.Answered? {
        RepliesShift(cfg, v, calls, Position(calls[1..], k - 1));
      }
    }
  }

  function Passes(outcomes: seq<Outcome>, i: nat, j: nat): nat
    requires i <= j <= |outcomes|
  {
    if i == j then 0 else Passes(outcomes, i, j - 1) + if outcomes[j - 1] == PassedOn then 1 else 0
  }

  function Failures(calls: seq<Call>, i: nat, j: nat): nat
    requires i <= j <= |calls|
  {
    if i == j then 0 else Failures(calls, i, j - 1) + if calls[j - 1].network.Answered? then 0 else 1
  }

  lemma {:induction false} PositionGrows(calls: seq<Call>, i: nat, j: nat)
    requires i <= j <= |calls|
    ensures Position(calls, i) <= Position(calls, j) <= |Executed(calls)|
  {
    PositionFits(calls, j);
    if i == j {
    } else {
      PositionNext(calls, j - 1);
      PositionGrows(calls, i, j - 1);
    }
  }

  /** An answered request is passed on exactly when the bucket, fed with the executed calls alone and
      never expiring, admits it; a request whose call failed always is. */
  lemma PassedOnIffAdmittedOrFailed<V>(cfg: Config, calls: seq<Call>, k: nat)
    requires cfg.refillRate > 0.0 && NoExpiryShows(cfg, Executed(calls)) && k < |calls|
    requires forall c | c in calls :: c.cfg == cfg
    ensures calls[k].network.Answered? ==> Position(calls, k) < |Executed(calls)|
    ensures Outcomes<V>(None, calls)[k] == PassedOn <==>
            (calls[k].network.Answered? ==> Admitted(cfg, Readings(Executed(calls)), Position(calls, k)))
  {
    var rs := Executed(calls);
    OutcomeAt<V>(cfg, None, calls, k);
    TtlIsInvisible<V>(cfg, rs);
    if calls[k].network.Answered? {
      DecisionsAreAdmissions(cfg, Readings(rs), Position(calls, k));
    }
  }

  lemma {:induction false} PassesAreAdmissionsOrFailures<V>(cfg: Config, calls: seq<Call>, i: nat, j: nat)
    requires cfg.refillRate > 0.0 && NoExpiryShows(cfg, Executed(calls)) && i <= j <= |calls|
    requires forall c | c in calls :: c.cfg == cfg
    ensures Position(calls, i) <= Position(calls, j) <= |Executed(calls)|
    ensures Passes(Outcomes<V>(None, calls), i, j) <=
            Admissions(cfg, Readings(Executed(calls)), Position(calls, i), Position(calls, j)) + Failures(calls, i, j)
  {
    PositionGrows(calls, i, j);
    if i == j {
    } else {
      PassesAreAdmissionsOrFailures<V>(cfg, calls, i, j - 1);
      PositionNext(calls, j - 1);
      PassedOnIffAdmittedOrFailed<V>(cfg, calls, j - 1);
    }
  }

  /** What the script can admit to the executions a, ..., b-1. */
  function Allowance(cfg: Config, ts: seq<int>, a: nat, b: nat): real
    requires a <= b <= |ts|
  {
    if a == b then 0.0 else cfg.capacity as real + Earned(cfg, Latest(ts, b - 1) - Latest(ts, a))
  }

  lemma AdmissionsFitAllowance(cfg: Config, ts: seq<int>, a: nat, b: nat)
    requires cfg.refillRate > 0.0 && cfg.capacity >= 0 && a <= b <= |ts|
    ensures Admissions(cfg, ts, a, b) as real <= Allowance(cfg, ts, a, b)
  {
    if a < b {
      BlockBound(cfg, ts, a, b - 1);
    }
  }

  /** With f failed calls in a block of requests, at most capacity + rate * elapsed + f of the block are
      passed on, where the time elapsed is what the readings of its executed calls add to the latest
      reading before. */
  lemma FailOpenBound<V>(cfg: Config, calls: seq<Call>, i: nat, j: nat)
    requires cfg.refillRate > 0.0 && cfg.capacity >= 0 && NoExpiryShows(cfg, Executed(calls)) && i <= j <= |calls|
    requires forall c | c in calls :: c.cfg == cfg
    ensures Position(calls, i) <= Position(calls, j) <= |Executed(calls)|
    ensures Passes(Outcomes<V>(None, calls), i, j) as real <=
            Allowance(cfg, Readings(Executed(calls)), Position(calls, i), Position(calls, j))
            + Failures(calls, i, j) as real
  {
    PassesAreAdmissionsOrFailures<V>(cfg, calls, i, j);
    AdmissionsFitAllowance(cfg, Readings(Executed(calls)), Position(calls, i), Position(calls, j));
  }

  // ---------------------------------------------------------------- one clock

  function Requests(calls: seq<Call>): (rs: seq<Request>)
    ensures |rs| == |calls|
    ensures forall i | 0 <= i < |calls| :: rs[i] == calls[i].request
  {
    seq(|calls|, i requires 0 <= i < |calls| => calls[i].request)
  }

  lemma {:induction false} ExecutedAreRequests(calls: seq<Call>)
    ensures forall r | r in Executed(calls) :: r in Requests(calls)
  {
    if calls == [] {
    } else {
      ExecutedAreRequests(calls[1..]);
      assert Requests(calls) == [calls[0].request] + Requests(calls[1..]);
    }
  }

  lemma {:induction false} ExecutedKeepsClock(calls: seq<Call>)
    requires OneClock(Requests(calls))
    ensures OneClock(Executed(calls))
  {
    if calls == [] {
    } else {
      OneClockRest(Requests(calls));
      assert Requests(calls)[1..] == Requests(calls[1..]);
      ExecutedKeepsClock(calls[1..]);
      ExecutedAreRequests(calls[1..]);
      OneClockCons(calls[0].request, Executed(calls[1..]));
    }
  }

  /** The executions of a block carry readings between the first and the last of the block. */
  lemma {:induction false} BlockReadings(calls: seq<Call>, i: nat, j: nat, x: nat)
    requires OneClock(Requests(calls)) && i < j <= |calls|
    requires Position(calls, i) <= x < Position(calls, j) <= |Executed(calls)|
    ensures calls[i].request.now <= Executed(calls)[x].now <= calls[j - 1].request.now
  {
    PositionNext(calls, j - 1);
    assert forall k, l | 0 <= k < l < |calls| :: Requests(calls)[k].at <= Requests(calls)[l].at;
    if x >= Position(calls, j - 1) || i == j - 1 {
    } else {
      BlockReadings(calls, i, j - 1, x);
    }
  }

  lemma {:induction false} LatestOfOrdered(ts: seq<int>, n: nat)
    requires n < |ts| && forall i, j | 0 <= i < j < |ts| :: ts[i] <= ts[j]
    ensures Latest(ts, n) == ts[n]
  {
    if n == 0 {
    } else {
      LatestOfOrdered(ts, n - 1);
    }
  }

  lemma OrderedAllowance(cfg: Config, ts: seq<int>, a: nat, b: nat, first: int, last: int)
    requires cfg.refillRate > 0.0 && cfg.capacity >= 0 && a <= b <= |ts| && first <= last
    requires forall i, j | 0 <= i < j < |ts| :: ts[i] <= ts[j]
    requires a < b ==> first <= ts[a] && ts[b - 1] <= last
    ensures Allowance(cfg, ts, a, b) <= cfg.capacity as real + Earned(cfg, last - first)
  {
    EarnedGrows(cfg, 0, last - first);
    if a < b {
      LatestOfOrdered(ts, a);
      LatestOfOrdered(ts, b - 1);
      EarnedGrows(cfg, ts[b - 1] - ts[a], last - first);
    }
  }

  lemma ReadingsInOrder(calls: seq<Call>)
    requires OneClock(Requests(calls))
    ensures var ts := Readings(Executed(calls)); forall x, y | 0 <= x < y < |ts| :: ts[x] <= ts[y]
  {
    ExecutedKeepsClock(calls);
  }

  lemma OneClockAllowance(cfg: Config, calls: seq<Call>, i: nat, j: nat)
    requires cfg.refillRate > 0.0 && cfg.capacity >= 0 && OneClock(Requests(calls)) && i < j <= |calls|
    ensures Position(calls, i) <= Position(calls, j) <= |Executed(calls)|
    ensures Allowance(cfg, Readings(Executed(calls)), Position(calls, i), Position(calls, j)) <=
            cfg.capacity as real + Earned(cfg, calls[j - 1].request.now - calls[i].request.now)
  {
    var a, b := Position(calls, i), Position(calls, j);
    PositionGrows(calls, i, j);
    ReadingsInOrder(calls);
    assert Requests(calls)[i].now <= Requests(calls)[j - 1].now;
    if a < b {
      BlockReadings(calls, i, j, a);
      BlockReadings(calls, i, j, b - 1);
    }
    OrderedAllowance(cfg, Readings(Executed(calls)), a, b, calls[i].request.now, calls[j - 1].request.now);
  }

  /** When readings are the whole second of execution, the bound needs no other condition and the time
      elapsed is that of the block. */
  lemma FailOpenBoundOnOneClock<V>(cfg: Config, calls: seq<Call>, i: nat, j: nat)
    requires cfg.refillRate > 0.0 && cfg.capacity >= 0 && OneClock(Requests(calls)) && i < j <= |calls|
    requires forall c | c in calls :: c.cfg == cfg
    ensures Passes(Outcomes<V>(None, calls), i, j) as real <=
            cfg.capacity as real + Earned(cfg, calls[j - 1].request.now - calls[i].request.now)
            + Failures(calls, i, j) as real
  {
    ExecutedKeepsClock(calls);
    OneClockIsEnough(cfg, Executed(calls));
    FailOpenBound<V>(cfg, calls, i, j);
    OneClockAllowance(cfg, calls, i, j);
  }
}
