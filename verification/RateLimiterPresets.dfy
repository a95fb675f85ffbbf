/** The preset configurations, from the strictest to the most generous. */
module RateLimiterPresets {
  import opened TokenBucket
  import opened TokenBucketRuns

  function DefaultRateLimiterConfig(): Config { Config(20, 10.0) }

  function StrictRateLimiter(): Config { Config(3, 0.1) }

  function ConservativeRateLimiter(): Config { Config(10, 5.0) }

  function ModerateRateLimiter(): Config { DefaultRateLimiterConfig() }

  function GenerousRateLimiter(): Config { Config(100, 50.0) }

  function UnlimitedRateLimiter(): Config { Config(10000, 1000.0) }

  function CustomRateLimiter(capacity: int, refillRate: real): Config { Config(capacity, refillRate) }

  /** On the same requests, each preset has after every prefix admitted at least as many as the
      stricter one before it. */
  lemma PresetsAreOrdered(ts: seq<int>, n: nat)
    requires n <= |ts|
    ensures Admissions(StrictRateLimiter(), ts, 0, n) <= Admissions(ConservativeRateLimiter(), ts, 0, n)
         <= Admissions(ModerateRateLimiter(), ts, 0, n) <= Admissions(GenerousRateLimiter(), ts, 0, n)
         <= Admissions(UnlimitedRateLimiter(), ts, 0, n)
  {
    LargerAdmitsAtLeastAsMany(StrictRateLimiter(), ConservativeRateLimiter(), ts, n);
    LargerAdmitsAtLeastAsMany(ConservativeRateLimiter(), ModerateRateLimiter(), ts, n);
    LargerAdmitsAtLeastAsMany(ModerateRateLimiter(), GenerousRateLimiter(), ts, n);
    LargerAdmitsAtLeastAsMany(GenerousRateLimiter(), UnlimitedRateLimiter(), ts, n);
  }

  /** The documented bursts (3, 10, 20, 100 and 10000 requests) and sustained rates (one request in ten
      seconds, then 5, 10, 50 and 1000 a second). */
  lemma PresetsAreAsDocumented(ts: seq<int>, n: nat)
    requires n < |ts| && forall i, j | 0 <= i < j < |ts| :: ts[i] == ts[j]
    ensures Admitted(StrictRateLimiter(), ts, n) <==> n < 3
    ensures Admitted(ConservativeRateLimiter(), ts, n) <==> n < 10
    ensures Admitted(ModerateRateLimiter(), ts, n) <==> n < 20
    ensures Admitted(GenerousRateLimiter(), ts, n) <==> n < 100
    ensures Admitted(UnlimitedRateLimiter(), ts, n) <==> n < 10000
    ensures Earned(StrictRateLimiter(), 10) == 1.0 && Earned(ConservativeRateLimiter(), 1) == 5.0
    ensures Earned(ModerateRateLimiter(), 1) == 10.0 && Earned(GenerousRateLimiter(), 1) == 50.0
    ensures Earned(UnlimitedRateLimiter(), 1) == 1000.0
  {
    BurstAdmitsCapacity(StrictRateLimiter(), ts, n);
    BurstAdmitsCapacity(ConservativeRateLimiter(), ts, n);
    BurstAdmitsCapacity(ModerateRateLimiter(), ts, n);
    BurstAdmitsCapacity(GenerousRateLimiter(), ts, n);
    BurstAdmitsCapacity(UnlimitedRateLimiter(), ts, n);
  }

  /** A custom configuration admits a burst of its capacity and earns its rate every second. */
  lemma CustomIsAsGiven(capacity: int, refillRate: real, ts: seq<int>, n: nat)
    requires capacity >= 0 && n < |ts| && forall i, j | 0 <= i < j < |ts| :: ts[i] == ts[j]
    ensures Admitted(CustomRateLimiter(capacity, refillRate), ts, n) <==> n < capacity
    ensures Earned(CustomRateLimiter(capacity, refillRate), 1) == refillRate
  {
    BurstAdmitsCapacity(CustomRateLimiter(capacity, refillRate), ts, n);
  }

  /** The wait that a denial advertises, 1/rate seconds, can be too short: under the default configuration a
      request denied at millisecond 5000 is denied again 100 milliseconds later, because both carry the
      reading of second 5. */
  lemma AdvertisedWaitCanBeTooShort(ts: seq<int>)
    requires |ts| == 22 && forall i | 0 <= i < |ts| :: ts[i] == 5
    ensures !Admitted(DefaultRateLimiterConfig(), ts, 20) && !Admitted(DefaultRateLimiterConfig(), ts, 21)
    ensures ts[20] == 5000 / 1000 && ts[21] == 5100 / 1000
    ensures (5100 - 5000) as real == 1000.0 * (1.0 / DefaultRateLimiterConfig().refillRate)
  {
    BurstAdmitsCapacity(DefaultRateLimiterConfig(), ts, 20);
    BurstAdmitsCapacity(DefaultRateLimiterConfig(), ts, 21);
  }
}
