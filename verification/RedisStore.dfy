/** The shared Redis database: hashes of the rate limiter and texts of the task cache, each with an
    expiry, and the rate limiter script that Redis runs atomically. Instants are milliseconds. */
module RedisStore {
  import opened Prelude
  import opened TokenBucket

  datatype Value<V> =
    | Hash(bucket: Bucket, expires: Option<int>)
    | Text(text: V, until: int)

  /** What GET answers. */
  datatype Fetched<V> = Error | Miss | Hit(text: V)

  datatype Reply = Allowed | Denied | ScriptError

  /** A key is still there at the very instant of its expiry. */
  predicate Expired<V>(v: Value<V>, at: int) {
    match v
    case Hash(_, expires) => expires.Some? && at > expires.value
    case Text(_, until) => at > until
  }

  /** What is still there of a value at instant `at`. */
  function Live<V>(v: Option<Value<V>>, at: int): Option<Value<V>> {
    if v.Some? && Expired(v.value, at) then None else v
  }

  function Lookup<V>(store: map<string, Value<V>>, key: string): Option<Value<V>> {
    if key in store then Some(store[key]) else None
  }

  function BucketOf<V>(v: Option<Value<V>>): Option<Bucket> {
    if v.Some? && v.value.Hash? then Some(v.value.bucket) else None
  }

  /** Seconds after which the script lets its key expire. */
  function Ttl(cfg: Config): int
    requires cfg.refillRate != 0.0
  {
    Ceil(cfg.capacity as real / cfg.refillRate)
  }

  /** One execution of the script on the value under its key. EXPIRE refuses the infinite argument
      that a zero rate gives, after the hash has been written; an argument that is not positive
      deletes the key. */
  function ScriptStep<V>(cfg: Config, v: Option<Value<V>>, now: int, at: int): (Option<Value<V>>, Reply) {
    var live := Live(v, at);
    if live.Some? && live.value.Text? then (live, ScriptError) else
    var found := Refill(cfg, BucketOf(live), now);
    if cfg.refillRate == 0.0 then
      (Some(Hash(Take(found), if live.Some? then live.value.expires else None)), ScriptError)
    else
      var kept := if Ttl(cfg) <= 0 then None else Some(Hash(Take(found), Some(at + 1000 * Ttl(cfg))));
      (kept, if HasToken(found) then Allowed else Denied)
  }

  class Redis<V> {
    var store: map<string, Value<V>>

    constructor ()
      ensures store == map[]
    {
      store := map[];
    }

    method Purge(key: string, at: int)
      modifies this
      ensures Lookup(store, key) == Live(Lookup(old(store), key), at)
      ensures store - {key} == old(store) - {key}
      ensures key in store ==> store == old(store)
    {
      if key in store && Expired(store[key], at) {
        store := store - {key};
      }
    }

    /** GET: an error if the call fails or the key holds no text. */
    method Get(key: string, fails: bool, at: int) returns (r: Fetched<V>)
      modifies this
      ensures fails ==> r.Error? && store == old(store)
      ensures !fails ==> Lookup(store, key) == Live(Lookup(old(store), key), at)
      ensures !fails ==> match Live(Lookup(old(store), key), at)
        case None => r.Miss?
        case Some(Text(text, _)) => r == Hit(text) && store == old(store)
        case Some(Hash(_, _)) => r.Error?
      ensures store - {key} == old(store) - {key}
    {
      if fails {
        return Error;
      }
      Purge(key, at);
      if key !in store {
        return Miss;
      }
      r := match store[key] case Text(text, _) => Hit(text) case Hash(_, _) => Error;
    }

    /** SET with an expiry `ttl` milliseconds from now: until then, and no longer, the key holds the text.
        A call that fails after it took effect counts as one that did not fail. */
    method Set(key: string, text: V, ttl: int, fails: bool, at: int) returns (ok: bool)
      modifies this
      ensures ok == !fails
      ensures ok ==> forall when ::
        Live(Lookup(store, key), when) == if when <= at + ttl then Some(Text(text, at + ttl)) else None
      ensures store - {key} == old(store) - {key}
      ensures !ok ==> store == old(store)
    {
      if fails {
        return false;
      }
      store := store[key := Text(text, at + ttl)];
      ok := true;
    }

    method EvalRateLimiter(key: string, cfg: Config, now: int, at: int) returns (reply: Reply)
      modifies this
      ensures (Lookup(store, key), reply) == ScriptStep(cfg, Lookup(old(store), key), now, at)
      ensures store - {key} == old(store) - {key}
    {
      Purge(key, at);
      if key in store && store[key].Text? {
        return ScriptError;
      }
      ghost var found := Refill(cfg, BucketOf(Lookup(store, key)), now);

      var tokens, lastRefill, expires := cfg.capacity as real, now, None;
      if key in store {
        tokens, lastRefill, expires := store[key].bucket.tokens, store[key].bucket.lastRefill, store[key].expires;
      }

      var delta := now - lastRefill;
      if delta > 0 {
        var refill := Earned(cfg, delta);
        tokens := Min(cfg.capacity as real, tokens + refill);
        lastRefill := now;
      }
      assert Bucket(tokens, lastRefill) == found;

      reply := Denied;
      if tokens >= 1.0 {
        tokens := tokens - 1.0;
        reply := Allowed;
      }

      store := store[key := Hash(Bucket(tokens, lastRefill), expires)];

      if cfg.refillRate == 0.0 {
        return ScriptError;
      }
      var ttl := Ttl(cfg);
      if ttl <= 0 {
        store := store - {key};
      } else {
        store := store[key := Hash(Bucket(tokens, lastRefill), Some(at + 1000 * ttl))];
      }
    }
  }
}
