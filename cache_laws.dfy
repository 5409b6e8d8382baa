/**
 Laws that relate the cache's operations to each other: how sweeps compose,
 how a write interacts with a later sweep, and the observable scenarios
 of the cache's tests, each stated as a client that drives a fresh cache.
 */
module CacheLaws {
  import opened Cache

  /** A second sweep at the same clock changes nothing. */
  lemma SweepIdempotent<V>(m: map<string, V>, expiry: V -> int64, now: int64)
    ensures Swept(Swept(m, expiry, now), expiry, now) == Swept(m, expiry, now)
  {
  }

  /**
   Sweeps at two clock readings compose to the sweep at the later one,
   whichever runs first.
   */
  lemma SweepsCompose<V>(m: map<string, V>, expiry: V -> int64, earlier: int64, later: int64)
    requires earlier <= later
    ensures Swept(Swept(m, expiry, earlier), expiry, later) == Swept(m, expiry, later)
    ensures Swept(Swept(m, expiry, later), expiry, earlier) == Swept(m, expiry, later)
  {
  }

  /**
   A sweep after a write: the written entry survives exactly when it has not
   expired, and the other entries are swept as if the write had not happened.
   */
  lemma SetThenSweep<V>(m: map<string, V>, key: string, value: V, expiry: V -> int64, now: int64)
    ensures Swept(m[key := value], expiry, now)
         == if Expired(value, expiry, now) then Swept(m, expiry, now) - {key}
            else Swept(m, expiry, now)[key := value]
  {
  }

  /** A key never written is not found in a new cache, and `Get` yields the zero value. */
  method GetFromNewCache<V>(expiry: V -> int64, zero: V, key: string) returns (value: V, err: Option<Error>)
    ensures err == Some(ErrItemNotInCache) && value == zero
  {
    var cache := new GenericCache(expiry, zero);
    value, err := cache.Get(key);
  }

  /**
   Right after `Set(key, v)`, with no sweep in between, `Get(key)` returns `v`
   without error, whether or not `v` has already expired.
   */
  method SetThenGet<V>(expiry: V -> int64, zero: V, key: string, v: V) returns (setErr: Option<Error>, value: V, err: Option<Error>)
    ensures setErr == None
    ensures err == None && value == v
  {
    var cache := new GenericCache(expiry, zero);
    setErr := cache.Set(key, v);
    value, err := cache.Get(key);
  }

  /** The last write to a key wins. */
  method OverwriteThenGet<V>(expiry: V -> int64, zero: V, key: string, v1: V, v2: V) returns (value: V, err: Option<Error>)
    ensures err == None && value == v2
  {
    var cache := new GenericCache(expiry, zero);
    var _ := cache.Set(key, v1);
    var _ := cache.Set(key, v2);
    value, err := cache.Get(key);
  }

  /** Writes to distinct keys do not disturb each other: both values are read back. */
  method SetDistinctKeysThenGet<V>(expiry: V -> int64, zero: V, k1: string, v1: V, k2: string, v2: V)
    returns (value1: V, err1: Option<Error>, value2: V, err2: Option<Error>)
    requires k1 != k2
    ensures err1 == None && value1 == v1
    ensures err2 == None && value2 == v2
  {
    var cache := new GenericCache(expiry, zero);
    var _ := cache.Set(k1, v1);
    var _ := cache.Set(k2, v2);
    value1, err1 := cache.Get(k1);
    value2, err2 := cache.Get(k2);
  }

  /**
   A write, then a sweep at clock `now`, then a read: the key is found, with
   the written value, exactly when that value expires after `now`; otherwise
   the read reports the not-in-cache error.
   */
  method SetSweepGet<V>(expiry: V -> int64, zero: V, key: string, v: V, now: int64) returns (value: V, err: Option<Error>)
    ensures err == None <==> expiry(v) > now
    ensures err == None ==> value == v
    ensures err != None ==> err == Some(ErrItemNotInCache) && value == zero
  {
    var cache := new GenericCache(expiry, zero);
    var _ := cache.Set(key, v);
    cache.Sweep(now);
    value, err := cache.Get(key);
  }

  /**
   A sweep between two writes only affects the first: a key re-written with
   a fresh value after the sweep is found with that value.
   */
  method SetSweepSetGet<V>(expiry: V -> int64, zero: V, key: string, v1: V, v2: V, now: int64)
    returns (value: V, err: Option<Error>)
    ensures err == None && value == v2
  {
    var cache := new GenericCache(expiry, zero);
    var _ := cache.Set(key, v1);
    cache.Sweep(now);
    var _ := cache.Set(key, v2);
    value, err := cache.Get(key);
  }
}
