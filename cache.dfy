/**
 A generic in-memory TTL cache: a table from string keys to values, where
 every value reports the Unix second at which it expires. `Get` and `Set`
 work on the table directly; a periodic sweep deletes every entry whose
 expiry is at or before the current time. The ticker, the goroutine, the
 stop channel and the mutex that drive and serialise these operations are
 not modelled: each operation here is one sequential call, and the clock
 reading the sweep compares against is its `now` parameter.
 */
module Cache {

  /** Signed 64-bit integers, the type of `GetExpiryDate()` and of `Unix()`. */
  newtype int64 = x: int | -0x8000_0000_0000_0000 <= x < 0x8000_0000_0000_0000

  datatype Option<+T> = None | Some(value: T)

  /** The only error the cache reports: the key has no entry. */
  datatype Error = ErrItemNotInCache

  /** An entry is expired at clock `now` when its expiry is `<=` now. */
  predicate Expired<V>(v: V, expiry: V -> int64, now: int64)
  {
    expiry(v) <= now
  }

  /** The table a sweep at clock `now` leaves behind: exactly the unexpired entries. */
  function Swept<V>(m: map<string, V>, expiry: V -> int64, now: int64): (r: map<string, V>)
    ensures r.Keys <= m.Keys
    ensures forall k :: k in r ==> r[k] == m[k] && !Expired(r[k], expiry, now)
    ensures forall k :: k in m && !Expired(m[k], expiry, now) ==> k in r
  {
    map k | k in m && !Expired(m[k], expiry, now) :: m[k]
  }

  /** One iteration of the sweep loop: visit `key` and delete it if its entry has expired. */
  function SweepStep<V>(m: map<string, V>, key: string, expiry: V -> int64, now: int64): (r: map<string, V>)
    ensures forall k :: k in r <==> k in m && (k != key || !Expired(m[k], expiry, now))
    ensures forall k :: k in r ==> r[k] == m[k]
  {
    if key in m && Expired(m[key], expiry, now) then m - {key} else m
  }

  /**
   The sweep loop when the map's range iteration happens to visit the keys in
   the order `order`: one `SweepStep` per visited key, first to last. Keys are
   only ever deleted, surviving values are untouched, a key the pass never
   visits survives, and a visited key whose entry has expired is gone.
   */
  function SweepInOrder<V>(m: map<string, V>, order: seq<string>, expiry: V -> int64, now: int64): (r: map<string, V>)
    ensures forall k :: k in r ==> k in m && r[k] == m[k]
    ensures forall k :: k in m && k !in order ==> k in r
    ensures forall k :: k in m && k in order && Expired(m[k], expiry, now) ==> k !in r
    decreases |order|
  {
    if order == [] then m
    else SweepStep(SweepInOrder(m, order[..|order| - 1], expiry, now), order[|order| - 1], expiry, now)
  }

  /**
   Visiting keys in any order deletes exactly the expired entries among the
   visited keys and keeps everything else unchanged.
   */
  lemma {:induction false} SweepInOrderFilters<V>(m: map<string, V>, order: seq<string>, expiry: V -> int64, now: int64)
    ensures SweepInOrder(m, order, expiry, now)
         == map k | k in m && (k !in order || !Expired(m[k], expiry, now)) :: m[k]
    decreases |order|
  {
    if order != [] {
      SweepInOrderFilters(m, order[..|order| - 1], expiry, now);
    }
  }

  /**
   The outcome of a sweep does not depend on the order in which the map's
   range iteration visits the keys: any order that visits every key yields `Swept`.
   */
  lemma SweepOrderIndependent<V>(m: map<string, V>, order: seq<string>, expiry: V -> int64, now: int64)
    requires forall k :: k in m ==> k in order
    ensures SweepInOrder(m, order, expiry, now) == Swept(m, expiry, now)
  {
    SweepInOrderFilters(m, order, expiry, now);
  }

  /** The cache: its table is the only state the operations change. */
  class GenericCache<V> {
    var cacheMap: map<string, V>
    /** `GetExpiryDate()` of the value type. */
    const expiry: V -> int64
    /** The zero value of the value type, which `Get` returns with its error. */
    const zero: V

    /** A new cache holds no entries. */
    constructor (expiry: V -> int64, zero: V)
      ensures cacheMap == map[]
      ensures this.expiry == expiry && this.zero == zero
    {
      cacheMap := map[];
      this.expiry := expiry;
      this.zero := zero;
    }

    /**
     Looks `key` up. Expiry is not consulted: an entry that has expired but
     has not been swept yet is still returned.
     */
    method Get(key: string) returns (value: V, err: Option<Error>)
      ensures err == None <==> key in cacheMap
      ensures key in cacheMap ==> value == cacheMap[key]
      ensures key !in cacheMap ==> value == zero && err == Some(ErrItemNotInCache)
    {
      if key in cacheMap {
        value, err := cacheMap[key], None;
      } else {
        value, err := zero, Some(ErrItemNotInCache);
      }
    }

    /** Inserts or overwrites the entry for `key`; never fails. */
    method Set(key: string, value: V) returns (err: Option<Error>)
      modifies this`cacheMap
      ensures cacheMap == old(cacheMap)[key := value]
      ensures cacheMap.Keys == old(cacheMap).Keys + {key}
      ensures forall k :: k != key && k in old(cacheMap) ==> cacheMap[k] == old(cacheMap)[k]
      ensures err == None
    {
      cacheMap := cacheMap[key := value];
      err := None;
    }

    /**
     One pass of the cleanup loop at clock `now`: visits every key once, in
     an unspecified order, and deletes the entries that have expired.
     */
    method Sweep(now: int64)
      modifies this`cacheMap
      ensures cacheMap == Swept(old(cacheMap), expiry, now)
    {
      ghost var visited: seq<string> := [];
      var pending := cacheMap.Keys;
      while pending != {}
        invariant pending <= old(cacheMap).Keys
        invariant forall k :: k in old(cacheMap) ==> k in pending || k in visited
        invariant forall k :: k in pending ==> k in cacheMap && k !in visited
        invariant cacheMap == SweepInOrder(old(cacheMap), visited, expiry, now)
        decreases pending
      {
        var key :| key in pending;
        var value := cacheMap[key];
        if Expired(value, expiry, now) {
          cacheMap := cacheMap - {key};
        }
        assert (visited + [key])[..|visited|] == visited;
        visited := visited + [key];
        pending := pending - {key};
      }
      SweepOrderIndependent(old(cacheMap), visited, expiry, now);
    }
  }
}
