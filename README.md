# Generic TTL cache

A model of `genericcache`, an in-memory time-to-live cache written with Go
generics. The cache is a table from string keys to values of a type that
reports its own absolute expiry time in Unix seconds (`GetExpiryDate()`).
`Get` looks a key up without looking at expiry, `Set` inserts or overwrites,
and a background cleanup loop wakes on every tick and deletes every entry
whose expiry is at or before the current Unix time.

- `cache.dfy`, module `Cache`: the class `GenericCache<V>` with the table
  `cacheMap` as its mutable field, the value type's `GetExpiryDate()` as the
  function `expiry`, and the value type's zero value as `zero`. `Get` only
  reads, so it has no `modifies` clause. `Set` and `Sweep` change `cacheMap`
  and nothing else. `Sweep` is the body of the ticker branch of the cleanup
  loop: a loop that visits every key once in an unspecified order and deletes
  expired entries from the table it is iterating over. It is proved against
  `Swept`, the table filtered to its unexpired entries. `SweepInOrder` is the
  same loop for one fixed visiting order, and `SweepOrderIndependent` shows
  that every visiting order gives `Swept`: with one clock reading per pass,
  the result does not depend on Go's randomised map iteration order.
- `cache_laws.dfy`, module `CacheLaws`: how sweeps compose, how a write
  interacts with a later sweep, and the scenarios of the test file. Each
  scenario is a client method that creates a fresh cache and calls its
  operations.

Expiry times and clock readings are the signed 64-bit type `int64`, as in
the source. They are only compared, never computed with, so no overflow
arises. The single error, `ErrItemNotInCache`, is the datatype `Error`, and
Go's `nil` error is `None`.

## Model

| member | source | states |
|---|---|---|
| `Cache.Expired` | cache.go:89 | an entry is expired at clock `now` when its expiry is `<= now`: an entry whose expiry equals the current second counts as expired; no contract of its own, it is the test every sweep member uses |
| `Cache.Swept` | cache.go:88-91 | after a sweep at `now`, no remaining entry has expiry `<= now`; every entry with expiry `> now` survives with its value unchanged; no key is added |
| `Cache.SweepStep` | cache.go:89-91 | one loop iteration deletes the visited key exactly when its entry has expired and leaves every other entry as it was |
| `Cache.SweepInOrder` | cache.go:88-91 | the range loop run in one fixed visiting order; its contract: keys are only deleted and surviving values are untouched, an unvisited key survives, a visited expired key is gone; `SweepInOrderFilters` gives its exact result |
| `Cache.SweepInOrderFilters` | cache.go:88-91 | the loop run over any sequence of keys removes exactly the expired entries among the visited keys and keeps all other entries unchanged |
| `Cache.SweepOrderIndependent` | cache.go:88-91 | whatever order the range iteration visits the keys in, a pass that visits every key leaves exactly the unexpired entries |
| `Cache.GenericCache.constructor` | cache.go:36-41 | a new cache starts with an empty table |
| `Cache.GenericCache.Get` | cache.go:54-64 | no error exactly when the key is in the table, and then the stored value, expired or not; otherwise the zero value and `ErrItemNotInCache`; the table is not changed |
| `Cache.GenericCache.Set` | cache.go:67-74 | the table afterwards maps `key` to the new value, overwriting any old one; every other key keeps its value; the key set grows by at most `key`; the error is always nil |
| `Cache.GenericCache.Sweep` | cache.go:86-93 | the loop that deletes while iterating leaves exactly the entries of the old table whose expiry is after `now` |
| `CacheLaws.SweepIdempotent` | cache.go:88-91 | a second sweep at the same clock changes nothing |
| `CacheLaws.SweepsCompose` | cache.go:82-94 | two sweeps at clocks `earlier <= later`, in either order, leave the same table as one sweep at `later` |
| `CacheLaws.SetThenSweep` | cache.go:67-93 | a sweep after `Set(key, v)` keeps `key` with `v` exactly when `v` has not expired and sweeps every other entry as if the write had not happened |
| `CacheLaws.GetFromNewCache` | cache_test.go:41-46 | `Get` on a new cache reports `ErrItemNotInCache` and returns the zero value, for every key |
| `CacheLaws.SetThenGet` | cache_test.go:114-122 | `Set` reports no error, and a `Get` right after it returns the written value with no error, even when that value has already expired |
| `CacheLaws.OverwriteThenGet` | cache.go:71 | after `Set(k, v1)` and `Set(k, v2)`, `Get(k)` returns `v2`: the last write wins |
| `CacheLaws.SetDistinctKeysThenGet` | cache.go:71 | writes to two distinct keys are both read back unchanged: no write is lost |
| `CacheLaws.SetSweepGet` | cache_test.go:48-57 | after a write and a sweep at `now`, `Get` finds the written value exactly when its expiry is after `now`, and otherwise reports `ErrItemNotInCache` with the zero value |
| `CacheLaws.SetSweepSetGet` | cache.go:67-93 | a key written again after a sweep is found with the new value, whatever the sweep did to the old one |

## Left out

- The goroutine, the `time.Ticker`, the `stop` channel and the `sync.WaitGroup` (cache.go:43-47, 79-86) are scheduling. The model has no background task: each tick is an explicit `Sweep(now)` call, and the sweep interval passed to `NewGenericCache` does not appear.
- The `sync.RWMutex` (cache.go:31, 55-56, 68-69, 87, 93) only serialises the operations. The model is sequential, so every operation already runs alone.
- `Cache.GenericCache.Sweep`: the wall clock is the parameter `now`, read once per sweep. The source calls `time.Now().Unix()` again for every entry (cache.go:89), so within one pass a later entry can be compared against a later second. The model does not capture that drift, and with it the program's order dependence: in a pass that crosses from second T to T+1, an entry with expiry T+1 survives if it is visited at T and is deleted if it is visited at T+1, so which entries go depends on the map's iteration order.
- `Cache.GenericCache`: `GetExpiryDate` is modelled as the fixed function `expiry` of the stored value. Values stored as pointers (cache_test.go:17-19) can have their expiry changed through aliasing between two sweeps without a `Set`; the model does not capture that, and `CacheLaws.SweepsCompose` holds in the program only when no expiry changes between the two sweeps.
- The value type's zero value is a constant `zero` given to the constructor. Dafny has no generic zero value to name.
- `fmt.Errorf` and Go's `error` interface (cache.go:14) are the one-constructor datatype `Error` inside an `Option`.
- Nil pointer values stored through `Set` (cache_test.go:100-103), on which a sweep would call `GetExpiryDate` and panic, are Go pointer behaviour and are not modelled; `expiry` is total.
- The test file's timing (`time.Sleep`) and assertions are not modelled; their scenarios are the client methods of `CacheLaws`. The test file refers to `ItemNotInCache` (cache_test.go:45, 55), which does not exist; the error is `ErrItemNotInCache` (cache.go:14).
