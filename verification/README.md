# Concurrency cache: a Dafny model

This project models the Redis-backed admission control of
`backend/internal/repository/concurrency_cache.go`. It has three parts:

- **Slot ledgers.** There is one sorted set per account (`concurrency:account:{id}`) and one per user (`concurrency:user:{id}`). A member is a request ID and its score is its admission time in seconds on the Redis clock. The acquire script sweeps stale members. It then refreshes a request that is already present, or adds a new one while the live count is below `maxConcurrency`. The count script sweeps, then counts. Release is a single `ZREM`.
- **Wait counters.** There is one integer per user (`concurrency:wait:{id}`). The increment script refuses at or above `maxWait`. It sets the key's expiry only when the new value is 1. The decrement script decrements only a present, positive counter.
- **Key and TTL policy.** A key is a prefix followed by the decimal ID. The slot TTL is given in minutes. A value of 0 or less becomes 15 minutes, and the result is converted to seconds.

Every Lua script runs atomically in Redis, so the component is a sequential state machine. The store's clock (`TIME`) is the explicit `now` argument, frozen for the whole call.

Layout:

- `wrappers.dfy`: `Option`, `Result` and `Outcome`.
- `keys.dfy` (module `ConcurrencyKeys`, pure): the prefixes, Go's `%d` rendering with a parser that inverts it, the three key functions, and the TTL normalisation.
- `slot_ledger.dfy` (module `SlotLedger`, pure): what the scripts do to one ledger value (`Sweep`, `Admit`, `RemoveMember`, `LiveCount`), the lemmas about them, and a replay of any call sequence.
- `wait_counter.dfy` (module `WaitCounter`, pure): `Increment` and `Decrement` on one counter value, with their lemmas and a replay.
- `store.dfy` (module `RedisStore`): class `Store`, which holds Redis's `keyspace` (key to sorted set or integer) and `expires` (key to expiry instant). The Redis commands the scripts use are methods. Each script is a method built from those commands, line by line as in the Lua. Its contract ties the new state of its key to the `SlotLedger` or `WaitCounter` function applied to what the key held at `now`, and says every other key is untouched. Three more rules are modelled:
  - a key whose expiry has passed is deleted before a command reads it (lazy expiry);
  - an empty sorted set is deleted together with its expiry;
  - a key of the wrong kind gives the `WRONGTYPE` error.
- `cache.dfy` (module `Cache`): class `ConcurrencyCache`, a store handle plus `slotTTLSeconds`, with the Go operations as methods. A reply of 1 means granted, and an error becomes `Failure`/`Fail`. While every key holds the kind of value its prefix promises (`KeysWellKinded`), no operation fails and that property is kept. Three client methods walk through the slot-limit, wait-limit and stale-slot scenarios; they are proved from these contracts alone.

Two behaviours of the code are easy to misread, and the model follows the code in both:
- One might expect the live count never to exceed the limit passed to the latest successful acquire. The acquire script (`backend/internal/repository/concurrency_cache.go:57-62`) refreshes a request that is already present before it looks at the limit. So the count is bounded only while every acquire uses the same limit, and a refresh under a lower limit still succeeds (`SlotLedger.LoweredLimitIsNotEnforced`).
- The comments on the increment script (`backend/internal/repository/concurrency_cache.go:92` and `:110`) say the expiry is set only on first creation. The code (`backend/internal/repository/concurrency_cache.go:111-113`) sets it whenever the increment yields 1. That includes a counter that was decremented back to 0 (`WaitCounter.ExpiryResetAfterDrain`).

The methods of `RedisStore.Store` named after Redis commands (`ZRemRangeByScore`, `ZScore`, `ZCard`, `ZAdd`, `Expire`, `Get`, `Incr`, `Decr`), together with `ExpireIfNeeded`, `PutLedger` and `ZAddAndExpire`, model Redis rather than this repository, so they have no rows below. Each requires the key to hold the kind of value the command works on. The scripts check that kind first and reply `WRONGTYPE` otherwise, as Redis does at the script's first command.

## Model

| member | source | states |
|---|---|---|
| `ConcurrencyKeys.Decimal` | backend/internal/repository/concurrency_cache.go:146-156 | the `%d` digits of an ID are all decimal digits, with no leading zero |
| `ConcurrencyKeys.DecimalRoundTrip` | backend/internal/repository/concurrency_cache.go:146-156 | reading the digits back gives the number |
| `ConcurrencyKeys.FormatInt` | backend/internal/repository/concurrency_cache.go:146-156 | `%d` of a signed ID starts with '-' exactly when the ID is negative |
| `ConcurrencyKeys.FormatIntRoundTrip` | backend/internal/repository/concurrency_cache.go:146-156 | `ParseInt` inverts `%d` on every 64-bit ID |
| `ConcurrencyKeys.FormatIntInjective` | backend/internal/repository/concurrency_cache.go:146-156 | distinct IDs render as distinct strings |
| `ConcurrencyKeys.AccountSlotKey` | backend/internal/repository/concurrency_cache.go:146-148 | the key is `concurrency:account:` followed by text that parses back to the account ID |
| `ConcurrencyKeys.UserSlotKey` | backend/internal/repository/concurrency_cache.go:150-152 | the key is `concurrency:user:` followed by text that parses back to the user ID |
| `ConcurrencyKeys.WaitQueueKey` | backend/internal/repository/concurrency_cache.go:154-156 | the key is `concurrency:wait:` followed by text that parses back to the user ID |
| `ConcurrencyKeys.KeySpacesDisjoint` | backend/internal/repository/concurrency_cache.go:22-29 | no key has two of the three prefixes |
| `ConcurrencyKeys.KeysIdentifyTheirOwner` | backend/internal/repository/concurrency_cache.go:146-156 | each key function is one-to-one, and keys of different kinds never coincide |
| `ConcurrencyKeys.SlotTTLSeconds` | backend/internal/repository/concurrency_cache.go:135-142 | the TTL is a positive whole number of minutes in seconds: the configured minutes when positive, else 15 |
| `SlotLedger.Sweep` | backend/internal/repository/concurrency_cache.go:49-54 | the sweep keeps exactly the members scored above `now - ttl` (the removed range is inclusive), each with its score |
| `SlotLedger.AdmitOutcome` | backend/internal/repository/concurrency_cache.go:42-73 | a request is granted iff it is still live or the live count is below the limit; a granted request is stamped `now`, a refused one is absent; every other member survives iff it is live, with its score |
| `SlotLedger.RemoveMember` | backend/internal/repository/concurrency_cache.go:170-173 | ZREM: the request is gone, every other member is kept with its score, and the count drops by one exactly when the request was present |
| `SlotLedger.LiveCount` | backend/internal/repository/concurrency_cache.go:79-90 | the count script's reply never exceeds the stored count, and it is 0 exactly when every member is at least one TTL old |
| `SlotLedger.SweepNeverGrows` | backend/internal/repository/concurrency_cache.go:84-88 | a sweep never raises the count, and leaves an all-fresh ledger as it is |
| `SlotLedger.SweepTwice` | backend/internal/repository/concurrency_cache.go:84-88 | two sweeps equal one sweep at the later cut-off, so a sweep is idempotent |
| `SlotLedger.AdmitRefreshesLiveRequest` | backend/internal/repository/concurrency_cache.go:57-62 | a request present after the sweep is granted even at capacity; only its score moves to `now`, and the member set is unchanged |
| `SlotLedger.AdmitNewRequest` | backend/internal/repository/concurrency_cache.go:64-72 | a new request is granted iff the swept count is below the limit; it then joins with score `now`, and otherwise the ledger is the swept one |
| `SlotLedger.AdmitRefusalOnlySweeps` | backend/internal/repository/concurrency_cache.go:64-72 | acquire refuses exactly when the request is absent and the swept count has reached the limit, and a refusal leaves only the sweep |
| `SlotLedger.AdmitKeepsBound` | backend/internal/repository/concurrency_cache.go:57-70 | one acquire with limit M keeps a ledger of at most M members at most M |
| `SlotLedger.ReacquireWithinTTL` | backend/internal/repository/concurrency_cache.go:49-62 | a granted request is granted again at any later call within its TTL, whatever the limit, without raising the count |
| `SlotLedger.LoweredLimitIsNotEnforced` | backend/internal/repository/concurrency_cache.go:57-62 | a refresh under a lower limit succeeds and leaves the ledger above that limit |
| `SlotLedger.RemoveMemberOnlyRemovesIt` | backend/internal/repository/concurrency_cache.go:170-173 | release removes only the given request; releasing it again, or releasing an absent one, changes nothing |
| `SlotLedger.CountAfterTTLIsZero` | backend/internal/repository/concurrency_cache.go:84-89 | one TTL after the last admission the count is 0 |
| `SlotLedger.CountIdempotent` | backend/internal/repository/concurrency_cache.go:84-89 | counting twice at one instant gives the same count and the same ledger |
| `SlotLedger.ReplayKeepsBound` | backend/internal/repository/concurrency_cache.go:42-90 | under one fixed limit M, any sequence of acquires, releases, counts and key expiries keeps a ledger that starts at or below M at or below M |
| `WaitCounter.Current` | backend/internal/repository/concurrency_cache.go:97-102 | GET in the scripts: an absent key reads as 0, a present one as its value |
| `WaitCounter.Increment` | backend/internal/repository/concurrency_cache.go:96-116 | granted iff the count (absent reads 0) is below `maxWait`; granted adds exactly one; refused changes nothing; expiry is set iff the count was 0 |
| `WaitCounter.Decrement` | backend/internal/repository/concurrency_cache.go:119-125 | a positive counter drops by one; a zero, negative or absent counter is left as it is |
| `WaitCounter.DecrementUndoesIncrement` | backend/internal/repository/concurrency_cache.go:96-125 | a leave right after a granted entry restores the count |
| `WaitCounter.IncrementUndoesDecrement` | backend/internal/repository/concurrency_cache.go:96-125 | an entry right after a leave from a count in (0, maxWait] is granted and restores the stored counter |
| `WaitCounter.ExpiryResetAfterDrain` | backend/internal/repository/concurrency_cache.go:108-113 | expiry is set on creation, and again when a counter drained to 0 is incremented, but not on other increments |
| `WaitCounter.ReplayWaitKeepsRange` | backend/internal/repository/concurrency_cache.go:96-125 | under one fixed `maxWait`, any sequence of increments, decrements and expiries keeps the counter absent or in [0, maxWait] |
| `RedisStore.Store.Acquire` | backend/internal/repository/concurrency_cache.go:42-73 | the key ends up holding `Admit` of its live ledger (deleted if empty); reply 1 iff granted; a grant sets the key's expiry to `now + ttl`; other keys are untouched; a counter key gives WRONGTYPE and no change |
| `RedisStore.Store.AdmitSwept` | backend/internal/repository/concurrency_cache.go:56-72 | on a swept key, grants iff the request is present or the count is below the limit; a grant sets the request's score to `now` and the key's expiry to `now + ttl`; a refusal changes nothing |
| `RedisStore.Store.GetCount` | backend/internal/repository/concurrency_cache.go:79-90 | replies with the swept cardinality, and the swept ledger becomes the stored state |
| `RedisStore.Store.ZRem` | backend/internal/repository/concurrency_cache.go:170-173 | the key loses exactly that member; the key's expiry is kept unless the set empties |
| `RedisStore.Store.IncrementWait` | backend/internal/repository/concurrency_cache.go:96-116 | the key holds `Increment` of its live counter; the expiry becomes `now + ttl` only when the new value is 1 |
| `RedisStore.Store.DecrementWait` | backend/internal/repository/concurrency_cache.go:119-125 | the key holds `Decrement` of its live counter with its expiry unchanged; the reply is always 1 |
| `Cache.ConcurrencyCache.constructor` | backend/internal/repository/concurrency_cache.go:135-143 | keeps the store and the normalised TTL in seconds |
| `Cache.ConcurrencyCache.AcquireSlot` | backend/internal/repository/concurrency_cache.go:160-168 | the shared acquire body: the acquire script on a slot key with the cache's TTL; `Ok(true)` iff the reply is 1; fails exactly when the key holds a counter, and then changes nothing; never fails while keys are well kinded |
| `Cache.ConcurrencyCache.ReleaseSlot` | backend/internal/repository/concurrency_cache.go:170-173 | the shared release body: ZREM on a slot key; fails exactly when the key holds a counter, and then changes nothing |
| `Cache.ConcurrencyCache.GetConcurrency` | backend/internal/repository/concurrency_cache.go:175-183 | the shared count body: the swept count of a slot key, stored swept; fails exactly when the key holds a counter, and then changes nothing |
| `Cache.ConcurrencyCache.AcquireAccountSlot` | backend/internal/repository/concurrency_cache.go:160-168 | runs the acquire script on the account key with the cache's TTL; `Ok(true)` iff the reply is 1; a failure changes nothing; never fails while keys are well kinded |
| `Cache.ConcurrencyCache.ReleaseAccountSlot` | backend/internal/repository/concurrency_cache.go:170-173 | removes the request from the account ledger only; a failure changes nothing |
| `Cache.ConcurrencyCache.GetAccountConcurrency` | backend/internal/repository/concurrency_cache.go:175-183 | returns the swept count of the account ledger, which is stored swept; a failure changes nothing |
| `Cache.ConcurrencyCache.AcquireUserSlot` | backend/internal/repository/concurrency_cache.go:187-195 | as the account variant, on the user key |
| `Cache.ConcurrencyCache.ReleaseUserSlot` | backend/internal/repository/concurrency_cache.go:197-200 | as the account variant, on the user key |
| `Cache.ConcurrencyCache.GetUserConcurrency` | backend/internal/repository/concurrency_cache.go:202-210 | as the account variant, on the user key |
| `Cache.ConcurrencyCache.IncrementWaitCount` | backend/internal/repository/concurrency_cache.go:214-221 | runs the increment script on the wait key with the cache's TTL; `Ok(true)` iff the reply is 1 |
| `Cache.ConcurrencyCache.DecrementWaitCount` | backend/internal/repository/concurrency_cache.go:223-227 | runs the decrement script on the wait key; its reply is discarded |

## Left out

- The Redis client, script loading and `Run`, `context.Context` and transport errors: the only failure modelled is the `WRONGTYPE` error of a key that holds the other kind of value. It becomes `Failure`/`Fail`, as a Go `error` would.
- Concurrency across processes: each script is one atomic step, and the model is a sequence of such steps.
- The Redis clock: `now` is a parameter in whole seconds. The scripts also ignore the microseconds that `TIME` returns. Key expiry in Redis has millisecond precision; here a key is gone once `now` is past its expiry instant.
- Redis's background (active) expiry: only the deletion of an expired key when a command touches it is modelled. The operations here cannot tell the two apart.
- Lua numbers are doubles; the model uses exact integers, so limits and scores beyond 2^53 are not modelled.
- ConcurrencyKeys.SlotTTLSeconds: `minutes * 60` is computed on unbounded integers. Go's 64-bit `int` would wrap for more than 153722867280912930 minutes.
- RedisStore.Store.Acquire: requires `ttl > 0`, which the cache always passes. `EXPIRE` with a non-positive TTL deletes the key, and that is not modelled.
- RedisStore.Store.IncrementWait: requires `ttl > 0` for the same reason.
- A wait key holding text that is not a number, which makes `tonumber` fail in the scripts: the model's keys hold only what the scripts write.
- `fmt.Sprintf` is modelled only through `%d` of an integer after a fixed prefix.
- `backend/internal/pkg/sysutil/restart.go` (service restart plumbing) and `backend/internal/config/config_test.go` are not part of this model.
