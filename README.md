# Per-key rate limiter, modelled in Dafny

The system is a generic in-process rate limiter. Each caller-supplied key
gets its own counter (`limit`). The counter holds how much burst capacity
the key has consumed (`amount`) and the millisecond time of its next decay
(`next`). An admission check (`call`) reserves one unit and takes it back
when that would exceed the burst. The answer to a refused check carries the
time of the next decay. A decay step (`tick`) gives one unit back. A counter
left with nothing consumed removes its key from the registry. The registry
(`Limiter`) maps keys to counters. It clamps its settings when it is built.
It creates a key's counter on the key's first check and then hands the check
to that counter.

Project layout:

- `wrappers.dfy`: module `Wrappers`, an `Option` type.
- `limit_spec.dfy`: module `LimitSpec`, the counter on values. It holds
  `Admit` for `call`, `Decay` for `tick`, runs of them (`Calls`, `Idle`),
  and the lemmas about those runs: the burst bound, decay restoring
  capacity, and idle expiry.
- `rate_limiter.dfy`: module `RateLimiter`. It has the class `Limit`, whose
  `Call` and `Tick` update `amount` and `next` in place and are proved to
  follow `Admit` and `Decay`. It has the class `Limiter`, whose `limits` map
  `Try`, `InsertIfAbsent` and `Remove` update in place. `Limiter.Valid()`
  states the registry's invariant: the settings are in range, no counter is
  stored under two keys, and every stored counter is at rest, between 0 and
  `maxBurst`. It also has `Configure` and `New` for construction.

Time is a millisecond `int` passed in as `now`. The zero `time.Time{}` that
an admitted check returns is the sentinel `ZeroTime = 0`. The panic in `New`
is the result `None`.

## Model

| member | source | states |
|---|---|---|
| `LimitSpec.Admit` | limit.go:43-51 | a check is admitted exactly when the capacity consumed is below the burst; admitted, it consumes one more unit and answers the zero time; refused, the increment is undone and it answers `next`; `next` never changes; a resting amount stays within [0, maxBurst] |
| `LimitSpec.Decay` | limit.go:34-41 | a decay step gives back exactly one unit; it expires the limit exactly when the amount left is below one, leaving `next` unchanged, and otherwise moves `next` on by exactly one period |
| `LimitSpec.CallsPattern` | limit.go:43-51 | in a run of checks with no decay, the i-th check is admitted exactly when amount + i < maxBurst; consumption stops at the burst |
| `LimitSpec.AdmitsRemainingCapacity` | limit.go:43-51 | from a resting amount, n checks in a row admit exactly min(n, maxBurst - amount) and leave amount min(amount + n, maxBurst) with `next` unchanged |
| `LimitSpec.BurstFromFresh` | limit.go:15-17 | a newly created limit admits exactly min(n, maxBurst) of n immediate checks, the first maxBurst of them, and refuses the rest |
| `LimitSpec.ThreeOfFour` | limit.go:45-50 | with a burst of three, four immediate checks on a new limit answer true, true, true, false |
| `LimitSpec.DecayRestoresOne` | limit.go:34-51 | once the burst is used up a check is refused; after one decay step exactly one more check is admitted, whether the limit survived the step or expired and was recreated |
| `LimitSpec.IdleExpiry` | limit.go:34-41 | with no checks, a limit that has consumed a units survives exactly a - 1 decay steps, with `next` advanced by one period per step, and the a-th step expires it |
| `RateLimiter.Configure` | limiter.go:17-32 | construction fails exactly when the requested burst exceeds 2^31 - 1; a burst or period below one becomes one, any other value is kept |
| `RateLimiter.ConfigureKeepsValid` | limiter.go:18-26 | settings already in range come out unchanged |
| `RateLimiter.ConfigureClampsToOne` | limiter.go:18-26 | any burst or period below one configures exactly like one, so New(0, 0) behaves like New(1, 1) |
| `RateLimiter.New` | limiter.go:17-33 | panics (None) exactly when `Configure` refuses; otherwise returns a new valid limiter with the clamped settings and an empty map |
| `RateLimiter.Limit.constructor` | limit.go:14-19 | a new limit has amount 0 and its next decay at the creation time |
| `RateLimiter.Limit.Call` | limit.go:43-51 | the in-place increment, check and undo answer and leave exactly what `Admit` gives for the old fields |
| `RateLimiter.Limit.Tick` | limit.go:34-41 | the fields become what `Decay` gives; on expiry the key is removed from the owner's map whatever limit is stored under it, otherwise the map is untouched; the owner's invariant is kept |
| `RateLimiter.Limiter.constructor` | limiter.go:27-32 | a limiter with the given settings and no keys |
| `RateLimiter.Limiter.Lookup` | limiter.go:36-38 | finds the limit stored under the key, or reports that there is none |
| `RateLimiter.Limiter.InsertIfAbsent` | limiter.go:41-49 | a limit already stored under the key is kept and returned instead of being overwritten; otherwise the new limit is stored under the key and nothing else changes |
| `RateLimiter.Limiter.Try` | limiter.go:35-52 | the key's counter, or a new one created at `now`, answers as `Admit` says; only that key's state changes; an existing entry stays the same object; an absent key ends up mapped to a new limit; the registry invariant is kept |
| `RateLimiter.Limiter.Remove` | limiter.go:54-58 | the key is absent afterwards and every other entry is unchanged; removing an absent key changes nothing |

## Code and design differences

The model follows the code where the code and the design description differ:

- `newLimit` sets `next` to the creation time (limit.go:17), not to the
  creation time plus one period. So a check refused before the first decay
  answers the creation time, which is already past. After k decay steps,
  `next` is the time of the k-th step, not the (k+1)-th. The design
  describes `next` as the time of the next decay.
- `tick` removes its key from the registry by key alone (limit.go:37,
  limiter.go:57). A limit that lost the creation race (limiter.go:44-45)
  keeps ticking. When it expires, it deletes the entry of the limit that won
  the race. The design calls such a limit inert. `Limit.Tick`'s contract
  states the removal without regard to which limit is stored under the key.

## Left out

- The `run` loop, the ticker and the context (limit.go:16, 22-32): decay
  is modelled as explicit calls to `Limit.Tick`. Stopping the ticker is not
  modelled. Neither is cancellation, which stops decay without removing
  entries.
- `newLimit` calls `run` directly rather than in a goroutine (limit.go:18).
  As written, `newLimit` does not return before the context ends. The model
  treats `newLimit` as initialisation only.
- Locking (`sync.RWMutex`): `Try` and `Remove` are atomic sequential steps.
  The race window between the read-locked lookup and the write-locked
  insert is not reproduced. Inside `Try`, `InsertIfAbsent` always finds the
  key absent. Its keep-the-existing-entry branch is stated by its own
  contract.
- Atomics (`atomic.Int32`, `atomic.Int64`): plain `int` fields updated in
  sequence. Linearizability of concurrent checks is not modelled.
- Wall-clock time (`time.Now`, `time.UnixMilli`, `time.Time{}`): an integer
  millisecond parameter, and the sentinel 0 for the zero time.
- Integer widths: `amount`, `next` and `period` are unbounded. The int32 and
  int64 wrap-around is not modelled. Only the explicit int32 bound on the
  burst in `New` is kept.
- The `ctx` argument of `Try` only feeds the decay goroutine, so it is
  dropped.
- RateLimiter.Limit.Tick: requires that the ticking limit is stored under no
  key other than its own. The source guarantees this by construction, since
  a limit is only ever inserted under the key it was created for.
