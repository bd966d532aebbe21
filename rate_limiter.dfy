/**
 * The rate limiter of limit.go and limiter.go: a registry (`Limiter`) that
 * maps each key to its own decaying counter (`Limit`), creates the counter
 * on a key's first check and drops it when the counter decays to nothing.
 * Locks, atomics, timers and the clock are abstracted: every operation
 * runs as one sequential step and the current time is a parameter.
 */
module RateLimiter {
  import opened Wrappers
  import opened LimitSpec

  /** The largest value an int32 holds; `maxBurst` is stored as one. */
  const MaxInt32: int := 0x7fff_ffff

  /** The settings a limiter keeps for its whole life. */
  datatype Config = Config(maxBurst: int, period: int)

  predicate ValidConfig(c: Config)
  {
    1 <= c.maxBurst <= MaxInt32 && 1 <= c.period
  }

  /**
   * The settings `New` arrives at: a burst or a period below one is
   * raised to one, and a burst beyond the int32 range is refused (None,
   * where `New` panics).
   */
  function Configure(maxBurst: int, periodMillis: int): (r: Option<Config>)
    ensures r.Some? <==> maxBurst <= MaxInt32
    ensures r.Some? ==> ValidConfig(r.value)
    ensures r.Some? && 1 <= maxBurst ==> r.value.maxBurst == maxBurst
    ensures r.Some? && maxBurst < 1 ==> r.value.maxBurst == 1
    ensures r.Some? && 1 <= periodMillis ==> r.value.period == periodMillis
    ensures r.Some? && periodMillis < 1 ==> r.value.period == 1
  {
    var burst := if maxBurst < 1 then 1 else maxBurst;
    if burst > MaxInt32 then None
    else Some(Config(burst, if periodMillis < 1 then 1 else periodMillis))
  }

  /** Settings that are already in range are kept as they are. */
  lemma ConfigureKeepsValid(c: Config)
    requires ValidConfig(c)
    ensures Configure(c.maxBurst, c.period) == Some(c)
  {
  }

  /** Clamping: any burst or period below one configures like one, so New(0, 0) is New(1, 1). */
  lemma ConfigureClampsToOne(maxBurst: int, periodMillis: int)
    ensures Configure(maxBurst, periodMillis) ==
            Configure(if maxBurst < 1 then 1 else maxBurst, if periodMillis < 1 then 1 else periodMillis)
  {
  }

  /**
   * `New`: clamps its arguments in place, panics (None) on a burst beyond
   * the int32 range, and otherwise returns a limiter with no keys.
   */
  method New<K(==)>(maxBurst: int, periodMillis: int) returns (r: Option<Limiter<K>>)
    ensures r.Some? <==> Configure(maxBurst, periodMillis).Some?
    ensures r.Some? ==> fresh(r.value) && r.value.Valid() && r.value.limits == map[]
    ensures r.Some? ==> Some(Config(r.value.maxBurst, r.value.period)) == Configure(maxBurst, periodMillis)
  {
    var burst := maxBurst;
    if burst < 1 {
      burst := 1;
    }
    if burst > MaxInt32 {
      return None;
    }
    var period := periodMillis;
    if period < 1 {
      period := 1;
    }
    var limiter := new Limiter(burst, period);
    return Some(limiter);
  }

  /** One key's counter; its fields are updated in place. */
  class Limit {
    var amount: int
    var next: int

    /** `newLimit`: nothing consumed yet, next decay at the creation time. */
    constructor (now: int)
      ensures State() == Fresh(now)
    {
      amount := 0;
      next := now;
    }

    function State(): LimitState
      reads this
    {
      LimitState(amount, next)
    }

    /**
     * `call`: increments `amount`, and when that exceeds the burst takes
     * the increment back and answers false with the time of the next decay.
     * `period` is accepted as in the source and not used.
     */
    method Call(maxBurst: int, period: int) returns (can: bool, waitUntil: int)
      modifies this
      ensures var o := Admit(old(State()), maxBurst);
              can == o.can && waitUntil == o.waitUntil && State() == o.after
    {
      amount := amount + 1;
      var incAmount := amount;
      if incAmount > maxBurst {
        amount := amount - 1;
        return false, next;
      }
      return true, ZeroTime;
    }

    /**
     * `tick`: decrements `amount`; below one, the key this limit was made
     * for is removed from `owner` (whatever limit is stored under it), and
     * otherwise the next decay moves one period on.
     */
    method Tick<K(==)>(owner: Limiter<K>, key: K)
      requires owner.Valid()
      requires forall k :: k in owner.limits && owner.limits[k] == this ==> k == key
      modifies this, owner`limits
      ensures owner.Valid()
      ensures var d := Decay(old(State()), owner.period);
              State() == d.after &&
              owner.limits == (if d.expired then old(owner.limits) - {key} else old(owner.limits))
    {
      amount := amount - 1;
      if amount < 1 {
        owner.Remove(key);
        return;
      }
      next := next + owner.period;
    }
  }

  /** The registry: one limit per key, and the settings every limit uses. */
  class Limiter<K(==)> {
    var limits: map<K, Limit>
    const maxBurst: int
    const period: int

    /**
     * Settings in range, no limit stored under two keys, and every stored
     * limit at rest between nothing and the whole burst consumed.
     */
    ghost predicate Valid()
      reads this, limits.Values
    {
      ValidConfig(Config(maxBurst, period)) &&
      (forall k1, k2 :: k1 in limits && k2 in limits && k1 != k2 ==> limits[k1] != limits[k2]) &&
      (forall k :: k in limits ==> 0 <= limits[k].amount <= maxBurst)
    }

    /** Each key's counter, as values. */
    ghost function States(): map<K, LimitState>
      reads this, limits.Values
    {
      map k | k in limits :: limits[k].State()
    }

    constructor (maxBurst: int, period: int)
      requires ValidConfig(Config(maxBurst, period))
      ensures Valid() && limits == map[]
      ensures this.maxBurst == maxBurst && this.period == period
    {
      limits := map[];
      this.maxBurst := maxBurst;
      this.period := period;
    }

    /** The read-locked lookup at the start of `Try`. */
    method Lookup(key: K) returns (lim: Limit?, ok: bool)
      ensures ok <==> key in limits
      ensures ok ==> lim == limits[key]
      ensures !ok ==> lim == null
    {
      ok := key in limits;
      if ok {
        lim := limits[key];
      } else {
        lim := null;
      }
    }

    /**
     * The write-locked second look in `Try`: a limit already stored under
     * the key wins and is kept; otherwise the new one is stored.
     */
    method InsertIfAbsent(key: K, lim: Limit) returns (winner: Limit)
      requires Valid()
      requires lim !in limits.Values && 0 <= lim.amount <= maxBurst
      modifies this`limits
      ensures Valid()
      ensures key in old(limits) ==> winner == old(limits[key]) && limits == old(limits)
      ensures key !in old(limits) ==> winner == lim && limits == old(limits)[key := lim]
    {
      if key in limits {
        winner := limits[key];
      } else {
        limits := limits[key := lim];
        winner := lim;
      }
    }

    /**
     * `Try`: finds the key's limit or creates one at `now`, then asks it.
     * Only that key's counter changes; every other key keeps its state.
     */
    method Try(now: int, key: K) returns (can: bool, waitUntil: int)
      requires Valid()
      modifies this, limits.Values
      ensures Valid()
      ensures var before := if key in old(limits) then old(States())[key] else Fresh(now);
              var o := Admit(before, maxBurst);
              can == o.can && waitUntil == o.waitUntil &&
              States() == old(States())[key := o.after]
      ensures key in old(limits) ==> limits == old(limits)
      ensures key !in old(limits) ==>
                key in limits && fresh(limits[key]) && limits == old(limits)[key := limits[key]]
    {
      var lim, ok := Lookup(key);
      if !ok {
        lim := new Limit(now);
        lim := InsertIfAbsent(key, lim);
      }
      can, waitUntil := lim.Call(maxBurst, period);
    }

    /** `remove`: the key is gone afterwards, every other entry stays. */
    method Remove(key: K)
      modifies this`limits
      ensures limits == old(limits) - {key}
      ensures key !in old(limits) ==> limits == old(limits)
    {
      limits := limits - {key};
    }
  }
}
