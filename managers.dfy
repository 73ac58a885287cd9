/**
 * `BaseObjectManager`: an object holding a string-keyed cache that a flush
 * empties when forced or when more than `timeLimit` seconds have passed since
 * the last flush. The clock reading is passed in as `now`.
 */
module Managers {
  import opened Results
  import opened Dicts
  import opened CacheModel

  class BaseObjectManager<V> {
    /** `_cache` */
    var cache: Dict<V>
    /** `_timestamp`: the time of construction or of the last flush that fired. */
    var timestamp: int
    /** `_time_limit`: assigned only by the constructor. */
    const timeLimit: int

    /** The manager's state as a `CacheModel.Cache` value. */
    function State(): (c: Cache<V>)
      reads this
      ensures c.entries == cache && c.timestamp == timestamp && c.timeLimit == timeLimit
    {
      Cache(cache, timestamp, timeLimit)
    }

    /** `BaseObjectManager(time_limit)` at clock reading `now`. */
    constructor (now: int, timeLimit: int := 300)
      ensures State() == Init(now, timeLimit)
    {
      cache := map[];
      timestamp := now;
      this.timeLimit := timeLimit;
    }

    /** `_add_to_cache_(key, value)` */
    method AddToCache(key: string, value: V)
      modifies this
      ensures State() == Put(old(State()), key, value)
      ensures State() == Step(old(State()), AddOp(key, value))
      ensures IsInCache(key) && GetFromCache(key) == Ok(value)
    {
      cache := Store(cache, key, value);
    }

    /** `_update_in_cache_(key, value)`: the same effect as `AddToCache`. */
    method UpdateInCache(key: string, value: V)
      modifies this
      ensures State() == Put(old(State()), key, value)
      ensures State() == Step(old(State()), UpdateOp(key, value))
      ensures IsInCache(key) && GetFromCache(key) == Ok(value)
    {
      cache := Store(cache, key, value);
    }

    /** `_get_from_cache_(key)`: the stored value, or KeyError when the key is absent. */
    function GetFromCache(key: string): (r: Result<V>)
      reads this
      ensures r.Ok? <==> key in cache
      ensures r.Ok? ==> r.value == cache[key]
      ensures r.Err? ==> r.error == KeyError(key)
    {
      Get(State(), key)
    }

    /** `_is_in_cache_(key)`: true exactly when `GetFromCache(key)` would not raise. */
    predicate IsInCache(key: string)
      reads this
      ensures IsInCache(key) <==> GetFromCache(key).Ok?
    {
      Has(State(), key)
    }

    /** `_remove_from_cache_(key)`: deletes only that key, or raises KeyError and changes nothing. */
    method RemoveFromCache(key: string) returns (r: Outcome)
      modifies this
      ensures r.Pass? <==> key in old(cache)
      ensures r.Fail? ==> r.error == KeyError(key) && State() == old(State())
      ensures r.Pass? ==> Remove(old(State()), key) == Ok(State())
      ensures State() == Step(old(State()), RemoveOp(key))
    {
      match Remove(State(), key)
      case Ok(c) =>
        cache := c.entries;
        r := Pass;
      case Err(e) =>
        r := Fail(e);
    }

    /** `_check_time_limit_()` at clock reading `now`: the deadline `timestamp + timeLimit` has passed. */
    predicate CheckTimeLimit(now: int)
      reads this
      ensures CheckTimeLimit(now) <==> now > timestamp + timeLimit
    {
      IsStale(State(), now)
    }

    /**
     * `_flush_cache_(force)` at clock reading `now`: empties the cache and
     * restarts the clock when forced or past the deadline, else does nothing.
     */
    method FlushCache(now: int, force: bool := false)
      modifies this
      ensures State() == Flush(old(State()), now, force)
      ensures State() == Step(old(State()), FlushOp(force, now))
      ensures force || old(CheckTimeLimit(now)) ==> cache == map[] && timestamp == now
      ensures !force && !old(CheckTimeLimit(now)) ==> cache == old(cache) && timestamp == old(timestamp)
    {
      if force || CheckTimeLimit(now) {
        cache := map[];
        timestamp := now;
      }
    }
  }
}
