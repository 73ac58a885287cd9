/**
 * The state of a `BaseObjectManager`'s time-limited cache as a value: its
 * entries, the time of the last flush (or of construction) and the time limit,
 * all in whole seconds. The clock is read by the caller and passed as `now`.
 */
module CacheModel {
  import opened Results
  import opened Dicts

  datatype Cache<V> = Cache(entries: Dict<V>, timestamp: int, timeLimit: int)

  /** A manager constructed at time `now`: an empty cache stamped `now`, with a limit of 300 seconds unless one is given. */
  function Init<V>(now: int, timeLimit: int := 300): (r: Cache<V>)
    ensures forall k :: !Has(r, k)
    ensures r.timestamp == now && r.timeLimit == timeLimit
  {
    Cache(map[], now, timeLimit)
  }

  /**
   * `_check_time_limit_`: STALE once the elapsed time strictly exceeds the
   * limit; an elapsed time equal to the limit is still FRESH.
   */
  predicate IsStale<V>(c: Cache<V>, now: int)
    ensures IsStale(c, now) <==> now > c.timestamp + c.timeLimit
  {
    now - c.timestamp > c.timeLimit
  }

  /** `_is_in_cache_`: exactly the keys whose lookup succeeds. */
  predicate Has<V>(c: Cache<V>, key: string)
    ensures Has(c, key) <==> Get(c, key).Ok?
  {
    key in c.entries
  }

  /** `_get_from_cache_`: the stored value, or KeyError when the key is absent. */
  function Get<V>(c: Cache<V>, key: string): (r: Result<V>)
    ensures r.Ok? ==> key in c.entries && r.value == c.entries[key]
    ensures r.Err? ==> key !in c.entries && r.error == KeyError(key)
  {
    Lookup(c.entries, key)
  }

  /**
   * `_add_to_cache_` and `_update_in_cache_` alike: afterwards the key is
   * present with the new value; other entries, the timestamp and the limit
   * are unchanged.
   */
  function Put<V>(c: Cache<V>, key: string, value: V): (r: Cache<V>)
    ensures Has(r, key) && Get(r, key) == Ok(value)
    ensures forall k :: k != key ==> Get(r, k) == Get(c, k)
    ensures r.timestamp == c.timestamp && r.timeLimit == c.timeLimit
  {
    c.(entries := Store(c.entries, key, value))
  }

  /**
   * `_remove_from_cache_`: deletes exactly that key, or raises KeyError when
   * it is absent (the cache is then left as it was).
   */
  function Remove<V>(c: Cache<V>, key: string): (r: Result<Cache<V>>)
    ensures r.Ok? <==> Has(c, key)
    ensures r.Err? ==> r.error == KeyError(key)
    ensures r.Ok? ==> !Has(r.value, key)
    ensures r.Ok? ==> forall k :: k != key ==> Get(r.value, k) == Get(c, k)
    ensures r.Ok? ==> r.value.timestamp == c.timestamp && r.value.timeLimit == c.timeLimit
  {
    match Delete(c.entries, key)
    case Ok(d) => Ok(c.(entries := d))
    case Err(e) => Err(e)
  }

  /**
   * `_flush_cache_(force)`: when forced or STALE at `now`, empties the cache
   * and restarts the clock at `now`; otherwise changes nothing. The limit is
   * never changed. Unless asked, the flush is not forced.
   */
  function Flush<V>(c: Cache<V>, now: int, force: bool := false): (r: Cache<V>)
    ensures r.timeLimit == c.timeLimit
    ensures force || IsStale(c, now) ==> (forall k :: !Has(r, k)) && r.timestamp == now
    ensures !force && !IsStale(c, now) ==> r == c
  {
    if force || IsStale(c, now) then c.(entries := map[], timestamp := now) else c
  }

  /** The boundary is strict: FRESH up to and including `timestamp + timeLimit`, STALE one second later. */
  lemma StaleBoundary<V>(c: Cache<V>, now: int)
    ensures !IsStale(c, c.timestamp + c.timeLimit)
    ensures IsStale(c, c.timestamp + c.timeLimit + 1)
    ensures now <= c.timestamp + c.timeLimit ==> Flush(c, now) == c
  {
  }

  /**
   * With a non-negative limit, a cache just flushed at `t` stays FRESH (an
   * unforced flush does nothing) until more than the limit has elapsed.
   */
  lemma FreshAfterFlush<V>(c: Cache<V>, force: bool, t: int, later: int)
    requires force || IsStale(c, t)
    requires t <= later <= t + c.timeLimit
    ensures Flush(Flush(c, t, force), later) == Flush(c, t, force)
  {
  }

  /**
   * With a limit of 10 seconds, a key added at `t` survives an unforced flush
   * one second later and is gone after one eleven seconds later, which also
   * restarts the clock; a forced flush removes it at once.
   */
  lemma TenSecondScenario<V>(t: int, key: string, value: V)
    ensures var c := Put(Init(t, 10), key, value);
      && Has(Flush(c, t + 1), key)
      && !Has(Flush(Flush(c, t + 1), t + 11), key)
      && Flush(Flush(c, t + 1), t + 11).timestamp == t + 11
      && !Has(Flush(c, t, true), key)
  {
  }

  /** One call that can change the cache. */
  datatype CacheOp<V> =
    | AddOp(key: string, value: V)      // _add_to_cache_
    | UpdateOp(key: string, value: V)   // _update_in_cache_
    | RemoveOp(key: string)             // _remove_from_cache_; a KeyError leaves the cache alone
    | FlushOp(force: bool, now: int)    // _flush_cache_ with the clock reading `now`

  function Step<V>(c: Cache<V>, op: CacheOp<V>): Cache<V>
  {
    match op
    case AddOp(key, value) => Put(c, key, value)
    case UpdateOp(key, value) => Put(c, key, value)
    case RemoveOp(key) =>
      (match Remove(c, key)
       case Ok(c') => c'
       case Err(_) => c)
    case FlushOp(force, now) => Flush(c, now, force)
  }

  /** The cache after a sequence of calls. */
  function Run<V>(c: Cache<V>, ops: seq<CacheOp<V>>): Cache<V>
    decreases |ops|
  {
    if |ops| == 0 then c else Step(Run(c, ops[..|ops| - 1]), ops[|ops| - 1])
  }

  /** The call writes `key`. */
  predicate Writes<V>(op: CacheOp<V>, key: string)
  {
    (op.AddOp? || op.UpdateOp?) && op.key == key
  }

  /** The flush call empties the cache when applied to `c`. */
  predicate Fires<V>(c: Cache<V>, op: CacheOp<V>)
  {
    op.FlushOp? && (op.force || IsStale(c, op.now))
  }

  /** The `j`-th call of `ops`, run from `c0`, takes `key` out of the cache. */
  predicate Clears<V>(c0: Cache<V>, ops: seq<CacheOp<V>>, j: nat, key: string)
    requires j < |ops|
  {
    (ops[j].RemoveOp? && ops[j].key == key) || Fires(Run(c0, ops[..j]), ops[j])
  }

  /** A call that neither writes nor clears `key` leaves its entry alone. */
  lemma StepKeepsEntry<V>(c: Cache<V>, op: CacheOp<V>, key: string)
    requires !Writes(op, key)
    requires !(op.RemoveOp? && op.key == key) && !Fires(c, op)
    ensures Get(Step(c, op), key) == Get(c, key)
  {
  }

  /** The time limit is set at construction and no call changes it. */
  lemma {:induction false} RunKeepsTimeLimit<V>(c: Cache<V>, ops: seq<CacheOp<V>>)
    ensures Run(c, ops).timeLimit == c.timeLimit
  {
    if |ops| > 0 {
      RunKeepsTimeLimit(c, ops[..|ops| - 1]);
    }
  }

  /**
   * A write that no later call overwrites or clears is still in the cache,
   * with the written value.
   */
  lemma {:induction false} LastWriteSurvives<V>(c0: Cache<V>, ops: seq<CacheOp<V>>, key: string, i: nat)
    requires i < |ops| && Writes(ops[i], key)
    requires forall j :: i < j < |ops| ==> !Writes(ops[j], key) && !Clears(c0, ops, j, key)
    ensures Get(Run(c0, ops), key) == Ok(ops[i].value)
  {
    var n := |ops|;
    var prefix := ops[..n - 1];
    assert ops[..n - 1] == prefix;
    if i < n - 1 {
      forall j | i < j < |prefix|
        ensures !Writes(prefix[j], key) && !Clears(c0, prefix, j, key)
      {
        assert prefix[..j] == ops[..j];
        assert !Clears(c0, ops, j, key);
      }
      LastWriteSurvives(c0, prefix, key, i);
      assert !Clears(c0, ops, n - 1, key);
      StepKeepsEntry(Run(c0, prefix), ops[n - 1], key);
    }
  }

  /** A key cleared by a removal or a flush stays absent until it is written again. */
  lemma {:induction false} ClearedStaysAbsent<V>(c0: Cache<V>, ops: seq<CacheOp<V>>, key: string, i: nat)
    requires i < |ops| && Clears(c0, ops, i, key)
    requires forall j :: i < j < |ops| ==> !Writes(ops[j], key)
    ensures !Has(Run(c0, ops), key)
  {
    var n := |ops|;
    var prefix := ops[..n - 1];
    assert ops[..n - 1] == prefix;
    if i < n - 1 {
      assert prefix[..i] == ops[..i];
      assert Clears(c0, prefix, i, key);
      ClearedStaysAbsent(c0, prefix, key, i);
      assert !Writes(ops[n - 1], key);
    }
  }

  /**
   * The cache holds only what was put in it: starting from an empty cache, a
   * key that no call writes is never present.
   */
  lemma {:induction false} OnlyWrittenKeysPresent<V>(c0: Cache<V>, ops: seq<CacheOp<V>>, key: string)
    requires !Has(c0, key)
    requires forall j :: 0 <= j < |ops| ==> !Writes(ops[j], key)
    ensures !Has(Run(c0, ops), key)
  {
    if |ops| > 0 {
      OnlyWrittenKeysPresent(c0, ops[..|ops| - 1], key);
    }
  }

  /** Only a flush that fires moves the timestamp, and it moves it to its clock reading. */
  lemma StepTimestamp<V>(c: Cache<V>, op: CacheOp<V>)
    ensures Fires(c, op) ==> Step(c, op).timestamp == op.now
    ensures !Fires(c, op) ==> Step(c, op).timestamp == c.timestamp
  {
  }

  /** The timestamp is the clock reading of the last flush that fired. */
  lemma {:induction false} TimestampOfLastFlush<V>(c0: Cache<V>, ops: seq<CacheOp<V>>, i: nat)
    requires i < |ops| && Fires(Run(c0, ops[..i]), ops[i])
    requires forall j :: i < j < |ops| ==> !Fires(Run(c0, ops[..j]), ops[j])
    ensures Run(c0, ops).timestamp == ops[i].now
  {
    var n := |ops|;
    var prefix := ops[..n - 1];
    assert Run(c0, ops) == Step(Run(c0, prefix), ops[n - 1]);
    StepTimestamp(Run(c0, prefix), ops[n - 1]);
    if i < n - 1 {
      assert prefix[..i] == ops[..i];
      forall j | i < j < |prefix|
        ensures !Fires(Run(c0, prefix[..j]), prefix[j])
      {
        assert prefix[..j] == ops[..j];
      }
      TimestampOfLastFlush(c0, prefix, i);
      assert !Fires(Run(c0, ops[..n - 1]), ops[n - 1]);
    }
  }

  /** Without a flush that fires, the timestamp is still the one of construction. */
  lemma {:induction false} TimestampWithoutFlush<V>(c0: Cache<V>, ops: seq<CacheOp<V>>)
    requires forall j :: 0 <= j < |ops| ==> !Fires(Run(c0, ops[..j]), ops[j])
    ensures Run(c0, ops).timestamp == c0.timestamp
  {
    var n := |ops|;
    if n > 0 {
      var prefix := ops[..n - 1];
      assert ops[..n - 1] == prefix;
      forall j | 0 <= j < |prefix|
        ensures !Fires(Run(c0, prefix[..j]), prefix[j])
      {
        assert prefix[..j] == ops[..j];
      }
      TimestampWithoutFlush(c0, prefix);
    }
  }
}
