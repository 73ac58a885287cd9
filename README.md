# Object foundation layer: attribute bags, builder, immutable object, TTL cache manager

This project models `src/core/base_object.py`, the foundation classes of a
Python application:

- `BaseObject`, an object whose attributes all live in one string-keyed
  mapping (its `__dict__`), reachable as attributes (`obj.x = v`, `del obj.x`)
  and as items (`obj[x] = v`, `obj[x]`), with an export `to_dict(exclude)`;
- `BaseObjectBuilder`, which merges configuration through chained
  `kwargs(**kw)` calls and whose base `build()` always raises
  `NotImplementedError`;
- `ImmutableBaseObject`, whose three mutation entry points always raise
  `AttributeError` and never change the mapping;
- `BaseObjectManager`, which owns a string-keyed cache, a timestamp and a time
  limit (default 300 seconds), with add, update, get, has and remove
  operations and a flush that empties the cache and restarts the clock when
  forced or when the elapsed time strictly exceeds the limit.

Layout:

- `results.dfy` (`Results`): the raised exceptions as an `Error` datatype,
  `Result`, `Outcome` and `Option`.
- `dicts.dfy` (`Dicts`): the dict operations the classes use (`d[k]`,
  `d.get`, `d[k] = v`, `del d[k]`, `d.update`) and the `to_dict` export, both
  as written and as documented.
- `attributed.dfy` (`Attributed`): the `BaseObject` class, whose `attrs` field
  is the mapping its methods reassign, and lemmas about arbitrary sequences of
  mutations (last write wins).
- `builders.dfy` (`Builders`): the `BaseObjectBuilder` class and a chained
  `kwargs` client.
- `immutables.dfy` (`Immutables`): the `ImmutableBaseObject` class, whose
  mapping is a `const` and whose mutators have no `modifies` clause.
- `cache_model.dfy` (`CacheModel`): the manager's state as a value, the
  FRESH/STALE rule, one function per cache operation, and lemmas about
  arbitrary sequences of cache calls: the time limit never changes, a key is
  present only if written after the last clearing, a surviving entry holds the
  last value written, and the timestamp is the clock reading of the last flush
  that fired.
- `managers.dfy` (`Managers`): the `BaseObjectManager` class, whose methods
  are specified against `CacheModel`.

Exceptions become `Result`/`Outcome` values: a `KeyError` on a missing key, an
`AttributeError` on an immutable object, `NotImplementedError` from `build`,
and a `TypeError` from the export described under Findings. A call that raises
leaves the state as it was. The wall clock (`datetime.now()`) becomes an
integer parameter `now`, in whole seconds, supplied by the caller. Python's
`Any` values become a type parameter `V`.

## Model

| member | source | states |
|---|---|---|
| `Dicts.Lookup` | src/core/base_object.py:323 | indexing succeeds exactly when the key is present, gives its value, and otherwise raises KeyError naming the key |
| `Dicts.GetOr` | src/core/base_object.py:68-71 | a lookup with a default never fails: the stored value when indexing would succeed, the default when it would raise |
| `Dicts.Store` | src/core/base_object.py:90 | after `d[k] = v` the keys are the old keys plus `k`, `k` maps to `v`, and every other key keeps its value |
| `Dicts.Delete` | src/core/base_object.py:36 | `del d[k]` succeeds exactly when `k` is present, then removes only `k` and keeps every other value; otherwise raises KeyError |
| `Dicts.Update` | src/core/base_object.py:211 | `d.update(kw)`: keys of `kw` take its values, the other keys of `d` keep theirs, no other keys appear |
| `Dicts.ExportAsWritten` | src/core/base_object.py:111-128 | the export as written raises TypeError exactly when `exclude` is omitted and the mapping is non-empty; otherwise it keeps exactly the entries not excluded, with their values |
| `Dicts.Export` | src/core/base_object.py:111-128 | the documented export: all entries when `exclude` is omitted, otherwise exactly the entries whose key is not excluded, values unchanged |
| `Dicts.ExportAsWrittenAgrees` | src/core/base_object.py:121-128 | whenever the code as written does not raise, it returns the documented export (the `or []` never changes the result) |
| `Dicts.ExportAsWrittenRejectsDefault` | src/core/base_object.py:113-127 | a one-entry mapping exported with the default argument raises TypeError as written, while the documented export returns the whole mapping |
| `Attributed.BaseObject.constructor` | src/core/base_object.py:17-24 | a new object has an empty attribute mapping |
| `Attributed.BaseObject.SetAttr` | src/core/base_object.py:79-90 | `obj.name = value` stores `value` under `name` and leaves every other attribute unchanged; it is the assignment step of the mutation-sequence model |
| `Attributed.BaseObject.SetItem` | src/core/base_object.py:92-103 | `obj[name] = value` has exactly the same effect as the attribute assignment |
| `Attributed.BaseObject.GetItem` | src/core/base_object.py:56-71 | reading a name gives its stored value, or the supplied default when it is absent; it never raises |
| `Attributed.BaseObject.DelAttr` | src/core/base_object.py:26-36 | deleting a present name removes exactly that name; deleting an absent one raises KeyError and leaves the mapping unchanged; either way it is the deletion step of the mutation-sequence model |
| `Attributed.BaseObject.ToDict` | src/core/base_object.py:111-128 | the export holds exactly the attributes not excluded (all of them when `exclude` is omitted), with their values |
| `Attributed.Apply` | src/core/base_object.py:26-103 | one mutation: an assignment makes its name map to the value, a deletion leaves the name absent, and no other name changes |
| `Attributed.LastMutationWins` | src/core/base_object.py:79-103 | after any sequence of assignments and deletions, reading a name gives the value of the last assignment to it, or the default if the last mutation of it was a deletion |
| `Attributed.UnmentionedNameKeepsValue` | src/core/base_object.py:26-36 | a name that no mutation in a sequence mentions reads as it did before the sequence |
| `Builders.BaseObjectBuilder.constructor` | src/core/base_object.py:147-164 | a new builder has an empty configuration |
| `Builders.BaseObjectBuilder.Kwargs` | src/core/base_object.py:201-212 | merges `kw` into the configuration (new keys and overwrites win, other keys kept) and returns the same builder |
| `Builders.BaseObjectBuilder.Build` | src/core/base_object.py:191-199 | the base `build` always raises NotImplementedError |
| `Builders.KwargsChained` | src/core/base_object.py:201-212 | two chained `kwargs` calls act on one builder: overlapping keys end with the later call's values, keys of only the first call keep its values, untouched keys keep theirs |
| `Immutables.ImmutableBaseObject.constructor` | src/core/base_object.py:375-381 | the immutable object is fixed to the mapping it is constructed from |
| `Immutables.ImmutableBaseObject.GetItem` | src/core/base_object.py:56-71 | the inherited read: stored value or default, never raising |
| `Immutables.ImmutableBaseObject.SetAttr` | src/core/base_object.py:383-399 | attribute assignment always raises AttributeError and changes nothing |
| `Immutables.ImmutableBaseObject.SetItem` | src/core/base_object.py:401-417 | item assignment always raises AttributeError and changes nothing |
| `Immutables.ImmutableBaseObject.DelAttr` | src/core/base_object.py:419-433 | attribute deletion always raises AttributeError, present name or not, and changes nothing |
| `Immutables.RejectedMutationsKeepReads` | src/core/base_object.py:383-433 | after attempting all three mutations, each has raised AttributeError and a read of any name returns what it returned before |
| `CacheModel.Init` | src/core/base_object.py:229-239 | a new manager has an empty cache, the given time limit (300 seconds when none is given) and the construction time as timestamp |
| `CacheModel.IsStale` | src/core/base_object.py:288-294 | stale exactly when the elapsed time strictly exceeds the limit, that is when `now` is past `timestamp + timeLimit` |
| `CacheModel.Has` | src/core/base_object.py:325-332 | the existence check is true exactly when a lookup of the key would succeed |
| `CacheModel.Get` | src/core/base_object.py:314-323 | a lookup gives the cached value, or raises KeyError exactly when the key is absent |
| `CacheModel.Put` | src/core/base_object.py:277-286 | add and update alike: afterwards the key is present with the new value; other entries, timestamp and time limit are unchanged |
| `CacheModel.Remove` | src/core/base_object.py:334-345 | removal succeeds exactly when the key is present and then drops only that key, keeping timestamp and limit; otherwise raises KeyError |
| `CacheModel.Flush` | src/core/base_object.py:296-312 | when forced or stale, the cache becomes empty and the timestamp becomes `now`; otherwise nothing changes; the limit never changes; a flush is unforced unless asked |
| `CacheModel.StaleBoundary` | src/core/base_object.py:288-294 | the staleness test is strict: an elapsed time equal to the limit is fresh and an unforced flush then does nothing; one second more is stale |
| `CacheModel.FreshAfterFlush` | src/core/base_object.py:296-312 | after a flush that fired at `t`, an unforced flush up to `t + timeLimit` does nothing |
| `CacheModel.TenSecondScenario` | src/core/base_object.py:277-312 | with a 10-second limit, a key added at `t` survives an unforced flush at `t + 1`, is gone after one at `t + 11` (timestamp `t + 11`), and a forced flush removes it at once |
| `CacheModel.StepKeepsEntry` | src/core/base_object.py:277-359 | a cache call that neither writes nor removes a key, and is not a flush that fires, leaves that key's entry as it was |
| `CacheModel.RunKeepsTimeLimit` | src/core/base_object.py:229-239 | no sequence of cache calls changes the time limit set at construction |
| `CacheModel.LastWriteSurvives` | src/core/base_object.py:277-359 | a write not followed by another write of the key, a removal of it or a flush that fires is still in the cache with the written value |
| `CacheModel.ClearedStaysAbsent` | src/core/base_object.py:296-345 | a key removed, or emptied by a flush that fired, stays absent until it is written again |
| `CacheModel.OnlyWrittenKeysPresent` | src/core/base_object.py:229-359 | starting from a cache without the key, a key that no call writes is never present |
| `CacheModel.StepTimestamp` | src/core/base_object.py:296-312 | a single cache call moves the timestamp only if it is a flush that fires, and then to that flush's clock reading |
| `CacheModel.TimestampOfLastFlush` | src/core/base_object.py:296-312 | after a sequence of calls the timestamp is the clock reading of the last flush that fired |
| `CacheModel.TimestampWithoutFlush` | src/core/base_object.py:229-312 | when no flush fired, the timestamp is still the construction time |
| `Managers.BaseObjectManager.constructor` | src/core/base_object.py:229-239 | the manager starts with an empty cache, the given limit (300 seconds by default) and timestamp `now` |
| `Managers.BaseObjectManager.AddToCache` | src/core/base_object.py:277-286 | the new state is the old one with the key stored, which is the add step of the call-sequence model; the key is then in the cache and reads back as the value |
| `Managers.BaseObjectManager.UpdateInCache` | src/core/base_object.py:347-359 | the same new state as `AddToCache` for the same key and value |
| `Managers.BaseObjectManager.GetFromCache` | src/core/base_object.py:314-323 | returns the cached value, or raises KeyError exactly when the key is absent |
| `Managers.BaseObjectManager.IsInCache` | src/core/base_object.py:325-332 | true exactly when `GetFromCache` of the key would not raise |
| `Managers.BaseObjectManager.RemoveFromCache` | src/core/base_object.py:334-345 | succeeds exactly when the key was present and then drops only that key; on KeyError the state is unchanged; either way the new state is the remove step of the call-sequence model |
| `Managers.BaseObjectManager.CheckTimeLimit` | src/core/base_object.py:288-294 | true exactly when `now` is past the deadline `timestamp + timeLimit` |
| `Managers.BaseObjectManager.FlushCache` | src/core/base_object.py:296-312 | unforced by default; when forced or past the deadline the cache is emptied and the timestamp set to `now`; otherwise cache and timestamp are untouched; the new state is the flush step of the call-sequence model |

## Findings

| source | as written | input that shows it | evidently intended | confidence | as-written member | corrected member |
|---|---|---|---|---|---|---|
| src/core/base_object.py:113-127 | `exclude` defaults to `None` and each entry is tested with `key not in exclude or []`, which evaluates `key not in None` first and raises TypeError | `to_dict()` with no argument on an object holding one entry `a = 1` | an omitted exclusion list excludes nothing, so the result is `{a: 1}` (the docstring calls the list optional) | high, not executed | `Dicts.ExportAsWritten` | `Dicts.Export` |

`Dicts.ExportAsWrittenRejectsDefault` exhibits the failing input, and
`Dicts.ExportAsWrittenAgrees` shows that the two definitions agree whenever the
code as written does not raise. `BaseObject.ToDict` uses the corrected
`Dicts.Export`. In the source every object also carries a `_logger` entry in
its `__dict__`, so as written `to_dict()` without an argument raises on every
object.

## Left out

- Logging: `Logger` is an external module; the info, warn and error messages (lines 24, 286, 312, 345, 359, 395, 413, 429) are side effects and are not modelled.
- The `_logger` entry that the constructor stores in `__dict__` (line 23): the model's mapping holds only the data attributes.
- The wall clock: `datetime.now()` (lines 239, 294, 310) is never imported by the module (line 1 imports only `typing`), so as written constructing or flushing a manager raises NameError; the model takes the clock reading as the parameter `now`, in whole seconds, and does not model the fractional seconds of `total_seconds()`. A flush that fires reads the clock twice in the source, once for the staleness test (line 294) and once for the new timestamp (line 310); the model uses the one reading `now` for both.
- `__getattr__` (lines 38-54): it looks the name up among the attributes of the dict object itself, not among its keys; this reflection behaviour is not modelled.
- `__str__` and `__repr__` (lines 73-77, 105-109): string rendering of arbitrary values.
- `Attributed.BaseObject.GetItem`: subscript syntax `obj[x]` always supplies the default `None`; the model takes the default as an explicit argument because `V` has no `None`.
- `Attributed.BaseObject.ToDict`: `exclude` is modelled as a set of names; an arbitrary iterable (a string, which would test substrings, or a one-shot generator) is not modelled.
- The `configuration` property (lines 166-189) and the manager's `cache`, `time_limit` and `timestamp` properties (lines 241-275): the getters are the classes' fields; the setters are never reached because `BaseObject.__setattr__` writes straight into `__dict__`.
- Inherited attribute-bag operations on the builder and the manager: in the source `_configuration`, `_cache`, `_time_limit` and `_timestamp` are entries of the same `__dict__` and can be reached or overwritten through `obj[...]`; the model keeps them as separate fields.
- Aliasing: the `configuration` and `cache` properties hand out the dict itself, so a caller can change it behind the object's back; Dafny maps are values and this is not modelled.
- Construction of `ImmutableBaseObject` (lines 375-381): as written, the base constructor's `self._logger = ...` goes through the blocking `__setattr__`, whose logging call finds no logger and itself fails with AttributeError, so no instance can be built; the model constructs the immutable object directly from a given mapping. Its inherited `to_dict` is not repeated.
- `src/debug.py` and `src/main.py`: entry points that only obtain a logger and log one message.
- Concurrency: the source has none.
