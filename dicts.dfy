/**
 * The string-keyed Python `dict` every object of the layer is built on: the
 * instance `__dict__`, the builder's configuration and the manager's cache.
 */
module Dicts {
  import opened Results

  type Dict<V> = map<string, V>

  /** `d[key]`: raises KeyError when the key is absent. */
  function Lookup<V>(d: Dict<V>, key: string): (r: Result<V>)
    ensures r.Ok? <==> key in d
    ensures r.Ok? ==> r.value == d[key]
    ensures r.Err? ==> r.error == KeyError(key)
  {
    if key in d then Ok(d[key]) else Err(KeyError(key))
  }

  /** `d.get(key, default)`: never raises. */
  function GetOr<V>(d: Dict<V>, key: string, default: V): (r: V)
    ensures Lookup(d, key).Ok? ==> r == Lookup(d, key).value
    ensures Lookup(d, key).Err? ==> r == default
  {
    if key in d then d[key] else default
  }

  /** `d[key] = value`: inserts or overwrites one key and keeps every other entry. */
  function Store<V>(d: Dict<V>, key: string, value: V): (r: Dict<V>)
    ensures r.Keys == d.Keys + {key}
    ensures r[key] == value
    ensures forall k :: k in d && k != key ==> r[k] == d[k]
  {
    d[key := value]
  }

  /** `del d[key]`: removes exactly that key, or raises KeyError when it is absent. */
  function Delete<V>(d: Dict<V>, key: string): (r: Result<Dict<V>>)
    ensures r.Ok? <==> key in d
    ensures r.Ok? ==> r.value.Keys == d.Keys - {key}
    ensures r.Ok? ==> forall k :: k in r.value ==> r.value[k] == d[k]
    ensures r.Err? ==> r.error == KeyError(key)
  {
    if key in d then Ok(d - {key}) else Err(KeyError(key))
  }

  /** `d.update(other)`: the keys of `other` take its values, every other key keeps its own. */
  function Update<V>(d: Dict<V>, other: Dict<V>): (r: Dict<V>)
    ensures r.Keys == d.Keys + other.Keys
    ensures forall k :: k in other ==> r[k] == other[k]
    ensures forall k :: k in d && k !in other ==> r[k] == d[k]
  {
    d + other
  }

  /**
   * The export comprehension of `to_dict` exactly as it is written. The filter
   * `key not in exclude or []` parses as `(key not in exclude) or []`, so the
   * `or []` never changes which entries are kept; and with the default
   * `exclude=None` the test `key not in None` raises TypeError on the first
   * entry, so only an empty mapping exports without error.
   */
  function ExportAsWritten<V>(d: Dict<V>, exclude: Option<set<string>>): (r: Result<Dict<V>>)
    ensures r.Err? <==> exclude.None? && |d| != 0
    ensures r.Err? ==> r.error == TypeError
    ensures r.Ok? ==> r.value.Keys == d.Keys - (if exclude.Some? then exclude.value else {})
    ensures r.Ok? ==> forall k :: k in r.value ==> r.value[k] == d[k]
  {
    match exclude
    case None => if |d| == 0 then Ok(map[]) else Err(TypeError)
    case Some(names) => Ok(d - names)
  }

  /**
   * The export `to_dict` is documented to perform: a copy of every entry whose
   * key is not excluded, where an omitted exclusion list excludes nothing.
   */
  function Export<V>(d: Dict<V>, exclude: Option<set<string>>): (r: Dict<V>)
    ensures exclude.None? ==> r.Keys == d.Keys
    ensures exclude.Some? ==> r.Keys == d.Keys - exclude.value
    ensures forall k :: k in r ==> k in d && r[k] == d[k]
  {
    match exclude
    case None => d
    case Some(names) => d - names
  }

  /** Whenever the code as written does not raise, it agrees with the documented export. */
  lemma ExportAsWrittenAgrees<V>(d: Dict<V>, exclude: Option<set<string>>)
    requires exclude.Some? || |d| == 0
    ensures ExportAsWritten(d, exclude) == Ok(Export(d, exclude))
  {
  }

  /** The discrepancy: an object holding one entry cannot be exported with the default argument. */
  lemma ExportAsWrittenRejectsDefault<V>(key: string, value: V)
    ensures ExportAsWritten(map[key := value], None) == Err(TypeError)
    ensures Export(map[key := value], None) == map[key := value]
  {
  }
}
