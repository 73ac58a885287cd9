/**
 * `BaseObject`: an object whose attributes live in one string-keyed mapping,
 * reachable both as attributes (`obj.x`) and as items (`obj["x"]`).
 */
module Attributed {
  import opened Results
  import opened Dicts

  class BaseObject<V> {
    /** The instance `__dict__`, without the logger entry the constructor adds. */
    var attrs: Dict<V>

    constructor ()
      ensures attrs == map[]
    {
      attrs := map[];
    }

    /** `obj.name = value` */
    method SetAttr(name: string, value: V)
      modifies this
      ensures attrs == Store(old(attrs), name, value)
      ensures attrs == Apply(old(attrs), AttrAssign(name, value))
    {
      attrs := Store(attrs, name, value);
    }

    /** `obj[name] = value`: the same store as `SetAttr`. */
    method SetItem(name: string, value: V)
      modifies this
      ensures attrs == Store(old(attrs), name, value)
      ensures attrs == Apply(old(attrs), ItemAssign(name, value))
    {
      attrs := Store(attrs, name, value);
    }

    /**
     * `obj.__getitem__(name, default)`: the stored value, or the default when
     * the name is absent; it never raises. Subscript syntax supplies `None`.
     */
    function GetItem(name: string, default: V): (r: V)
      reads this
      ensures name in attrs ==> r == attrs[name]
      ensures name !in attrs ==> r == default
    {
      GetOr(attrs, name, default)
    }

    /** `del obj.name`: removes exactly that name, or raises KeyError and changes nothing. */
    method DelAttr(name: string) returns (r: Outcome)
      modifies this
      ensures r.Pass? <==> name in old(attrs)
      ensures r.Pass? ==> attrs == old(attrs) - {name}
      ensures r.Fail? ==> r.error == KeyError(name) && attrs == old(attrs)
      ensures attrs == Apply(old(attrs), AttrDelete(name))
    {
      match Delete(attrs, name)
      case Ok(d) =>
        attrs := d;
        r := Pass;
      case Err(e) =>
        r := Fail(e);
    }

    /** `obj.to_dict(exclude)`: a fresh mapping of the entries whose name is not excluded. */
    function ToDict(exclude: Option<set<string>>): (r: Dict<V>)
      reads this
      ensures forall k :: k in r <==> k in attrs && (exclude.None? || k !in exclude.value)
      ensures forall k :: k in r ==> r[k] == attrs[k]
    {
      Export(attrs, exclude)
    }
  }

  /** One mutating call on a `BaseObject`. */
  datatype Mutation<V> =
    | AttrAssign(name: string, value: V)   // obj.name = value
    | ItemAssign(name: string, value: V)   // obj[name] = value
    | AttrDelete(name: string)             // del obj.name

  /**
   * The mapping after one mutation. A deletion of an absent name raises
   * KeyError and leaves the mapping as it was.
   */
  function Apply<V>(d: Dict<V>, m: Mutation<V>): (r: Dict<V>)
    ensures m.AttrDelete? ==> m.name !in r
    ensures !m.AttrDelete? ==> m.name in r && r[m.name] == m.value
    ensures forall k :: k != m.name ==> (k in r <==> k in d)
    ensures forall k :: k != m.name && k in r ==> r[k] == d[k]
  {
    match m
    case AttrAssign(name, value) => Store(d, name, value)
    case ItemAssign(name, value) => Store(d, name, value)
    case AttrDelete(name) =>
      match Delete(d, name)
      case Ok(d') => d'
      case Err(_) => d
  }

  /** The mapping after a sequence of mutations, each applied to the result of the ones before. */
  function Replay<V>(d: Dict<V>, ms: seq<Mutation<V>>): Dict<V>
    decreases |ms|
  {
    if |ms| == 0 then d else Apply(Replay(d, ms[..|ms| - 1]), ms[|ms| - 1])
  }

  /**
   * Last write wins: after any sequence of mutations, reading a name gives the
   * value of the last assignment to it, or the default if the last mutation
   * of that name deleted it.
   */
  lemma {:induction false} LastMutationWins<V>(d: Dict<V>, ms: seq<Mutation<V>>, name: string, default: V, i: nat)
    requires i < |ms| && ms[i].name == name
    requires forall j :: i < j < |ms| ==> ms[j].name != name
    ensures GetOr(Replay(d, ms), name, default) == if ms[i].AttrDelete? then default else ms[i].value
  {
    var prefix := ms[..|ms| - 1];
    if i < |ms| - 1 {
      LastMutationWins(d, prefix, name, default, i);
    }
  }

  /** A name no mutation mentions keeps the value (or absence) it had at the start. */
  lemma {:induction false} UnmentionedNameKeepsValue<V>(d: Dict<V>, ms: seq<Mutation<V>>, name: string, default: V)
    requires forall j :: 0 <= j < |ms| ==> ms[j].name != name
    ensures GetOr(Replay(d, ms), name, default) == GetOr(d, name, default)
  {
    if |ms| > 0 {
      UnmentionedNameKeepsValue(d, ms[..|ms| - 1], name, default);
    }
  }
}
