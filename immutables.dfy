/**
 * `ImmutableBaseObject`: a `BaseObject` whose mapping is fixed once it is
 * constructed; every mutation entry point raises AttributeError.
 */
module Immutables {
  import opened Results
  import opened Dicts

  class ImmutableBaseObject<V> {
    /** The instance mapping; it cannot change after construction. */
    const attrs: Dict<V>

    constructor (attrs: Dict<V>)
      ensures this.attrs == attrs
    {
      this.attrs := attrs;
    }

    /** The inherited `__getitem__`: the stored value or the default, never raising. */
    function GetItem(name: string, default: V): (r: V)
      ensures name in attrs ==> r == attrs[name]
      ensures name !in attrs ==> r == default
    {
      GetOr(attrs, name, default)
    }

    /** `obj.name = value` is rejected; without a modifies clause nothing can change. */
    method SetAttr(name: string, value: V) returns (r: Outcome)
      ensures r == Fail(AttributeError)
    {
      r := Fail(AttributeError);
    }

    /** `obj[name] = value` is rejected. */
    method SetItem(name: string, value: V) returns (r: Outcome)
      ensures r == Fail(AttributeError)
    {
      r := Fail(AttributeError);
    }

    /** `del obj.name` is rejected, whether or not the name is present. */
    method DelAttr(name: string) returns (r: Outcome)
      ensures r == Fail(AttributeError)
    {
      r := Fail(AttributeError);
    }
  }

  /**
   * Whatever mutation is attempted, each attempt fails with AttributeError and
   * a later read of any name returns what it returned before.
   */
  method RejectedMutationsKeepReads<V>(o: ImmutableBaseObject<V>, name: string, value: V, default: V)
    returns (attrResult: Outcome, itemResult: Outcome, delResult: Outcome, read: V)
    ensures attrResult == itemResult == delResult == Fail(AttributeError)
    ensures read == o.GetItem(name, default)
    ensures name in o.attrs ==> read == o.attrs[name]
  {
    var before := o.GetItem(name, default);
    attrResult := o.SetAttr(name, value);
    itemResult := o.SetItem(name, value);
    delResult := o.DelAttr(name);
    read := o.GetItem(name, default);
    assert read == before;
  }
}
