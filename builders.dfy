/** `BaseObjectBuilder`: accumulates a configuration through chained `kwargs` calls. */
module Builders {
  import opened Results
  import opened Dicts

  class BaseObjectBuilder<V> {
    /** The builder's `_configuration` dict. */
    var configuration: Dict<V>

    constructor ()
      ensures configuration == map[]
    {
      configuration := map[];
    }

    /**
     * `builder.kwargs(**kw)`: merges `kw` into the configuration, later values
     * overwriting earlier ones, and returns the builder itself for chaining.
     */
    method Kwargs(kw: Dict<V>) returns (self: BaseObjectBuilder<V>)
      modifies this
      ensures self == this
      ensures configuration == Update(old(configuration), kw)
    {
      configuration := Update(configuration, kw);
      self := this;
    }

    /** `builder.build()`: the base class leaves construction to subclasses and always raises. */
    method Build<T>() returns (r: Result<T>)
      ensures r == Err(NotImplementedError)
    {
      r := Err(NotImplementedError);
    }
  }

  /**
   * `builder.kwargs(**first).kwargs(**second)`: the second call goes to the
   * builder the first returned, so overlapping keys end with the later values
   * and every other key keeps the value it last received.
   */
  method KwargsChained<V>(b: BaseObjectBuilder<V>, first: Dict<V>, second: Dict<V>)
    returns (result: BaseObjectBuilder<V>)
    modifies b
    ensures result == b
    ensures b.configuration.Keys == old(b.configuration).Keys + first.Keys + second.Keys
    ensures forall k :: k in second ==> b.configuration[k] == second[k]
    ensures forall k :: k in first && k !in second ==> b.configuration[k] == first[k]
    ensures forall k :: k in old(b.configuration) && k !in first && k !in second ==>
              b.configuration[k] == old(b.configuration)[k]
  {
    var once := b.Kwargs(first);
    result := once.Kwargs(second);
  }
}
