/** Python's built-in `dict` as far as the model uses it: insertion order and item assignment. */
module PyDicts {

  /**
   * A dictionary: `keys` lists the keys in insertion order (the order of `items()`),
   * `values` maps each key to its value.
   */
  datatype Dict<K(!new), V> = Dict(keys: seq<K>, values: map<K, V>) {

    /** Every key occurs once in the order, and the order holds exactly the mapped keys. */
    ghost predicate Valid() {
      && (forall i, j :: 0 <= i < j < |keys| ==> keys[i] != keys[j])
      && (forall k :: k in values <==> k in keys)
    }

    /**
     * `d[k] = v`: a new key goes to the end of the order; an existing key keeps its
     * position and only its value changes.
     */
    function Set(k: K, v: V): (d: Dict<K, V>)
      requires Valid()
      ensures d.Valid()
      ensures d.values == values[k := v]
      ensures d.keys == if k in values then keys else keys + [k]
    {
      if k in values then Dict(keys, values[k := v]) else Dict(keys + [k], values[k := v])
    }
  }

  /** `{}` */
  function EmptyDict<K(!new), V>(): (d: Dict<K, V>)
    ensures d.Valid() && d.keys == [] && d.values == map[]
  {
    Dict([], map[])
  }
}
