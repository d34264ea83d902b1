/**
 * A JavaScript `Map` with string keys, as far as the monitoring code uses one:
 * `set`, `forEach` and `size`. Iteration follows first insertion; `set` on a key
 * that is already present replaces its value and keeps its position.
 */
module JsMaps {

  datatype InsertionMap<V> = InsertionMap(keys: seq<string>, values: map<string, V>) {

    /** Keys are listed once each, and exactly the listed keys carry values. */
    ghost predicate Valid() {
      && (forall i, j :: 0 <= i < j < |keys| ==> keys[i] != keys[j])
      && (forall k :: k in values <==> k in keys)
    }

    /** `map.set(k, v)`. */
    function Set(k: string, v: V): (r: InsertionMap<V>)
      requires Valid()
      ensures r.Valid()
      ensures r.values == values[k := v]
      ensures k in keys ==> r.keys == keys
      ensures k !in keys ==> r.keys == keys + [k]
    {
      if k in values then InsertionMap(keys, values[k := v])
      else InsertionMap(keys + [k], values[k := v])
    }

    /** The values in the order `forEach` visits them. */
    function Values(): (vs: seq<V>)
      requires Valid()
      ensures |vs| == |keys|
      ensures forall i :: 0 <= i < |keys| ==> vs[i] == values[keys[i]]
    {
      seq(|keys|, i requires 0 <= i < |keys| => values[keys[i]])
    }
  }

  /** `new Map()`. */
  function Empty<V>(): (m: InsertionMap<V>)
    ensures m.Valid() && m.keys == []
  {
    InsertionMap([], map[])
  }

}
