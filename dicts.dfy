/**
 * A Python `dict`: a finite map together with the order in which its keys
 * were first inserted. Iteration (`items()`, `values()`, comprehensions)
 * follows that order, which is what decides ties in `min` and `sorted`.
 * Assigning to an existing key keeps its position.
 */
module Dicts {

  datatype Dict<K, V> = Dict(order: seq<K>, entries: map<K, V>)

  /** No key is listed twice, and the listed keys are exactly the map's keys. */
  ghost predicate WellFormed<K, V>(d: Dict<K, V>)
  {
    && (forall i, j :: 0 <= i < j < |d.order| ==> d.order[i] != d.order[j])
    && (forall i :: 0 <= i < |d.order| ==> d.order[i] in d.entries)
    && (forall k :: k in d.entries ==> k in d.order)
  }

  function Empty<K, V>(): (d: Dict<K, V>)
    ensures WellFormed(d) && d.entries == map[]
  {
    Dict([], map[])
  }

  /** `d[k] = v` */
  function Put<K, V>(d: Dict<K, V>, k: K, v: V): (d': Dict<K, V>)
    requires WellFormed(d)
    ensures WellFormed(d')
    ensures d'.entries == d.entries[k := v]
    ensures k in d.entries ==> d'.order == d.order
    ensures k !in d.entries ==> d'.order == d.order + [k]
  {
    Dict(if k in d.entries then d.order else d.order + [k], d.entries[k := v])
  }
}
