/**
  Python dictionaries keep their keys in insertion order, and the reconciliation
  engine iterates them in that order. An `OMap` is a dictionary: the values by key,
  and the keys in the order they were first inserted.
 */
module OrderedMaps {

  datatype OMap<K, V> = OMap(keys: seq<K>, vals: map<K, V>)

  /** The keys are distinct and are exactly the domain of the values. */
  ghost predicate Valid<K(!new), V>(m: OMap<K, V>) {
    && (forall i, j :: 0 <= i < j < |m.keys| ==> m.keys[i] != m.keys[j])
    && (forall k :: k in m.vals <==> k in m.keys)
  }

  /** `{}` */
  function Empty<K, V>(): OMap<K, V> {
    OMap([], map[])
  }

  /** `d[k] = v`: an existing key keeps its position, a new key goes last. */
  function Put<K(!new), V>(m: OMap<K, V>, k: K, v: V): (r: OMap<K, V>)
    ensures Valid(m) ==> Valid(r)
    ensures r.vals == m.vals[k := v]
    ensures k in m.vals ==> r.keys == m.keys
    ensures k !in m.vals ==> r.keys == m.keys + [k]
  {
    if k in m.vals then OMap(m.keys, m.vals[k := v]) else OMap(m.keys + [k], m.vals[k := v])
  }
}
