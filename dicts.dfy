/**
 * A JavaScript plain object with string keys that are never array indices:
 * `Object.keys` lists the keys in first-insertion order, and assigning to a
 * key that is already there replaces its value without moving the key.
 */
module Dicts {
  import opened Wrappers

  datatype Dict<V> = Dict(keys: seq<string>, vals: map<string, V>) {

    /** The keys are listed once each, and they are exactly the keys that carry a value. */
    ghost predicate Valid() {
      && (forall i, j :: 0 <= i < j < |keys| ==> keys[i] != keys[j])
      && (forall k :: k in vals <==> k in keys)
    }

    /** `obj[k]`. */
    function Get(k: string): Option<V> {
      if k in vals then Some(vals[k]) else None
    }

    /** `obj[k] = v`. */
    function Put(k: string, v: V): (d: Dict<V>)
      ensures Valid() ==> d.Valid()
      ensures d.vals.Keys == vals.Keys + {k}
      ensures d.Get(k) == Some(v)
      ensures forall j :: j != k ==> d.Get(j) == Get(j)
      ensures k in vals ==> d.keys == keys
      ensures k !in vals ==> d.keys == keys + [k]
    {
      if k in vals then Dict(keys, vals[k := v]) else Dict(keys + [k], vals[k := v])
    }
  }

  /** Assigning a key twice is assigning it the second value. */
  lemma PutTwice<V>(d: Dict<V>, k: string, v1: V, v2: V)
    ensures d.Put(k, v1).Put(k, v2) == d.Put(k, v2)
  {
    assert d.vals[k := v1][k := v2] == d.vals[k := v2];
  }

  function Empty<V>(): (d: Dict<V>)
    ensures d.Valid() && d.keys == []
  {
    Dict([], map[])
  }
}
