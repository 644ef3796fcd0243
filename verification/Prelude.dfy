/** Shared value types: optional values, results, and Python's insertion-ordered dictionary. */
module Prelude {

  datatype Option<+T> = None | Some(value: T)

  datatype Result<+T, +E> = Ok(value: T) | Err(error: E)

  /** Python's `supplied or current` on optional strings: an empty string is dropped. */
  function Or(supplied: Option<string>, current: Option<string>): Option<string> {
    if supplied.Some? && supplied.value != "" then supplied else current
  }

  /** `.get(name, [])`. */
  function Items<T>(xs: Option<seq<T>>): seq<T> {
    if xs.Some? then xs.value else []
  }

  /** A dictionary that remembers the order in which its keys were first inserted.
      Overwriting the value of a key keeps the key's place. */
  datatype Dict<!K(==,!new), +V> = Dict(order: seq<K>, items: map<K, V>) {

    ghost predicate Valid() {
      && (forall k :: k in order <==> k in items)
      && (forall i, j :: 0 <= i < j < |order| ==> order[i] != order[j])
    }

    function Put(k: K, v: V): Dict<K, V> {
      Dict(if k in items then order else order + [k], items[k := v])
    }
  }

  lemma PutIsValid<K(!new), V>(d: Dict<K, V>, k: K, v: V)
    requires d.Valid()
    ensures d.Put(k, v).Valid() && d.Put(k, v).items == d.items[k := v]
  {
  }

  function EmptyDict<K(==,!new), V>(): Dict<K, V> {
    Dict([], map[])
  }

  function Lookup<K, V>(m: map<K, V>, k: K): Option<V> {
    if k in m then Some(m[k]) else None
  }

  /** The values of a dictionary in insertion order. */
  function Values<K(==,!new), V>(order: seq<K>, items: map<K, V>): (vs: seq<V>)
    requires forall k :: k in order ==> k in items
    ensures |vs| == |order|
    ensures forall i :: 0 <= i < |order| ==> vs[i] == items[order[i]]
  {
    if order == [] then [] else [items[order[0]]] + Values(order[1..], items)
  }
}
