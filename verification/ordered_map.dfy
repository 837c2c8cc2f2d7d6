/** A JavaScript `Map`: a finite map that also remembers the order in which
    its keys were first inserted. `set` on a present key replaces the value
    and keeps the key's position; `set` on a new key appends it; iteration
    visits keys in insertion order. */
module OrderedMap {
  import opened Wrappers

  datatype OMap<K, V> = OMap(entries: map<K, V>, order: seq<K>)

  predicate Distinct<K(==)>(s: seq<K>)
  {
    forall i, j :: 0 <= i < j < |s| ==> s[i] != s[j]
  }

  /** The representation invariant: the order lists every key exactly once. */
  predicate Valid<K, V>(m: OMap<K, V>)
  {
    && Distinct(m.order)
    && m.entries.Keys == (set k | k in m.order)
  }

  function Get<K, V>(m: OMap<K, V>, k: K): Option<V>
  {
    if k in m.entries then Some(m.entries[k]) else None
  }

  /** `Map.prototype.set`. */
  function Set<K(!new), V>(m: OMap<K, V>, k: K, v: V): (r: OMap<K, V>)
    requires Valid(m)
    ensures Valid(r)
    ensures Get(r, k) == Some(v)
    ensures forall k' :: k' != k ==> Get(r, k') == Get(m, k')
    ensures k in m.entries ==> r.order == m.order
    ensures k !in m.entries ==> |r.order| == |m.order| + 1 && r.order[..|m.order|] == m.order && r.order[|m.order|] == k
  {
    if k in m.entries then OMap(m.entries[k := v], m.order)
    else OMap(m.entries[k := v], m.order + [k])
  }

  /** `Array.from(m.values())`: the values in insertion order of their keys. */
  function Values<K, V>(m: OMap<K, V>): (vs: seq<V>)
    requires Valid(m)
    ensures |vs| == |m.order|
    ensures forall i :: 0 <= i < |vs| ==> m.order[i] in m.entries && vs[i] == m.entries[m.order[i]]
  {
    seq(|m.order|, i requires 0 <= i < |m.order| => m.entries[m.order[i]])
  }

  /** A sequence without repetitions has as many elements as its set. */
  lemma {:induction false} DistinctCardinality<K>(s: seq<K>)
    requires Distinct(s)
    ensures |(set x | x in s)| == |s|
  {
    if |s| > 0 {
      DistinctCardinality(s[1..]);
      assert (set x | x in s) == {s[0]} + (set x | x in s[1..]);
      assert s[0] !in (set x | x in s[1..]);
    }
  }

  /** In a valid map the order has exactly one position per key. */
  lemma OrderLengthIsSize<K, V>(m: OMap<K, V>)
    requires Valid(m)
    ensures |m.order| == |m.entries|
  {
    DistinctCardinality(m.order);
    assert m.entries.Keys == (set x | x in m.order);
  }
}
