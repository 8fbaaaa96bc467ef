/** A JavaScript `Map` with numeric keys, as a value: its entries plus the order in which the keys were
    first set, which is the order `values()` iterates in. */
module OrderedMaps {
  import opened Wrappers

  datatype OrderedMap<V> = OrderedMap(keys: seq<int>, entries: map<int, V>) {

    /** Every key appears once in the order, and exactly the keys with an entry appear. */
    ghost predicate Valid()
    {
      (forall i, j :: 0 <= i < j < |keys| ==> keys[i] != keys[j])
      && KeysHaveEntries()
      && (forall k :: k in entries ==> k in keys)
    }

    /** `map.get(k)`. */
    function Get(k: int): (r: Option<V>)
      ensures r.Some? <==> k in entries
      ensures r.Some? ==> r.value == entries[k]
    {
      if k in entries then Some(entries[k]) else None
    }

    /** `map.set(k, v)`: a new key goes to the end of the iteration order, an existing key keeps its place. */
    function Set(k: int, v: V): OrderedMap<V>
    {
      OrderedMap(if k in keys then keys else keys + [k], entries[k := v])
    }

    /** Every key in the order has an entry (part of `Valid`, and all `Values` needs). */
    ghost predicate KeysHaveEntries()
    {
      forall i :: 0 <= i < |keys| ==> keys[i] in entries
    }

    /** `Array.from(map.values())`: the values in key order. */
    function Values(): (r: seq<V>)
      requires KeysHaveEntries()
      ensures |r| == |keys|
      ensures forall i :: 0 <= i < |keys| ==> r[i] == entries[keys[i]]
    {
      seq(|keys|, i requires 0 <= i < |keys| && keys[i] in entries => entries[keys[i]])
    }
  }

  /** `new Map()`. */
  function Empty<V>(): (m: OrderedMap<V>)
    ensures m.Valid() && m.keys == [] && m.entries == map[]
  {
    OrderedMap([], map[])
  }

  /** `set` keeps a map well formed, stores the value under its key and leaves every other key alone. */
  lemma SetValid<V>(m: OrderedMap<V>, k: int, v: V)
    requires m.Valid()
    ensures m.Set(k, v).Valid()
    ensures m.Set(k, v).Get(k) == Some(v)
    ensures forall j :: j != k ==> m.Set(k, v).Get(j) == m.Get(j)
  {
  }

  /** Setting a new key appends its value to the iteration. */
  lemma SetNewValues<V>(m: OrderedMap<V>, k: int, v: V)
    requires m.Valid() && k !in m.entries
    ensures m.Set(k, v).Valid() && m.Set(k, v).KeysHaveEntries()
    ensures m.Set(k, v).keys == m.keys + [k]
    ensures m.Set(k, v).Values() == m.Values() + [v]
  {
    SetValid(m, k, v);
    assert m.Set(k, v).Values() == m.Values() + [v];
  }

  /** Setting an existing key replaces its value where it stands in the iteration. */
  lemma SetExistingValues<V>(m: OrderedMap<V>, k: int, v: V, i: int)
    requires m.Valid() && 0 <= i < |m.keys| && m.keys[i] == k
    ensures m.Set(k, v).Valid() && m.Set(k, v).KeysHaveEntries()
    ensures m.Set(k, v).keys == m.keys
    ensures m.Set(k, v).Values() == m.Values()[i := v]
  {
    SetValid(m, k, v);
    assert m.Set(k, v).Values() == m.Values()[i := v];
  }
}
