/**
 * A Python `dict` with its insertion order: the keys in the order they were
 * first inserted, plus the key-to-value map. Assigning to a key that is
 * already present replaces its value and keeps its position.
 */
module PyDict {

  datatype Dict<K(!new), V> = Dict(keys: seq<K>, entries: map<K, V>)
  {
    /** Each key listed once, and the listed keys are exactly the stored keys. */
    ghost predicate Valid()
    {
      && (forall i, j :: 0 <= i < j < |keys| ==> keys[i] != keys[j])
      && Listed()
    }

    /** The listed keys are exactly the stored keys: all a reader of the dict relies on. */
    ghost predicate Listed()
    {
      forall k :: k in keys <==> k in entries
    }

    /** `d[k] = v`. */
    function Put(k: K, v: V): (r: Dict<K, V>)
      ensures Valid() ==> r.Valid()
      ensures r.entries.Keys == entries.Keys + {k} && r.entries[k] == v
      ensures forall k' :: k' in entries && k' != k ==> r.entries[k'] == entries[k']
      ensures k in entries ==> r.keys == keys
      ensures k !in entries ==> r.keys == keys + [k]
    {
      Dict(if k in entries then keys else keys + [k], entries[k := v])
    }
  }

  /** Assigning a key twice leaves the second value, at the key's first position. */
  lemma PutPut<K(!new), V>(d: Dict<K, V>, k: K, v1: V, v2: V)
    ensures d.Put(k, v1).Put(k, v2) == d.Put(k, v2)
  {
    assert d.Put(k, v1).Put(k, v2).entries == d.Put(k, v2).entries;
  }

  /** `{}`. */
  function Empty<K(!new), V>(): (d: Dict<K, V>)
    ensures d.Valid() && d.keys == [] && d.entries == map[]
  {
    Dict([], map[])
  }

  /** Position of the first occurrence of `x` in `s`, or `|s|` when it does not occur. */
  function FirstIndex<K(==)>(s: seq<K>, x: K): (i: nat)
    ensures i <= |s|
    ensures i < |s| <==> x in s
    ensures i < |s| ==> s[i] == x && forall j :: 0 <= j < i ==> s[j] != x
  {
    if s == [] then 0 else if s[0] == x then 0 else 1 + FirstIndex(s[1..], x)
  }

  /**
   * `keys` lists every distinct element of `s` exactly once, ordered by where
   * each first occurs in `s`: the key order of a dict filled from `s`.
   */
  ghost predicate InFirstAppearanceOrder<K(!new)>(keys: seq<K>, s: seq<K>)
  {
    && (forall i, j :: 0 <= i < j < |keys| ==> keys[i] != keys[j])
    && (forall x :: x in keys <==> x in s)
    && (forall i, j :: 0 <= i < j < |keys| ==> FirstIndex(s, keys[i]) < FirstIndex(s, keys[j]))
  }

  lemma FirstIndexSnoc<K>(s: seq<K>, x: K, y: K)
    requires y in s
    ensures FirstIndex(s + [x], y) == FirstIndex(s, y)
  {
    var i := FirstIndex(s, y);
    var t := s + [x];
    assert t[i] == y;
    assert forall j :: 0 <= j < i ==> t[j] != y;
  }

  /**
   * Assigning `d[k]` after the keys met so far were `s` keeps the key order
   * "by first appearance" once `k` is met too.
   */
  lemma PutKeepsFirstAppearanceOrder<K(!new), V>(d: Dict<K, V>, s: seq<K>, k: K, v: V)
    requires d.Listed() && InFirstAppearanceOrder(d.keys, s)
    ensures InFirstAppearanceOrder(d.Put(k, v).keys, s + [k])
  {
    if k in d.entries {
      OrderAfterMetKey(d.keys, s, k);
    } else {
      OrderAfterNewKey(d.keys, s, k);
    }
  }

  /** Meeting a key already listed leaves the order by first appearance as it was. */
  lemma OrderAfterMetKey<K(!new)>(keys: seq<K>, s: seq<K>, k: K)
    requires InFirstAppearanceOrder(keys, s) && k in keys
    ensures InFirstAppearanceOrder(keys, s + [k])
  {
    var t := s + [k];
    forall i, j | 0 <= i < j < |keys|
      ensures FirstIndex(t, keys[i]) < FirstIndex(t, keys[j])
    {
      FirstIndexSnoc(s, k, keys[i]);
      FirstIndexSnoc(s, k, keys[j]);
    }
  }

  /** Meeting a new key puts it last in the order by first appearance. */
  lemma OrderAfterNewKey<K(!new)>(keys: seq<K>, s: seq<K>, k: K)
    requires InFirstAppearanceOrder(keys, s) && k !in keys
    ensures InFirstAppearanceOrder(keys + [k], s + [k])
  {
    var t, r := s + [k], keys + [k];
    assert FirstIndex(t, k) == |s|;
    forall i, j | 0 <= i < j < |r|
      ensures FirstIndex(t, r[i]) < FirstIndex(t, r[j])
    {
      assert r[i] == keys[i];
      FirstIndexSnoc(s, k, keys[i]);
      if j < |keys| {
        assert r[j] == keys[j];
        FirstIndexSnoc(s, k, keys[j]);
      }
    }
  }
}
