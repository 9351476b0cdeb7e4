/** `java.util.LinkedHashMap` with string keys: a map that remembers insertion order. */
module LinkedMaps {

  datatype LinkedMap<V> = LinkedMap(order: seq<string>, entries: map<string, V>) {

    /** Every key occurs once in the order, and the order lists exactly the keys. */
    ghost predicate Valid() {
      (forall i, j :: 0 <= i < j < |order| ==> order[i] != order[j])
      && (forall k :: k in entries <==> k in order)
    }

    /** `put`: a new key goes to the end; an existing key keeps its place and takes the new value. */
    function Put(k: string, v: V): (r: LinkedMap<V>)
      requires Valid()
      ensures r.Valid()
      ensures r.entries == entries[k := v]
      ensures k in entries ==> r.order == order
      ensures k !in entries ==> r.order == order + [k]
    {
      if k in entries then LinkedMap(order, entries[k := v])
      else LinkedMap(order + [k], entries[k := v])
    }

    /** `put(k, v)` for every key of `ks`, in order, with the same value. */
    function PutEach(ks: seq<string>, v: V): (r: LinkedMap<V>)
      requires Valid()
      ensures r.Valid()
      decreases |ks|
    {
      if ks == [] then this else PutEach(ks[..|ks| - 1], v).Put(ks[|ks| - 1], v)
    }
  }

  function Empty<V>(): (r: LinkedMap<V>)
    ensures r.Valid() && r.entries == map[] && r.order == []
  {
    LinkedMap([], map[])
  }

  /** After putting every key of `ks` with `v`, those keys map to `v` and all other entries are unchanged. */
  lemma {:induction false} PutEachEntries<V>(m: LinkedMap<V>, ks: seq<string>, v: V)
    requires m.Valid()
    ensures forall k :: k in m.PutEach(ks, v).entries <==> k in m.entries || k in ks
    ensures forall k :: k in ks ==> m.PutEach(ks, v).entries[k] == v
    ensures forall k :: k in m.entries && k !in ks ==> m.PutEach(ks, v).entries[k] == m.entries[k]
    decreases |ks|
  {
    if ks != [] {
      var front := ks[..|ks| - 1];
      PutEachEntries(m, front, v);
      assert forall k :: k in ks <==> k in front || k == ks[|ks| - 1];
    }
  }

  /** Keys already present keep their place; new keys are appended, so the old order is a prefix. */
  lemma {:induction false} PutEachKeepsOrder<V>(m: LinkedMap<V>, ks: seq<string>, v: V)
    requires m.Valid()
    ensures |m.order| <= |m.PutEach(ks, v).order|
    ensures m.PutEach(ks, v).order[..|m.order|] == m.order
    decreases |ks|
  {
    if ks != [] {
      PutEachKeepsOrder(m, ks[..|ks| - 1], v);
    }
  }

  /** The keys among the first `n` of an order. */
  function KeysBefore(order: seq<string>, n: nat): (r: set<string>)
    requires n <= |order|
    ensures forall k :: k in r ==> k in order
  {
    if n == 0 then {} else KeysBefore(order, n - 1) + {order[n - 1]}
  }

  /** The keys before position `n` are exactly those of the prefix of length `n`. */
  lemma {:induction false} KeysBeforePrefix(order: seq<string>, n: nat)
    requires n <= |order|
    ensures forall k :: k in KeysBefore(order, n) <==> k in order[..n]
  {
    if n > 0 {
      KeysBeforePrefix(order, n - 1);
      assert order[..n] == order[..n - 1] + [order[n - 1]];
    }
  }
}
