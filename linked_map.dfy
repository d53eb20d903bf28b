/**
 * `java.util.LinkedHashMap` as a value: a finite map together with its keys
 * in first-insertion order. Putting a key that is already present replaces
 * its value and leaves its position alone.
 */
module LinkedMaps {

  datatype LinkedMap<K(==, !new), V> = LinkedMap(keys: seq<K>, values: map<K, V>) {

    /** The keys are listed once each and are exactly the mapped keys. */
    ghost predicate Valid() {
      && (forall i, j :: 0 <= i < j < |keys| ==> keys[i] != keys[j])
      && (forall k :: k in values <==> k in keys)
    }

    /** `map[k] = v` on a LinkedHashMap. */
    function Put(k: K, v: V): (r: LinkedMap<K, V>)
      requires Valid()
      ensures r.Valid()
      ensures r.values == values[k := v]
      ensures k in values ==> r.keys == keys
      ensures k !in values ==> r.keys == keys + [k]
    {
      LinkedMap(if k in values then keys else keys + [k], values[k := v])
    }
  }

  /** `LinkedHashMap()`: no keys. */
  function Empty<K(==, !new), V>(): (r: LinkedMap<K, V>)
    ensures r.Valid() && r.keys == [] && r.values == map[]
  {
    LinkedMap([], map[])
  }

  /** The keys of a sequence of puts, in order, repetitions included. */
  function PutKeys<K, V>(ps: seq<(K, V)>): (ks: seq<K>)
    ensures |ks| == |ps| && forall i :: 0 <= i < |ps| ==> ks[i] == ps[i].0
  {
    seq(|ps|, i requires 0 <= i < |ps| => ps[i].0)
  }

  /** The map built by putting the pairs of `ps` in order into an empty map. */
  function FromPuts<K(==, !new), V>(ps: seq<(K, V)>): (r: LinkedMap<K, V>)
    ensures r.Valid()
  {
    if ps == [] then Empty() else FromPuts(ps[..|ps| - 1]).Put(ps[|ps| - 1].0, ps[|ps| - 1].1)
  }

  /** The index of the first occurrence of `k` in `ks`. */
  function FirstIndex<K(==)>(ks: seq<K>, k: K): (i: nat)
    requires k in ks
    ensures i < |ks| && ks[i] == k && k !in ks[..i]
  {
    if ks[0] == k then 0 else 1 + FirstIndex(ks[1..], k)
  }

  /** The value of the last pair of `ps` whose key is `k`. */
  function LastValue<K(==), V>(ps: seq<(K, V)>, k: K): (v: V)
    requires k in PutKeys(ps)
    ensures (k, v) in ps
  {
    var n := |ps| - 1;
    if ps[n].0 == k then ps[n].1
    else
      assert PutKeys(ps[..n]) + [k] == PutKeys(ps) || k in PutKeys(ps[..n]);
      LastValue(ps[..n], k)
  }

  /** One more put at the end of the sequence is one more `Put` on the map. */
  lemma FromPutsSnoc<K(!new), V>(ps: seq<(K, V)>, k: K, v: V)
    ensures FromPuts(ps + [(k, v)]) == FromPuts(ps).Put(k, v)
  {
    assert (ps + [(k, v)])[..|ps|] == ps;
  }

  /** A map filled by puts holds exactly the keys that were put. */
  lemma {:induction false} FromPutsKeys<K(!new), V>(ps: seq<(K, V)>)
    ensures forall k :: k in FromPuts(ps).values <==> k in PutKeys(ps)
  {
    if ps != [] {
      var n := |ps| - 1;
      FromPutsKeys(ps[..n]);
      assert PutKeys(ps) == PutKeys(ps[..n]) + [ps[n].0];
    }
  }

  /** A map filled by puts holds, under each key, the value of the last put of that key. */
  lemma {:induction false} FromPutsLastValueWins<K(!new), V>(ps: seq<(K, V)>, k: K)
    requires k in PutKeys(ps)
    ensures k in FromPuts(ps).values && FromPuts(ps).values[k] == LastValue(ps, k)
  {
    FromPutsKeys(ps);
    var n := |ps| - 1;
    if ps[n].0 != k {
      assert PutKeys(ps) == PutKeys(ps[..n]) + [ps[n].0];
      FromPutsLastValueWins(ps[..n], k);
    }
  }

  /** A map filled by puts lists its keys in the order of their first put. */
  lemma {:induction false} FromPutsFirstInsertionOrder<K(!new), V>(ps: seq<(K, V)>, i: nat, j: nat)
    requires i < j < |FromPuts(ps).keys|
    ensures FromPuts(ps).keys[i] in PutKeys(ps) && FromPuts(ps).keys[j] in PutKeys(ps)
    ensures FirstIndex(PutKeys(ps), FromPuts(ps).keys[i]) < FirstIndex(PutKeys(ps), FromPuts(ps).keys[j])
  {
    FromPutsKeys(ps);
    var n := |ps| - 1;
    var init := ps[..n];
    var m := FromPuts(init);
    var r := FromPuts(ps);
    FromPutsKeys(init);
    assert PutKeys(ps) == PutKeys(init) + [ps[n].0];
    assert r.keys[i] in m.values;
    FirstIndexOfPrefix(PutKeys(init), ps[n].0, r.keys[i]);
    if j < |m.keys| {
      FromPutsFirstInsertionOrder(init, i, j);
      FirstIndexOfPrefix(PutKeys(init), ps[n].0, r.keys[j]);
    } else {
      assert r.keys[j] == ps[n].0 && r.keys[j] !in PutKeys(init);
    }
  }

  /** Appending to a sequence does not move the first occurrence of an element it already holds. */
  lemma {:induction false} FirstIndexOfPrefix<K>(ks: seq<K>, x: K, k: K)
    requires k in ks
    ensures FirstIndex(ks + [x], k) == FirstIndex(ks, k)
  {
    if ks[0] != k {
      assert (ks + [x])[1..] == ks[1..] + [x];
      FirstIndexOfPrefix(ks[1..], x, k);
    }
  }

  /** A distinct key list has as many elements as its map has keys. */
  lemma SizeIsKeyCount<K(!new), V>(m: LinkedMap<K, V>)
    requires m.Valid()
    ensures |m.values| == |m.keys|
  {
    DistinctElements(m.keys);
    assert m.values.Keys == set k | k in m.keys;
  }

  /** A sequence without repetitions has as many distinct elements as it is long. */
  lemma {:induction false} DistinctElements<K>(ks: seq<K>)
    requires forall i, j :: 0 <= i < j < |ks| ==> ks[i] != ks[j]
    ensures |set k | k in ks| == |ks|
  {
    if ks != [] {
      var n := |ks| - 1;
      DistinctElements(ks[..n]);
      assert (set k | k in ks) == (set k | k in ks[..n]) + {ks[n]};
    }
  }
}
