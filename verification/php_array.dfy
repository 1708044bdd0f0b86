/** A PHP array: its entries in insertion order, each a key and a value. */
module PhpArray {
  import opened Wrappers

  /** The keys that have an entry. */
  function Keys<K(==,!new), V>(a: seq<(K, V)>): set<K> {
    if a == [] then {} else {a[0].0} + Keys(a[1..])
  }

  /** No key has two entries, as in every PHP array. */
  predicate DistinctKeys<K(==,!new), V>(a: seq<(K, V)>) {
    forall i, j :: 0 <= i < j < |a| ==> a[i].0 != a[j].0
  }

  /** `$a[key]`: the value of the first entry for key; None when unset. */
  function Lookup<K(==,!new), V>(a: seq<(K, V)>, key: K): (r: Option<V>)
    ensures r.Some? <==> key in Keys(a)
  {
    if a == [] then None
    else
      assert a == [a[0]] + a[1..];
      KeysCons(a[0], a[1..]);
      if a[0].0 == key then Some(a[0].1) else Lookup(a[1..], key)
  }

  lemma KeysCons<K(!new), V>(x: (K, V), a: seq<(K, V)>)
    ensures Keys([x] + a) == {x.0} + Keys(a)
  {
    assert ([x] + a)[1..] == a;
  }

  lemma {:induction false} KeysAt<K(!new), V>(a: seq<(K, V)>, k: K)
    ensures k in Keys(a) <==> exists i :: 0 <= i < |a| && a[i].0 == k
  {
    if a != [] {
      KeysAt(a[1..], k);
      if k in Keys(a[1..]) {
        var i :| 0 <= i < |a[1..]| && a[1..][i].0 == k;
        assert a[i + 1].0 == k;
      }
      if exists i :: 0 <= i < |a| && a[i].0 == k {
        var i :| 0 <= i < |a| && a[i].0 == k;
        if i > 0 { assert a[1..][i - 1].0 == k; }
      }
    }
  }

  lemma DistinctCons<K(!new), V>(x: (K, V), a: seq<(K, V)>)
    ensures DistinctKeys([x] + a) <==> x.0 !in Keys(a) && DistinctKeys(a)
  {
    var b := [x] + a;
    KeysAt(a, x.0);
    if DistinctKeys(b) {
      forall i, j | 0 <= i < j < |a| ensures a[i].0 != a[j].0 {
        assert a[i] == b[i + 1] && a[j] == b[j + 1];
      }
      forall i | 0 <= i < |a| ensures a[i].0 != x.0 {
        assert b[i + 1] == a[i] && b[0] == x;
        assert b[0].0 != b[i + 1].0;
      }
    }
    if x.0 !in Keys(a) && DistinctKeys(a) {
      forall i, j | 0 <= i < j < |b| ensures b[i].0 != b[j].0 {
        assert b[j] == a[j - 1];
        if i > 0 { assert b[i] == a[i - 1]; }
      }
    }
  }

  /** Looking up in an array with one more entry at its start. */
  lemma LookupCons<K(!new), V>(x: (K, V), a: seq<(K, V)>, k: K)
    ensures Lookup([x] + a, k) == if x.0 == k then Some(x.1) else Lookup(a, k)
  {
    assert ([x] + a)[0] == x && ([x] + a)[1..] == a;
  }

  /** Looking up in an array with one more entry at its end. */
  lemma {:induction false} LookupSnoc<K(!new), V>(a: seq<(K, V)>, x: (K, V), k: K)
    ensures Lookup(a + [x], k) ==
      if k in Keys(a) then Lookup(a, k) else if x.0 == k then Some(x.1) else None
  {
    if a == [] {
      assert [x][1..] == [];
      assert a + [x] == [x];
    } else {
      assert (a + [x])[0] == a[0] && (a + [x])[1..] == a[1..] + [x];
      assert a == [a[0]] + a[1..];
      KeysCons(a[0], a[1..]);
      LookupSnoc(a[1..], x, k);
    }
  }

  /** The entries before the last one of an array have distinct keys, none
      of them the last one's. */
  lemma DistinctSnoc<K(!new), V>(a: seq<(K, V)>, x: (K, V))
    requires DistinctKeys(a + [x])
    ensures DistinctKeys(a) && x.0 !in Keys(a)
  {
    var b := a + [x];
    KeysAt(a, x.0);
    forall i | 0 <= i < |a| ensures a[i].0 != x.0 {
      assert b[i] == a[i] && b[|a|] == x;
    }
    forall i, j | 0 <= i < j < |a| ensures a[i].0 != a[j].0 {
      assert b[i] == a[i] && b[j] == a[j];
    }
  }
}
