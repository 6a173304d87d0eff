/** Sums over the keys of finite maps. */
module Totals {

  ghost function Pick<K>(keys: set<K>): K
    requires keys != {}
  {
    var k :| k in keys; k
  }

  ghost function Total<K(!new)>(keys: set<K>, w: K -> nat): nat
    decreases |keys|
  {
    if keys == {} then 0 else var k := Pick(keys); w(k) + Total(keys - {k}, w)
  }

  lemma {:induction false} TotalSplit<K(!new)>(keys: set<K>, w: K -> nat, k: K)
    requires k in keys
    ensures Total(keys, w) == w(k) + Total(keys - {k}, w)
    decreases |keys|
  {
    var k0 := Pick(keys);
    if k != k0 {
      TotalSplit(keys - {k0}, w, k);
      TotalSplit(keys - {k}, w, k0);
      assert keys - {k0} - {k} == keys - {k} - {k0};
    }
  }

  lemma {:induction false} TotalSame<K(!new)>(keys: set<K>, w: K -> nat, w': K -> nat)
    requires forall k :: k in keys ==> w(k) == w'(k)
    ensures Total(keys, w) == Total(keys, w')
    decreases |keys|
  {
    if keys != {} { TotalSame(keys - {Pick(keys)}, w, w'); }
  }

  /** The weight of one key changes, which may be a new one. */
  lemma TotalSet<K(!new)>(keys: set<K>, w: K -> nat, w': K -> nat, k: K)
    requires forall x :: x in keys && x != k ==> w(x) == w'(x)
    ensures Total(keys + {k}, w') + (if k in keys then w(k) else 0) == Total(keys, w) + w'(k)
  {
    TotalSplit(keys + {k}, w', k);
    TotalSame(keys - {k}, w, w');
    assert keys + {k} - {k} == keys - {k};
    if k in keys { TotalSplit(keys, w, k); } else { assert keys - {k} == keys; }
  }

  ghost function MapTotal<K(!new), V>(m: map<K, V>, c: V -> nat): nat {
    Total(m.Keys, k => if k in m then c(m[k]) else 0)
  }

  lemma MapTotalSet<K(!new), V>(m: map<K, V>, c: V -> nat, k: K, v: V)
    ensures MapTotal(m[k := v], c) + (if k in m then c(m[k]) else 0) == MapTotal(m, c) + c(v)
  {
    var m' := m[k := v];
    assert m'.Keys == m.Keys + {k};
    TotalSet(m.Keys, x => if x in m then c(m[x]) else 0, x => if x in m' then c(m'[x]) else 0, k);
  }

  /** Values of the same weight may be exchanged. */
  lemma MapTotalSame<K(!new), V>(m: map<K, V>, m': map<K, V>, c: V -> nat)
    requires m.Keys == m'.Keys && forall k :: k in m ==> c(m[k]) == c(m'[k])
    ensures MapTotal(m, c) == MapTotal(m', c)
  {
    TotalSame(m.Keys, x => if x in m then c(m[x]) else 0, x => if x in m' then c(m'[x]) else 0);
  }

  lemma SizeOfSet<K, V>(m: map<K, V>, k: K, v: V)
    ensures |m[k := v]| <= |m| + 1
  {
    assert m[k := v].Keys == m.Keys + {k};
  }

  lemma SizeOfDrop<K, V>(m: map<K, V>, k: K)
    requires k in m
    ensures |m - {k}| == |m| - 1
  {
    assert (m - {k}).Keys == m.Keys - {k};
  }
}
