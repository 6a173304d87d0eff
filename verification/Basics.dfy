/** Notions that several models share. */
module Basics {

  datatype Option<+T> = None | Some(value: T)

  /** The number of values of a 32-bit unsigned integer. */
  const U32: nat := 0x1_0000_0000

  function Min(a: nat, b: nat): nat {
    if a < b then a else b
  }

  /** A key that has no entry yet has the initial value `d`. */
  function Get<K, V>(m: map<K, V>, k: K, d: V): V {
    if k in m then m[k] else d
  }

  ghost predicate Distinct<T>(s: seq<T>) {
    forall i, j :: 0 <= i < j < |s| ==> s[i] != s[j]
  }

  ghost function IndexOf<T>(s: seq<T>, x: T): (i: int)
    requires x in s
    ensures 0 <= i < |s| && s[i] == x
  {
    var i :| 0 <= i < |s| && s[i] == x; i
  }

  lemma DistinctJoined<T>(a: seq<T>, b: seq<T>)
    requires Distinct(a) && Distinct(b) && forall x :: x in a ==> x !in b
    ensures Distinct(a + b)
  {
    forall i, j | 0 <= i < j < |a + b| ensures (a + b)[i] != (a + b)[j] {
      if i < |a| <= j { assert a[i] in a && b[j - |a|] in b; }
    }
  }

  /** A queue keeps its order: if it does in each step, it does in all. */
  lemma FlowsOn<T>(taken: seq<T>, list: seq<T>, given: seq<T>, out: seq<T>, list': seq<T>, more: seq<T>)
    requires taken + list == given && out + list' == list + more
    ensures (taken + out) + list' == given + more
  {
    assert (taken + out) + list' == taken + (out + list');
    assert taken + (list + more) == (taken + list) + more;
  }
}
