/** Paths as strings: how the traversal names the entries that it visits, and how a copy names their targets. */
module PathNames {

  type Name = string
  type Path = seq<Name>

  predicate IsName(n: Name) {
    n != "" && forall i :: 0 <= i < |n| ==> n[i] != '/'
  }

  predicate AreNames(rel: Path) {
    forall i :: 0 <= i < |rel| ==> IsName(rel[i])
  }

  /** `p` with a slash at its end. */
  function Base(p: string): (b: string)
    ensures b != "" && b[|b| - 1] == '/'
  {
    if p != "" && p[|p| - 1] == '/' then p else p + "/"
  }

  /** The traversal's path of the entry `rel` below `root`: a slash is added only where there is none. */
  function PathOf(root: string, rel: Path): string {
    if rel == [] then root else Base(PathOf(root, rel[..|rel| - 1])) + rel[|rel| - 1]
  }

  /** The length of the first component of a path that does not start with a slash. */
  function Word(s: string): (n: nat)
    ensures n <= |s| && (n < |s| ==> s[n] == '/') && forall i :: 0 <= i < n ==> s[i] != '/'
  {
    if s == "" || s[0] == '/' then 0 else 1 + Word(s[1..])
  }

  /** The components that the system sees in a path: repeated and trailing slashes mean nothing. */
  function Split(s: string): Path {
    if s == "" then []
    else if s[0] == '/' then Split(s[1..])
    else [s[..Word(s)]] + Split(s[Word(s)..])
  }

  lemma {:induction false} WordUnique(s: string, n: nat)
    requires n <= |s| && (n < |s| ==> s[n] == '/') && forall i :: 0 <= i < n ==> s[i] != '/'
    ensures Word(s) == n
  {
    if n > 0 { WordUnique(s[1..], n - 1); }
  }

  lemma {:induction false} SplitJoin(a: string, b: string)
    ensures Split(a + "/" + b) == Split(a) + Split(b)
    decreases |a|
  {
    var c := a + "/" + b;
    if a == "" {
      assert c[1..] == b;
    } else if a[0] == '/' {
      assert c[1..] == a[1..] + "/" + b;
      SplitJoin(a[1..], b);
    } else {
      var n := Word(a);
      WordUnique(c, n);
      assert c[..n] == a[..n] && c[n..] == a[n..] + "/" + b;
      SplitJoin(a[n..], b);
    }
  }

  /** Leading, trailing and repeated slashes mean nothing, and no component is empty or has a slash. */
  lemma SlashesMeanNothing(a: string, b: string)
    ensures Split("/" + a) == Split(a) == Split(a + "/")
    ensures Split(a + "//" + b) == Split(a + "/" + b)
    ensures AreNames(Split(a))
  {
    assert ("/" + a)[1..] == a;
    SplitJoin(a, "");
    assert a + "/" + "" == a + "/";
    SplitJoin(a, "/" + b);
    SplitJoin(a, b);
    assert ("/" + b)[1..] == b && a + "/" + ("/" + b) == a + "//" + b;
    SplitNames(a);
  }

  lemma {:induction false} SplitNames(s: string)
    ensures AreNames(Split(s))
    decreases |s|
  {
    if s == "" {
    } else if s[0] == '/' {
      SplitNames(s[1..]);
    } else {
      SplitNames(s[Word(s)..]);
    }
  }

  lemma SplitName(n: Name)
    requires IsName(n)
    ensures Split(n) == [n]
  {
    WordUnique(n, |n|);
    assert n[..|n|] == n && n[|n|..] == "";
  }

  lemma SplitBase(p: string, tail: string)
    ensures Split(Base(p) + tail) == Split(p) + Split(tail)
  {
    if p != "" && p[|p| - 1] == '/' {
      var a := p[..|p| - 1];
      assert p == a + "/" == a + "/" + "";
      SplitJoin(a, "");
      assert p + tail == a + "/" + tail;
      SplitJoin(a, tail);
    } else {
      assert Base(p) + tail == p + "/" + tail;
      SplitJoin(p, tail);
    }
  }

  /** What the path of an entry adds to the path of the root. */
  function Tail(rel: Path): string
    requires rel != []
  {
    if |rel| == 1 then rel[0] else Base(Tail(rel[..|rel| - 1])) + rel[|rel| - 1]
  }

  predicate NoSlashAtEnd(p: string) {
    p != "" && p[|p| - 1] != '/'
  }

  lemma BaseOfJoin(a: string, b: string)
    requires NoSlashAtEnd(b)
    ensures NoSlashAtEnd(a + b) && Base(a + b) == a + Base(b)
  {
    assert (a + b)[|a + b| - 1] == b[|b| - 1];
    assert Base(a + b) == a + b + "/" == a + (b + "/");
  }

  lemma OneMore(root: string, up: Path, n: Name)
    ensures PathOf(root, up + [n]) == Base(PathOf(root, up)) + n
    ensures Tail(up + [n]) == if up == [] then n else Base(Tail(up)) + n
  {
    assert (up + [n])[..|up|] == up;
  }

  lemma LongerTail(root: string, tail: string, n: Name)
    requires NoSlashAtEnd(tail) && IsName(n)
    ensures Base(Base(root) + tail) + n == Base(root) + (Base(tail) + n)
    ensures NoSlashAtEnd(Base(tail) + n) && Split(Base(tail) + n) == Split(tail) + [n]
  {
    assert NoSlashAtEnd(n);
    hide Split, Base, IsName;
    SplitName(n);
    SplitBase(tail, n);
    BaseOfJoin(Base(root), tail);
    BaseOfJoin(Base(tail), n);
    Associates(Base(root), Base(tail), n);
  }

  lemma Associates(a: string, b: string, c: string)
    ensures a + b + c == a + (b + c)
  {
  }

  lemma {:induction false} TailOf(root: string, rel: Path)
    requires rel != [] && AreNames(rel)
    ensures PathOf(root, rel) == Base(root) + Tail(rel) && NoSlashAtEnd(Tail(rel))
    ensures Split(Tail(rel)) == rel
  {
    var up, n := rel[..|rel| - 1], rel[|rel| - 1];
    assert rel == up + [n] && IsName(n) && AreNames(up);
    OneMore(root, up, n);
    if up == [] {
      SplitName(n);
    } else {
      hide Split, PathOf, Tail, Base, Word, IsName, AreNames, NoSlashAtEnd;
      TailOf(root, up);
      LongerTail(root, Tail(up), n);
    }
  }

  /** The copy cuts the source's prefix off an entry's path and puts the target's in front: with or without
      slashes at the ends of the two, the result names the same entry below the target, and only the root has
      nothing left after the prefix. */
  lemma ReRooted(src: string, dst: string, rel: Path)
    requires AreNames(rel)
    ensures Split(PathOf(src, rel)) == Split(src) + rel
    ensures |PathOf(src, rel)| > |Base(src)| <==> rel != []
    ensures rel != [] ==> Split(Base(dst) + PathOf(src, rel)[|Base(src)|..]) == Split(dst) + rel
  {
    if rel != [] {
      TailOf(src, rel);
      SplitBase(src, Tail(rel));
      SplitBase(dst, Tail(rel));
      assert PathOf(src, rel)[|Base(src)|..] == Tail(rel);
    }
  }
}
