/** Copying and removing a directory tree by following the traversal of its entries, on a file system that
    maps paths to entries. */
module FileTree {
  import opened Basics

  type Name = string
  type Path = seq<Name>
  type Data = seq<bv8>

  /** A link with what opening it finds, if that is a file; `Strange` is anything that the traversal reports as
      an error or as unexpected. */
  datatype Entry = Directory | File(data: Data) | Link(target: Option<Data>) | Strange

  type Files = map<Path, Entry>

  function Find(fs: Files, p: Path): Option<Entry> {
    if p in fs then Some(fs[p]) else None
  }

  // ---------------------------------------------------------------------------------------------
  // trees and their traversal

  /** The entries below a path, in the order in which a directory lists its children. */
  datatype Tree = Leaf(entry: Entry) | Node(children: Children)
  datatype Children = Nil | Cons(name: Name, tree: Tree, rest: Children)

  function Names(cs: Children): set<Name> {
    match cs case Nil => {} case Cons(n, _, rest) => {n} + Names(rest)
  }

  /** Names in a directory differ, and only directories have children. */
  predicate ProperTree(t: Tree) {
    match t case Leaf(e) => e != Directory case Node(cs) => ProperChildren(cs)
  }

  predicate ProperChildren(cs: Children) {
    match cs case Nil => true case Cons(n, t, rest) => n !in Names(rest) && ProperTree(t) && ProperChildren(rest)
  }

  /** What the tree has at a relative path. */
  function Lookup(t: Tree, rel: Path): Option<Entry>
    decreases t, 0
  {
    match t
    case Leaf(e) => if rel == [] then Some(e) else None
    case Node(cs) => if rel == [] then Some(Directory) else LookupChild(cs, rel)
  }

  function LookupChild(cs: Children, rel: Path): Option<Entry>
    requires rel != []
    decreases cs, 1
  {
    match cs
    case Nil => None
    case Cons(n, t, rest) => if rel[0] == n then Lookup(t, rel[1..]) else LookupChild(rest, rel)
  }

  /** The file system has exactly the tree `t` at `p`. */
  ghost predicate Holds(fs: Files, p: Path, t: Tree) {
    forall q :: p <= q ==> Find(fs, q) == Lookup(t, q[|p|..])
  }

  datatype Kind = Enter | Leave | AtFile | AtLink | AtStrange
  datatype Visit = Visit(kind: Kind, rel: Path)

  /** How an entry is reported. The traversal is told not to look at the entries themselves; a link whose kind
      it then does not know is reported like a file (`plain`). */
  function LeafKind(e: Entry, plain: bool): Kind {
    match e
    case File(_) => AtFile
    case Link(_) => if plain then AtFile else AtLink
    case _ => AtStrange
  }

  /** The traversal: a directory is visited before and after its children. `plain` are the relative paths whose
      links are reported like files. */
  function Walk(t: Tree, rel: Path, plain: set<Path>): seq<Visit> {
    match t
    case Leaf(e) => [Visit(LeafKind(e, rel in plain), rel)]
    case Node(cs) => [Visit(Enter, rel)] + WalkChildren(cs, rel, plain) + [Visit(Leave, rel)]
  }

  function WalkChildren(cs: Children, rel: Path, plain: set<Path>): seq<Visit> {
    match cs case Nil => [] case Cons(n, t, rest) => Walk(t, rel + [n], plain) + WalkChildren(rest, rel, plain)
  }

  // ---------------------------------------------------------------------------------------------
  // operations of the file system

  datatype Error = Denied | Unexpected | Dangling | Exists | NoParent | NoEntry | NotEmpty | IsDirectory | NotDirectory

  datatype Outcome = Outcome(fs: Files, error: Option<Error>)

  predicate HasParent(fs: Files, p: Path) {
    p != [] && Find(fs, p[..|p| - 1]) == Some(Directory)
  }

  /** Nothing exists strictly below `p`. */
  predicate Empty(fs: Files, p: Path) {
    forall q :: q in fs ==> !(p < q)
  }

  /** Nothing exists at or below `p`. */
  ghost predicate Absent(fs: Files, p: Path) {
    forall q :: p <= q ==> q !in fs
  }

  /** `denied` are the paths on which every operation fails for reasons of its own. */
  function MakeDirectory(fs: Files, denied: set<Path>, p: Path): Outcome {
    if p in denied then Outcome(fs, Some(Denied))
    else if p in fs then Outcome(fs, Some(Exists))
    else if !HasParent(fs, p) then Outcome(fs, Some(NoParent))
    else Outcome(fs[p := Directory], None)
  }

  /** What opening an entry for reading finds. */
  function Opened(e: Entry): Option<Data> {
    match e case File(data) => Some(data) case Link(target) => target case _ => None
  }

  /** Opens `from` for reading and creates or truncates `to`. */
  function CopyFile(fs: Files, denied: set<Path>, to: Path, from: Path): Outcome {
    if from in denied || to in denied then Outcome(fs, Some(Denied))
    else if from !in fs then Outcome(fs, Some(NoEntry))
    else if Opened(fs[from]) == None then Outcome(fs, Some(Dangling))
    else if !HasParent(fs, to) then Outcome(fs, Some(NoParent))
    else if Find(fs, to) == Some(Directory) then Outcome(fs, Some(IsDirectory))
    else Outcome(fs[to := File(Opened(fs[from]).value)], None)
  }

  function Unlink(fs: Files, denied: set<Path>, p: Path): Outcome {
    if p in denied then Outcome(fs, Some(Denied))
    else if p !in fs then Outcome(fs, Some(NoEntry))
    else if fs[p] == Directory then Outcome(fs, Some(IsDirectory))
    else Outcome(fs - {p}, None)
  }

  function RemoveDirectory(fs: Files, denied: set<Path>, p: Path): Outcome {
    if p in denied then Outcome(fs, Some(Denied))
    else if p !in fs then Outcome(fs, Some(NoEntry))
    else if fs[p] != Directory then Outcome(fs, Some(NotDirectory))
    else if !Empty(fs, p) then Outcome(fs, Some(NotEmpty))
    else Outcome(fs - {p}, None)
  }

  // ---------------------------------------------------------------------------------------------
  // following the traversal

  /** What copying does at one visit of the tree at `s`, below `d`. The root is not copied, nor are links. */
  function CopyVisit(fs: Files, denied: set<Path>, s: Path, d: Path, v: Visit): Outcome {
    if v.kind == AtStrange then Outcome(fs, Some(Unexpected))
    else if v.rel == [] then Outcome(fs, None)
    else if v.kind == AtFile then CopyFile(fs, denied, d + v.rel, s + v.rel)
    else if v.kind == Enter then MakeDirectory(fs, denied, d + v.rel)
    else Outcome(fs, None)
  }

  function CopyVisits(fs: Files, denied: set<Path>, s: Path, d: Path, vs: seq<Visit>): Outcome
    decreases vs
  {
    if vs == [] then Outcome(fs, None)
    else
      var o := CopyVisit(fs, denied, s, d, vs[0]);
      if o.error.Some? then o else CopyVisits(o.fs, denied, s, d, vs[1..])
  }

  function RemoveVisit(fs: Files, denied: set<Path>, p: Path, v: Visit): Outcome {
    match v.kind
    case AtFile => Unlink(fs, denied, p + v.rel)
    case AtLink => Unlink(fs, denied, p + v.rel)
    case Leave => RemoveDirectory(fs, denied, p + v.rel)
    case Enter => Outcome(fs, None)
    case AtStrange => Outcome(fs, Some(Unexpected))
  }

  function RemoveVisits(fs: Files, denied: set<Path>, p: Path, vs: seq<Visit>): Outcome
    decreases vs
  {
    if vs == [] then Outcome(fs, None)
    else
      var o := RemoveVisit(fs, denied, p, vs[0]);
      if o.error.Some? then o else RemoveVisits(o.fs, denied, p, vs[1..])
  }

  lemma {:induction false} CopyJoin(fs: Files, denied: set<Path>, s: Path, d: Path, a: seq<Visit>, b: seq<Visit>)
    ensures var o := CopyVisits(fs, denied, s, d, a);
            CopyVisits(fs, denied, s, d, a + b) == if o.error.Some? then o else CopyVisits(o.fs, denied, s, d, b)
    decreases a
  {
    hide CopyVisit;
    if a == [] {
      assert a + b == b;
    } else {
      assert (a + b)[1..] == a[1..] + b;
      var o := CopyVisit(fs, denied, s, d, a[0]);
      if o.error.None? { CopyJoin(o.fs, denied, s, d, a[1..], b); }
    }
  }

  lemma {:induction false} RemoveJoin(fs: Files, denied: set<Path>, p: Path, a: seq<Visit>, b: seq<Visit>)
    ensures var o := RemoveVisits(fs, denied, p, a);
            RemoveVisits(fs, denied, p, a + b) == if o.error.Some? then o else RemoveVisits(o.fs, denied, p, b)
    decreases a
  {
    hide RemoveVisit;
    if a == [] {
      assert a + b == b;
    } else {
      assert (a + b)[1..] == a[1..] + b;
      var o := RemoveVisit(fs, denied, p, a[0]);
      if o.error.None? { RemoveJoin(o.fs, denied, p, a[1..], b); }
    }
  }

  // ---------------------------------------------------------------------------------------------
  // jobs that fail

  /** Whatever is visited and however it ends, a copy changes nothing but entries strictly below its target. */
  lemma {:induction false} CopyStaysBelow(fs: Files, denied: set<Path>, s: Path, d: Path, vs: seq<Visit>)
    ensures forall q :: !(d < q) ==> Find(CopyVisits(fs, denied, s, d, vs).fs, q) == Find(fs, q)
    decreases vs
  {
    if vs != [] {
      var o := CopyVisit(fs, denied, s, d, vs[0]);
      assert vs[0].rel != [] ==> d < d + vs[0].rel;
      if o.error.None? { CopyStaysBelow(o.fs, denied, s, d, vs[1..]); }
    }
  }

  /** A removal only removes, and nothing outside the tree that it is for. */
  lemma {:induction false} RemoveStaysBelow(fs: Files, denied: set<Path>, p: Path, vs: seq<Visit>)
    ensures var fs' := RemoveVisits(fs, denied, p, vs).fs;
            forall q :: Find(fs', q) == Find(fs, q) || (p <= q && Find(fs', q) == None)
    decreases vs
  {
    if vs != [] {
      var o := RemoveVisit(fs, denied, p, vs[0]);
      assert p <= p + vs[0].rel;
      if o.error.None? { RemoveStaysBelow(o.fs, denied, p, vs[1..]); }
    }
  }

  /** A copy stops at the first visit that fails, which itself changes nothing. */
  lemma {:induction false} CopyStops(fs: Files, denied: set<Path>, s: Path, d: Path, vs: seq<Visit>)
    requires CopyVisits(fs, denied, s, d, vs).error.Some?
    ensures var o := CopyVisits(fs, denied, s, d, vs);
            exists k :: 0 <= k < |vs| && CopyVisits(fs, denied, s, d, vs[..k]) == Outcome(o.fs, None)
                && CopyVisit(o.fs, denied, s, d, vs[k]) == o
    decreases vs
  {
    var o1 := CopyVisit(fs, denied, s, d, vs[0]);
    if o1.error.Some? {
      assert vs[..0] == [] && CopyVisits(fs, denied, s, d, vs[..0]) == Outcome(o1.fs, None);
    } else {
      CopyStops(o1.fs, denied, s, d, vs[1..]);
      var o := CopyVisits(o1.fs, denied, s, d, vs[1..]);
      var k :| 0 <= k < |vs[1..]| && CopyVisits(o1.fs, denied, s, d, vs[1..][..k]) == Outcome(o.fs, None)
        && CopyVisit(o.fs, denied, s, d, vs[1..][k]) == o;
      assert vs[..k + 1][1..] == vs[1..][..k];
      assert CopyVisits(fs, denied, s, d, vs[..k + 1]) == Outcome(o.fs, None);
    }
  }

  /** So does a removal. */
  lemma {:induction false} RemoveStops(fs: Files, denied: set<Path>, p: Path, vs: seq<Visit>)
    requires RemoveVisits(fs, denied, p, vs).error.Some?
    ensures var o := RemoveVisits(fs, denied, p, vs);
            exists k :: 0 <= k < |vs| && RemoveVisits(fs, denied, p, vs[..k]) == Outcome(o.fs, None)
                && RemoveVisit(o.fs, denied, p, vs[k]) == o
    decreases vs
  {
    var o1 := RemoveVisit(fs, denied, p, vs[0]);
    if o1.error.Some? {
      assert vs[..0] == [] && RemoveVisits(fs, denied, p, vs[..0]) == Outcome(o1.fs, None);
    } else {
      RemoveStops(o1.fs, denied, p, vs[1..]);
      var o := RemoveVisits(o1.fs, denied, p, vs[1..]);
      var k :| 0 <= k < |vs[1..]| && RemoveVisits(o1.fs, denied, p, vs[1..][..k]) == Outcome(o.fs, None)
        && RemoveVisit(o.fs, denied, p, vs[1..][k]) == o;
      assert vs[..k + 1][1..] == vs[1..][..k];
      assert RemoveVisits(fs, denied, p, vs[..k + 1]) == Outcome(o.fs, None);
    }
  }

  // ---------------------------------------------------------------------------------------------
  // copying

  /** What a copy makes of an entry: a link that is reported as one is left out, and one that is reported like
      a file is followed. */
  function Kept(e: Option<Entry>, plain: bool): Option<Entry> {
    match e
    case Some(Link(target)) => if plain && target.Some? then Some(File(target.value)) else None
    case _ => e
  }

  /** Nothing in the tree is strange, no followed link is dangling, and no path that its copy touches is
      denied. */
  predicate Copyable(t: Tree, denied: set<Path>, plain: set<Path>, s: Path, d: Path, rel: Path) {
    match t
    case Leaf(e) =>
      (e.Link? && rel !in plain) ||
      ((e.File? || e.Link?) && Opened(e).Some? && s + rel !in denied && d + rel !in denied)
    case Node(cs) => d + rel !in denied && ChildrenCopyable(cs, denied, plain, s, d, rel)
  }

  predicate ChildrenCopyable(cs: Children, denied: set<Path>, plain: set<Path>, s: Path, d: Path, rel: Path) {
    match cs
    case Nil => true
    case Cons(n, t, rest) =>
      Copyable(t, denied, plain, s, d, rel + [n]) && ChildrenCopyable(rest, denied, plain, s, d, rel)
  }

  predicate Disjoint(p: Path, q: Path) {
    !(p <= q) && !(q <= p)
  }

  predicate BadLuck(e: Option<Error>) {
    e == Some(Denied) || e == Some(Unexpected) || e == Some(Dangling)
  }

  /** `q` is below one of the children `cs` of `p`. */
  predicate Below(p: Path, cs: Children, q: Path) {
    p < q && q[|p|] in Names(cs)
  }

  ghost predicate HoldsChildren(fs: Files, p: Path, cs: Children) {
    forall q :: Below(p, cs, q) ==> Find(fs, q) == LookupChild(cs, q[|p|..])
  }

  /** The path `q` below `d` was reported like a file if it is a link. */
  predicate Plain(plain: set<Path>, d: Path, q: Path) {
    d <= q && q[|d|..] in plain
  }

  /** From `fs` to `fs'`, only the copy of `t` appeared, at `p` in the copy `d`. */
  ghost predicate Copied(fs: Files, fs': Files, plain: set<Path>, d: Path, p: Path, t: Tree) {
    forall q :: Find(fs', q) == if p <= q then Kept(Lookup(t, q[|p|..]), Plain(plain, d, q)) else Find(fs, q)
  }

  ghost predicate ChildrenCopied(fs: Files, fs': Files, plain: set<Path>, d: Path, p: Path, cs: Children) {
    forall q :: Find(fs', q) ==
      if Below(p, cs, q) then Kept(LookupChild(cs, q[|p|..]), Plain(plain, d, q)) else Find(fs, q)
  }

  /** From `fs` to `fs'`, only a part of the copy of `t` appeared. */
  ghost predicate PartlyCopied(fs: Files, fs': Files, plain: set<Path>, d: Path, p: Path, t: Tree) {
    forall q :: Find(fs', q) == Find(fs, q) ||
                (p <= q && Find(fs', q) == Kept(Lookup(t, q[|p|..]), Plain(plain, d, q)))
  }

  ghost predicate ChildrenPartlyCopied(fs: Files, fs': Files, plain: set<Path>, d: Path, p: Path, cs: Children) {
    forall q :: Find(fs', q) == Find(fs, q) ||
                (Below(p, cs, q) && Find(fs', q) == Kept(LookupChild(cs, q[|p|..]), Plain(plain, d, q)))
  }

  /** No path is below both of two disjoint ones. */
  lemma Apart(p: Path, q: Path, r: Path)
    requires Disjoint(p, q)
    ensures !(p <= r && q <= r)
  {
    if p <= r && |p| <= |q| <= |r| { assert p == r[..|q|][..|p|]; }
    if q <= r && |q| <= |p| <= |r| { assert q == r[..|p|][..|q|]; }
  }

  lemma {:induction false} ChildNamed(cs: Children, rel: Path)
    requires rel != []
    ensures rel[0] !in Names(cs) ==> LookupChild(cs, rel) == None
  {
    match cs
    case Nil =>
    case Cons(n, t, rest) => ChildNamed(rest, rel);
  }

  /** The first child of `p`, and the others. */
  lemma ChildrenSplit(p: Path, n: Name, t: Tree, rest: Children, q: Path)
    requires ProperChildren(Cons(n, t, rest))
    ensures p + [n] <= q <==> p < q && q[|p|] == n
    ensures Below(p, Cons(n, t, rest), q) <==> p + [n] <= q || Below(p, rest, q)
    ensures !(p + [n] <= q && Below(p, rest, q))
    ensures p + [n] <= q ==> LookupChild(Cons(n, t, rest), q[|p|..]) == Lookup(t, q[|p + [n]|..])
    ensures Below(p, rest, q) ==> LookupChild(Cons(n, t, rest), q[|p|..]) == LookupChild(rest, q[|p|..])
  {
    if p < q && q[|p|] == n {
      assert q[..|p| + 1] == p + [n];
      assert q[|p|..][1..] == q[|p + [n]|..];
    }
  }

  lemma HoldsSplit(fs: Files, p: Path, n: Name, t: Tree, rest: Children)
    requires ProperChildren(Cons(n, t, rest)) && HoldsChildren(fs, p, Cons(n, t, rest))
    ensures Holds(fs, p + [n], t) && HoldsChildren(fs, p, rest)
  {
    forall q ensures p + [n] <= q ==> Find(fs, q) == Lookup(t, q[|p + [n]|..]) { ChildrenSplit(p, n, t, rest, q); }
    forall q ensures Below(p, rest, q) ==> Find(fs, q) == LookupChild(rest, q[|p|..]) {
      ChildrenSplit(p, n, t, rest, q);
    }
  }

  lemma CopiedSplit(fs: Files, fs1: Files, fs2: Files, plain: set<Path>, d: Path, p: Path, n: Name, t: Tree,
                    rest: Children)
    requires ProperChildren(Cons(n, t, rest))
    requires Copied(fs, fs1, plain, d, p + [n], t) && ChildrenCopied(fs1, fs2, plain, d, p, rest)
    ensures ChildrenCopied(fs, fs2, plain, d, p, Cons(n, t, rest))
  {
    forall q
      ensures Find(fs2, q) ==
                if Below(p, Cons(n, t, rest), q) then Kept(LookupChild(Cons(n, t, rest), q[|p|..]), Plain(plain, d, q))
                else Find(fs, q)
    {
      ChildrenSplit(p, n, t, rest, q);
      assert Find(fs2, q)
          == if Below(p, rest, q) then Kept(LookupChild(rest, q[|p|..]), Plain(plain, d, q)) else Find(fs1, q);
    }
  }

  lemma PartSplit(fs: Files, fs1: Files, fs2: Files, plain: set<Path>, d: Path, p: Path, n: Name, t: Tree,
                  rest: Children)
    requires ProperChildren(Cons(n, t, rest))
    requires PartlyCopied(fs, fs1, plain, d, p + [n], t) && ChildrenPartlyCopied(fs1, fs2, plain, d, p, rest)
    ensures ChildrenPartlyCopied(fs, fs2, plain, d, p, Cons(n, t, rest))
  {
    forall q
      ensures Find(fs2, q) == Find(fs, q) ||
              (Below(p, Cons(n, t, rest), q) &&
               Find(fs2, q) == Kept(LookupChild(Cons(n, t, rest), q[|p|..]), Plain(plain, d, q)))
    {
      ChildrenSplit(p, n, t, rest, q);
    }
  }

  lemma NoPart(fs: Files, plain: set<Path>, d: Path, p: Path, cs: Children)
    ensures ChildrenPartlyCopied(fs, fs, plain, d, p, cs)
  {
  }

  /** Whatever a copy of a tree changes is below its target. */
  lemma SourceStays(fs: Files, fs': Files, plain: set<Path>, s: Path, d: Path, rel: Path, cs: Children, p: Path,
                    t: Tree)
    requires Disjoint(s, d) && d <= p && Copied(fs, fs', plain, d, p, t) && HoldsChildren(fs, s + rel, cs)
    ensures HoldsChildren(fs', s + rel, cs)
  {
    forall q | Below(s + rel, cs, q) ensures Find(fs', q) == LookupChild(cs, q[|s + rel|..]) {
      Apart(s, d, q);
    }
  }

  /** Copying the tree at a relative path fails only where the system refuses or the tree is strange or a followed
      link dangles: every directory and file finds its parent and a free name. Otherwise exactly the tree appears,
      without the links that are reported as links and with the others followed. */
  lemma {:induction false} CopyTree(fs: Files, denied: set<Path>, plain: set<Path>, s: Path, d: Path, t: Tree,
                                    rel: Path)
    requires ProperTree(t) && Disjoint(s, d) && rel != []
    requires Holds(fs, s + rel, t) && Absent(fs, d + rel) && HasParent(fs, d + rel)
    ensures var o := CopyVisits(fs, denied, s, d, Walk(t, rel, plain));
            && (o.error.None? <==> Copyable(t, denied, plain, s, d, rel))
            && (o.error.Some? ==> BadLuck(o.error))
            && (o.error.None? ==> Copied(fs, o.fs, plain, d, d + rel, t))
            && PartlyCopied(fs, o.fs, plain, d, d + rel, t)
    decreases t, 0
  {
    var p := d + rel;
    match t
    case Leaf(e) =>
      assert Find(fs, s + rel) == Lookup(t, (s + rel)[|s + rel|..]) == Some(e);
      assert p !in fs && p[|d|..] == rel;
      var v := Walk(t, rel, plain)[0];
      var o := CopyVisit(fs, denied, s, d, v);
      assert CopyVisits(fs, denied, s, d, Walk(t, rel, plain)) == o;
      if o.error.None? {
        forall q
          ensures Find(o.fs, q) == if p <= q then Kept(Lookup(t, q[|p|..]), Plain(plain, d, q)) else Find(fs, q)
        {
          if p <= q && q != p { assert q !in fs; }
        }
      }
    case Node(cs) =>
      var o1 := MakeDirectory(fs, denied, p);
      assert p !in fs;
      var enter, leave := [Visit(Enter, rel)], [Visit(Leave, rel)];
      CopyJoin(fs, denied, s, d, enter + WalkChildren(cs, rel, plain), leave);
      CopyJoin(fs, denied, s, d, enter, WalkChildren(cs, rel, plain));
      assert CopyVisits(fs, denied, s, d, enter) == o1;
      if o1.error.None? {
        var fs1 := o1.fs;
        assert HoldsChildren(fs1, s + rel, cs) by {
          forall q | Below(s + rel, cs, q) ensures Find(fs1, q) == LookupChild(cs, q[|s + rel|..]) {
            Apart(s, d, q);
          }
        }
        CopyChildren(fs1, denied, plain, s, d, cs, rel);
        var o2 := CopyVisits(fs1, denied, s, d, WalkChildren(cs, rel, plain));
        if o2.error.None? {
          assert CopyVisits(o2.fs, denied, s, d, leave) == Outcome(o2.fs, None);
          forall q
            ensures Find(o2.fs, q) == if p <= q then Kept(Lookup(t, q[|p|..]), Plain(plain, d, q)) else Find(fs, q)
          {
            if p < q { ChildNamed(cs, q[|p|..]); assert q !in fs; }
            else if p <= q { assert q == p; }
          }
        }
      }
  }

  lemma {:induction false} CopyChildren(fs: Files, denied: set<Path>, plain: set<Path>, s: Path, d: Path,
                                        cs: Children, rel: Path)
    requires ProperChildren(cs) && Disjoint(s, d)
    requires HoldsChildren(fs, s + rel, cs) && Find(fs, d + rel) == Some(Directory)
    requires forall q :: Below(d + rel, cs, q) ==> q !in fs
    ensures var o := CopyVisits(fs, denied, s, d, WalkChildren(cs, rel, plain));
            && (o.error.None? <==> ChildrenCopyable(cs, denied, plain, s, d, rel))
            && (o.error.Some? ==> BadLuck(o.error))
            && (o.error.None? ==> ChildrenCopied(fs, o.fs, plain, d, d + rel, cs))
            && ChildrenPartlyCopied(fs, o.fs, plain, d, d + rel, cs)
    decreases cs, 1
  {
    match cs
    case Nil =>
    case Cons(n, t, rest) =>
      var p := d + rel;
      assert s + (rel + [n]) == (s + rel) + [n] && d + (rel + [n]) == p + [n];
      HoldsSplit(fs, s + rel, n, t, rest);
      forall q | p + [n] <= q ensures q !in fs { ChildrenSplit(p, n, t, rest, q); }
      assert (p + [n])[..|p|] == p;
      CopyTree(fs, denied, plain, s, d, t, rel + [n]);
      CopyJoin(fs, denied, s, d, Walk(t, rel + [n], plain), WalkChildren(rest, rel, plain));
      var o := CopyVisits(fs, denied, s, d, Walk(t, rel + [n], plain));
      hide PartlyCopied, ChildrenPartlyCopied;
      if o.error.Some? {
        NoPart(o.fs, plain, d, p, rest);
        PartSplit(fs, o.fs, o.fs, plain, d, p, n, t, rest);
      } else {
        SourceStays(fs, o.fs, plain, s, d, rel, rest, p + [n], t);
        forall q | Below(p, rest, q) ensures q !in o.fs {
          ChildrenSplit(p, n, t, rest, q);
          assert q !in fs && Find(o.fs, q) == None;
        }
        assert Find(o.fs, p) == Find(fs, p);
        CopyChildren(o.fs, denied, plain, s, d, rest, rel);
        var o2 := CopyVisits(o.fs, denied, s, d, WalkChildren(rest, rel, plain));
        if o2.error.None? { CopiedSplit(fs, o.fs, o2.fs, plain, d, p, n, t, rest); }
        PartSplit(fs, o.fs, o2.fs, plain, d, p, n, t, rest);
      }
  }

  /** From `fs` to `fs'`, a part of the copy of what is below `s` appeared below `d`. */
  ghost predicate PartOf(fs: Files, fs': Files, plain: set<Path>, s: Path, d: Path) {
    forall q :: Find(fs', q) == Find(fs, q) ||
                (d < q && Find(fs', q) == Kept(Find(fs, s + q[|d|..]), Plain(plain, d, q)))
  }

  /** Copying into an empty directory `d`: if nothing at `s` is strange and nothing is refused, it succeeds, and
      then `d` has below it exactly what `s` has, with links left out or followed as they are reported, and nothing
      else has changed. It fails in no other way, and then `d` has below it a part of that. */
  lemma CopyRoot(fs: Files, denied: set<Path>, plain: set<Path>, s: Path, d: Path, cs: Children)
    requires ProperChildren(cs) && Disjoint(s, d) && Holds(fs, s, Node(cs))
    requires Find(fs, d) == Some(Directory) && Empty(fs, d)
    ensures var o := CopyVisits(fs, denied, s, d, Walk(Node(cs), [], plain));
            && (o.error.None? <==> ChildrenCopyable(cs, denied, plain, s, d, []))
            && (o.error.Some? ==> BadLuck(o.error))
            && (o.error.None? ==>
                  forall q ::
                    Find(o.fs, q)
                      == if d <= q then Kept(Find(fs, s + q[|d|..]), Plain(plain, d, q)) else Find(fs, q))
            && PartOf(fs, o.fs, plain, s, d)
  {
    assert s + [] == s && d + [] == d;
    var enter, leave := [Visit(Enter, [])], [Visit(Leave, [])];
    CopyJoin(fs, denied, s, d, enter + WalkChildren(cs, [], plain), leave);
    CopyJoin(fs, denied, s, d, enter, WalkChildren(cs, [], plain));
    assert CopyVisits(fs, denied, s, d, enter) == Outcome(fs, None);
    CopyChildren(fs, denied, plain, s, d, cs, []);
    var o := CopyVisits(fs, denied, s, d, WalkChildren(cs, [], plain));
    forall q | d < q && Find(o.fs, q) != Find(fs, q)
      ensures Find(o.fs, q) == Kept(Find(fs, s + q[|d|..]), Plain(plain, d, q))
    {
      var r := s + q[|d|..];
      assert s <= r && r[|s|..] == q[|d|..] && Find(fs, r) == Lookup(Node(cs), r[|s|..]);
    }
    assert PartOf(fs, o.fs, plain, s, d);
    if o.error.None? {
      assert CopyVisits(o.fs, denied, s, d, leave) == Outcome(o.fs, None);
      forall q
        ensures Find(o.fs, q) == if d <= q then Kept(Find(fs, s + q[|d|..]), Plain(plain, d, q)) else Find(fs, q)
      {
        if d <= q {
          var r := s + q[|d|..];
          assert s <= r && r[|s|..] == q[|d|..] && Find(fs, r) == Lookup(Node(cs), r[|s|..]);
          if d < q { ChildNamed(cs, q[|d|..]); assert q !in fs; } else { assert q == d; }
        }
      }
    }
  }

  /** A source that is no directory: its only visit is the root's, and nothing is copied. */
  lemma CopyNoDirectory(fs: Files, denied: set<Path>, plain: set<Path>, s: Path, d: Path, e: Entry)
    requires e.File? || e.Link?
    ensures CopyVisits(fs, denied, s, d, Walk(Leaf(e), [], plain)) == Outcome(fs, None)
  {
    var vs := Walk(Leaf(e), [], plain);
    assert vs[1..] == [];
  }

  /** In a tree that can be copied, a link that is reported like a file leads to one. */
  lemma {:induction false} FollowedLinksLead(t: Tree, denied: set<Path>, plain: set<Path>, s: Path, d: Path,
                                             rel: Path, r: Path)
    requires Copyable(t, denied, plain, s, d, rel) && rel + r in plain
    requires Lookup(t, r).Some? && Lookup(t, r).value.Link?
    ensures Lookup(t, r).value.target.Some?
    decreases t, 0
  {
    match t
    case Leaf(e) => assert rel + r == rel;
    case Node(cs) => FollowedChildrenLead(cs, denied, plain, s, d, rel, r);
  }

  lemma {:induction false} FollowedChildrenLead(cs: Children, denied: set<Path>, plain: set<Path>, s: Path, d: Path,
                                                rel: Path, r: Path)
    requires ChildrenCopyable(cs, denied, plain, s, d, rel) && r != [] && rel + r in plain
    requires LookupChild(cs, r).Some? && LookupChild(cs, r).value.Link?
    ensures LookupChild(cs, r).value.target.Some?
    decreases cs, 1
  {
    match cs
    case Cons(n, t, rest) =>
      if r[0] == n {
        assert rel + [n] + r[1..] == rel + r;
        FollowedLinksLead(t, denied, plain, s, d, rel + [n], r[1..]);
      } else {
        FollowedChildrenLead(rest, denied, plain, s, d, rel, r);
      }
  }

  /** A copy that succeeds leaves all links out exactly if each of them is reported as a link. */
  lemma LinksLeftOutExactly(fs: Files, fs': Files, denied: set<Path>, plain: set<Path>, s: Path, d: Path, cs: Children)
    requires Holds(fs, s, Node(cs)) && ChildrenCopyable(cs, denied, plain, s, d, [])
    requires forall q ::
               Find(fs', q) == if d <= q then Kept(Find(fs, s + q[|d|..]), Plain(plain, d, q)) else Find(fs, q)
    ensures (forall rel: Path :: s + rel in fs && fs[s + rel].Link? ==> d + rel !in fs') <==>
            (forall rel: Path :: s + rel in fs && fs[s + rel].Link? ==> rel !in plain)
  {
    forall rel: Path | s + rel in fs && fs[s + rel].Link?
      ensures d + rel in fs' <==> rel in plain
    {
      var q := d + rel;
      assert d <= q && q[|d|..] == rel;
      assert Find(fs', q) == Kept(Find(fs, s + rel), Plain(plain, d, q));
      assert (s + rel)[|s|..] == rel && Find(fs, s + rel) == Lookup(Node(cs), rel);
      if rel in plain {
        assert rel != [];
        assert [] + rel == rel;
        FollowedChildrenLead(cs, denied, plain, s, d, [], rel);
      }
    }
  }

  // ---------------------------------------------------------------------------------------------
  // removing

  predicate Removable(t: Tree, denied: set<Path>, p: Path) {
    match t
    case Leaf(e) => (e.File? || e.Link?) && p !in denied
    case Node(cs) => p !in denied && ChildrenRemovable(cs, denied, p)
  }

  predicate ChildrenRemovable(cs: Children, denied: set<Path>, p: Path) {
    match cs
    case Nil => true
    case Cons(n, t, rest) => Removable(t, denied, p + [n]) && ChildrenRemovable(rest, denied, p)
  }

  /** Removing the tree at a relative path fails only where the system refuses or the tree is strange: no
      directory is removed before it is empty. Otherwise exactly the tree disappears. */
  lemma {:induction false} RemoveTree(fs: Files, denied: set<Path>, plain: set<Path>, root: Path, t: Tree, rel: Path)
    requires ProperTree(t) && Holds(fs, root + rel, t)
    ensures var o := RemoveVisits(fs, denied, root, Walk(t, rel, plain));
            && (o.error.None? <==> Removable(t, denied, root + rel))
            && (o.error.Some? ==> BadLuck(o.error))
            && (o.error.None? ==> forall q :: Find(o.fs, q) == if root + rel <= q then None else Find(fs, q))
    decreases t, 0
  {
    var p := root + rel;
    assert Find(fs, p) == Lookup(t, p[|p|..]);
    match t
    case Leaf(e) =>
      var vs := Walk(t, rel, plain);
      assert vs[1..] == [];
      var o := RemoveVisit(fs, denied, root, vs[0]);
      assert RemoveVisits(fs, denied, root, vs) == o;
      if o.error.None? {
        forall q ensures Find(o.fs, q) == if p <= q then None else Find(fs, q) {
          if p <= q && q != p { assert Find(fs, q) == Lookup(t, q[|p|..]) == None; }
        }
      }
    case Node(cs) =>
      var enter, leave := [Visit(Enter, rel)], [Visit(Leave, rel)];
      RemoveJoin(fs, denied, root, enter + WalkChildren(cs, rel, plain), leave);
      RemoveJoin(fs, denied, root, enter, WalkChildren(cs, rel, plain));
      assert RemoveVisits(fs, denied, root, enter) == Outcome(fs, None);
      RemoveChildren(fs, denied, plain, root, cs, rel);
      var o := RemoveVisits(fs, denied, root, WalkChildren(cs, rel, plain));
      if o.error.None? {
        forall q | p < q ensures q !in o.fs {
          ChildNamed(cs, q[|p|..]);
          assert Find(fs, q) == Lookup(t, q[|p|..]);
          assert Find(o.fs, q) == None;
        }
        assert Empty(o.fs, p);
        assert Find(o.fs, p) == Find(fs, p);
        var o2 := RemoveDirectory(o.fs, denied, p);
        assert RemoveVisits(o.fs, denied, root, leave) == o2;
        if o2.error.None? {
          forall q ensures Find(o2.fs, q) == if p <= q then None else Find(fs, q) {
            if p <= q && q != p { assert p < q; }
          }
        }
      }
  }

  lemma {:induction false} RemoveChildren(fs: Files, denied: set<Path>, plain: set<Path>, root: Path,
                                          cs: Children, rel: Path)
    requires ProperChildren(cs) && HoldsChildren(fs, root + rel, cs)
    ensures var o := RemoveVisits(fs, denied, root, WalkChildren(cs, rel, plain));
            && (o.error.None? <==> ChildrenRemovable(cs, denied, root + rel))
            && (o.error.Some? ==> BadLuck(o.error))
            && (o.error.None? ==> forall q :: Find(o.fs, q) == if Below(root + rel, cs, q) then None else Find(fs, q))
    decreases cs, 1
  {
    match cs
    case Nil =>
    case Cons(n, t, rest) =>
      var p := root + rel;
      assert root + (rel + [n]) == p + [n];
      HoldsSplit(fs, p, n, t, rest);
      RemoveTree(fs, denied, plain, root, t, rel + [n]);
      RemoveJoin(fs, denied, root, Walk(t, rel + [n], plain), WalkChildren(rest, rel, plain));
      var o := RemoveVisits(fs, denied, root, Walk(t, rel + [n], plain));
      if o.error.None? {
        forall q | Below(p, rest, q) ensures Find(o.fs, q) == LookupChild(rest, q[|p|..]) {
          ChildrenSplit(p, n, t, rest, q);
        }
        RemoveChildren(o.fs, denied, plain, root, rest, rel);
        forall q ensures Below(p, cs, q) <==> p + [n] <= q || Below(p, rest, q) { ChildrenSplit(p, n, t, rest, q); }
      }
  }
}
