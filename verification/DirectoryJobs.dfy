/** The jobs that copy and remove directories: loops over what the traversal of the file tree reports. */
module DirectoryJobs {
  import opened Basics
  import opened FileTree
  import opened PathNames

  /** One result of reading the traversal: an entry with its path, or an interrupted call to be repeated. */
  datatype Read = Seen(kind: Kind, path: string) | Interrupted

  /** The traversal of the tree at `root` reports `vs`, in order, between interruptions. */
  predicate Reports(results: seq<Read>, root: string, vs: seq<Visit>)
    decreases |results|
  {
    if results == [] then vs == []
    else if results[0] == Interrupted then Reports(results[1..], root, vs)
    else
      vs != [] && results[0] == Seen(vs[0].kind, PathOf(root, vs[0].rel)) && AreNames(vs[0].rel) &&
      Reports(results[1..], root, vs[1..])
  }

  class FileSystem {
    var files: Files
    const denied: set<Path>

    constructor (files: Files, denied: set<Path>)
      ensures this.files == files && this.denied == denied
    {
      this.files := files;
      this.denied := denied;
    }

    /** `__remove_d`: files and links when they are visited, directories after their children. */
    method RemoveAll(path: string, results: seq<Read>, ghost vs: seq<Visit>) returns (ok: bool)
      requires Reports(results, path, vs)
      modifies this
      ensures var o := RemoveVisits(old(files), denied, Split(path), vs); files == o.fs && (ok <==> o.error.None?)
    {
      hide Split, PathOf;
      var rest := results;
      ghost var left := vs;
      while rest != []
        invariant Reports(rest, path, left)
        invariant RemoveVisits(files, denied, Split(path), left) == RemoveVisits(old(files), denied, Split(path), vs)
        decreases |rest|
      {
        var read := rest[0];
        rest := rest[1..];
        match read {
          case Interrupted =>
          case Seen(kind, at) =>
            ReRooted(path, path, left[0].rel);
            var o: Outcome;
            match kind {
              case AtFile => o := Unlink(files, denied, Split(at));
              case AtLink => o := Unlink(files, denied, Split(at));
              case Leave => o := RemoveDirectory(files, denied, Split(at));
              case Enter => o := Outcome(files, None);
              case AtStrange => o := Outcome(files, Some(Unexpected));
            }
            files := o.fs;
            if o.error.Some? { return false; }
            left := left[1..];
        }
      }
      return true;
    }

    /** The loop of `__do_dcopy`: every entry but the root is created at the path made of the target, a slash if
        it has none, and what follows the source and its slash in the entry's path. */
    method CopyAll(src: string, dst: string, results: seq<Read>, ghost vs: seq<Visit>) returns (ok: bool)
      requires src != "" && Reports(results, src, vs)
      modifies this
      ensures var o := CopyVisits(old(files), denied, Split(src), Split(dst), vs);
              files == o.fs && (ok <==> o.error.None?)
    {
      hide Split, PathOf;
      var np := dst;
      if np == "" || np[|np| - 1] != '/' { np := np + "/"; }
      var npLen := |np|;
      var pLen := |src|;
      if src[pLen - 1] != '/' { pLen := pLen + 1; }
      var rest := results;
      ghost var left := vs;
      while rest != []
        invariant Reports(rest, src, left)
        invariant npLen <= |np| && np[..npLen] == Base(dst)
        invariant CopyVisits(files, denied, Split(src), Split(dst), left)
               == CopyVisits(old(files), denied, Split(src), Split(dst), vs)
        decreases |rest|
      {
        var read := rest[0];
        rest := rest[1..];
        match read {
          case Interrupted =>
          case Seen(kind, at) =>
            ReRooted(src, dst, left[0].rel);
            var o := Outcome(files, None);
            match kind {
              case AtFile =>
                if |at| > pLen {
                  np := np[..npLen] + at[pLen..];
                  o := CopyFile(files, denied, Split(np), Split(at));
                }
              case Enter =>
                if |at| > pLen {
                  np := np[..npLen] + at[pLen..];
                  o := MakeDirectory(files, denied, Split(np));
                }
              case AtLink =>
              case Leave =>
              case AtStrange =>
                o := Outcome(files, Some(Unexpected));
            }
            files := o.fs;
            if o.error.Some? { return false; }
            left := left[1..];
        }
      }
      return true;
    }

    /** `__do_dcopy`: whatever is at the target goes first, whatever the caller's flag says. `removal` and
        `walk` are what the traversals of the old target and of the source report, and `plainOld` and `plain` say
        which links they report like files. */
    method CopyDirectory(src: string, dst: string, removal: seq<Read>, walk: seq<Read>,
                         ghost source: Tree, ghost target: Tree, ghost plain: set<Path>, ghost plainOld: set<Path>)
      returns (ok: bool)
      requires src != "" && Disjoint(Split(src), Split(dst))
      requires ProperTree(source) && Holds(files, Split(src), source) && Reports(walk, src, Walk(source, [], plain))
      requires Find(files, Split(dst)) == Some(Directory) ==>
                 ProperTree(target) && Holds(files, Split(dst), target)
                  && Reports(removal, dst, Walk(target, [], plainOld))
      requires Find(files, Split(dst)) != Some(Directory) ==> Empty(files, Split(dst))
      modifies this
      ensures ok <==>
                Replaceable(old(files), denied, Split(dst), target) &&
                SourceReadable(source, denied, plain, Split(src), Split(dst))
      ensures ok ==> Replaced(old(files), files, plain, Split(src), Split(dst))
      ensures PartlyReplaced(old(files), files, plain, Split(src), Split(dst))
    {
      var d := Split(dst);
      hide Split, Reports, Walk;
      if d in files {
        if files[d] == Directory {
          ok := RemoveAll(dst, removal, Walk(target, [], plainOld));
          RemovalExact(old(files), denied, plainOld, d, target);
        } else {
          var o := Unlink(files, denied, d);
          files := o.fs;
          ok := o.error.None?;
        }
        if !ok { return; }
      }
      if Find(old(files), d) != Some(Directory) { ClearedAlone(old(files), d); assert files == old(files) - {d}; }
      label cleared:
      var o := MakeDirectory(files, denied, d);
      assert d != [] ==> !(d <= d[..|d| - 1]);
      assert HasParent(files, d) == HasParent(old(files), d);
      files := o.fs;
      ok := o.error.None?;
      if !ok { return; }
      assert Cleared(old(files), old@cleared(files), d) && files == old@cleared(files)[d := Directory];
      MovesOn(old(files), old@cleared(files), files, Split(src), d, source);
      label made:
      ok := CopyAll(src, dst, walk, Walk(source, [], plain));
      CopyOutcome(old(files), old@made(files), denied, plain, Split(src), d, source);
    }
  }

  /** Exactly what is at and below `d` has gone. */
  ghost predicate Cleared(fs: Files, fs': Files, d: Path) {
    forall q :: Find(fs', q) == if d <= q then None else Find(fs, q)
  }

  lemma ClearedAlone(fs: Files, d: Path)
    requires Find(fs, d) != Some(Directory) && Empty(fs, d)
    ensures Cleared(fs, fs - {d}, d)
  {
    forall q ensures Find(fs - {d}, q) == if d <= q then None else Find(fs, q) {
      if d <= q && q != d { assert d < q; }
    }
  }

  /** What is at `d` can be removed, and a directory made there. */
  ghost predicate Replaceable(fs: Files, denied: set<Path>, d: Path, target: Tree) {
    && d !in denied && HasParent(fs, d)
    && (Find(fs, d) == Some(Directory) ==> Removable(target, denied, d))
  }

  predicate SourceReadable(source: Tree, denied: set<Path>, plain: set<Path>, s: Path, d: Path) {
    match source case Leaf(e) => e.File? || e.Link? case Node(cs) => ChildrenCopyable(cs, denied, plain, s, d, [])
  }

  /** Afterwards `d` has exactly what `s` has below it, links left out or followed as they were reported, and
      everything else is as it was; a source that is no directory leaves an empty one. */
  ghost predicate Replaced(fs: Files, fs': Files, plain: set<Path>, s: Path, d: Path) {
    forall q :: Find(fs', q) ==
      if q == d then Some(Directory)
      else if d <= q then Kept(Find(fs, s + q[|d|..]), Plain(plain, d, q))
      else Find(fs, q)
  }

  /** However the job ends: outside `d` everything is as it was, and at and below `d` each entry is as it was, gone, or
      as in the copy. */
  ghost predicate PartlyReplaced(fs: Files, fs': Files, plain: set<Path>, s: Path, d: Path) {
    forall q :: Find(fs', q) == Find(fs, q) ||
                (d <= q && (Find(fs', q) == None || (q == d && Find(fs', q) == Some(Directory)) ||
                            Find(fs', q) == Kept(Find(fs, s + q[|d|..]), Plain(plain, d, q))))
  }

  /** The source is untouched by replacing the target with an empty directory. */
  lemma MovesOn(fs: Files, fs1: Files, fs2: Files, s: Path, d: Path, source: Tree)
    requires Disjoint(s, d) && Holds(fs, s, source) && Cleared(fs, fs1, d) && fs2 == fs1[d := Directory]
    ensures Holds(fs2, s, source) && Find(fs2, d) == Some(Directory) && Empty(fs2, d)
    ensures forall q :: Find(fs2, q) == if q == d then Some(Directory) else if d <= q then None else Find(fs, q)
  {
    forall q ensures Find(fs2, q) == if q == d then Some(Directory) else if d <= q then None else Find(fs, q) {
      assert Find(fs1, q) == if d <= q then None else Find(fs, q);
    }
    forall q | s <= q ensures Find(fs2, q) == Lookup(source, q[|s|..]) { Apart(s, d, q); }
    forall q | d < q ensures q !in fs2 { assert Find(fs2, q) == None; }
  }

  /** What the loop makes of the empty target. */
  lemma CopyOutcome(fs: Files, fs2: Files, denied: set<Path>, plain: set<Path>, s: Path, d: Path, source: Tree)
    requires ProperTree(source) && Disjoint(s, d) && Holds(fs, s, source) && Holds(fs2, s, source)
    requires forall q :: Find(fs2, q) == if q == d then Some(Directory) else if d <= q then None else Find(fs, q)
    requires Find(fs2, d) == Some(Directory) && Empty(fs2, d)
    ensures var o := CopyVisits(fs2, denied, s, d, Walk(source, [], plain));
            && (o.error.None? <==> SourceReadable(source, denied, plain, s, d))
            && (o.error.None? ==> Replaced(fs, o.fs, plain, s, d))
            && PartlyReplaced(fs, o.fs, plain, s, d)
  {
    match source
    case Leaf(e) =>
      if e.File? || e.Link? {
        CopyNoDirectory(fs2, denied, plain, s, d, e);
        forall q | d < q ensures Find(fs, s + q[|d|..]) == None {
          var r := s + q[|d|..];
          assert s <= r && r[|s|..] == q[|d|..] != [];
          assert Find(fs, r) == Lookup(source, r[|s|..]);
        }
      } else {
        assert CopyVisit(fs2, denied, s, d, Walk(source, [], plain)[0]).error == Some(Unexpected);
      }
    case Node(cs) =>
      CopyRoot(fs2, denied, plain, s, d, cs);
      forall q | d <= q ensures Find(fs2, s + q[|d|..]) == Find(fs, s + q[|d|..]) {
        Apart(s, d, s + q[|d|..]);
      }
  }

  /** Removing a directory: it succeeds exactly if nothing refuses, and then exactly its tree is gone. */
  lemma RemovalExact(fs: Files, denied: set<Path>, plain: set<Path>, p: Path, t: Tree)
    requires ProperTree(t) && Holds(fs, p, t)
    ensures var o := RemoveVisits(fs, denied, p, Walk(t, [], plain));
            && (o.error.None? <==> Removable(t, denied, p)) && (o.error.Some? ==> BadLuck(o.error))
            && (o.error.None? ==> Cleared(fs, o.fs, p))
            && forall q :: Find(o.fs, q) == Find(fs, q) || (p <= q && Find(o.fs, q) == None)
  {
    assert p + [] == p;
    RemoveTree(fs, denied, plain, p, t, []);
    RemoveStaysBelow(fs, denied, p, Walk(t, [], plain));
  }
}
