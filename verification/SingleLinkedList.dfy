/** The intrusive singly linked list. */
module SingleLinkedList {
  import opened Basics

  class SNode {
    var next: SNode?

    constructor ()
      ensures next == null
    {
      next := null;
    }
  }

  ghost function At(nodes: seq<SNode>, i: int): SNode? {
    if 0 <= i < |nodes| then nodes[i] else null
  }

  /** Different nodes, each linked to the next one and the last to nothing: so there is no cycle. */
  ghost predicate Chain(nodes: seq<SNode>)
    reads nodes
  {
    && Distinct(nodes)
    && (forall i {:trigger nodes[i].next} :: 0 <= i < |nodes| ==> nodes[i].next == At(nodes, i + 1))
  }

  lemma ChainWithout(nodes: seq<SNode>, i: nat)
    requires Distinct(nodes) && i < |nodes|
    requires forall k {:trigger nodes[k].next} :: 0 <= k < |nodes| && k != i ==>
               nodes[k].next == At(nodes, if k == i - 1 then i + 1 else k + 1)
    ensures Chain(nodes[..i] + nodes[i + 1..])
  {
    var rest := nodes[..i] + nodes[i + 1..];
    assert forall k :: 0 <= k < |rest| ==> rest[k] == nodes[if k < i then k else k + 1];
  }

  lemma ChainInserted(nodes: seq<SNode>, i: nat, sn: SNode)
    requires Distinct(nodes) && 0 < i <= |nodes| && sn !in nodes && sn.next == At(nodes, i)
    requires forall k {:trigger nodes[k].next} :: 0 <= k < |nodes| ==>
             nodes[k].next == if k == i - 1 then sn else At(nodes, k + 1)
    ensures Chain(nodes[..i] + [sn] + nodes[i..])
  {
    var all := nodes[..i] + [sn] + nodes[i..];
    assert all[i] == sn && forall k :: 0 <= k < |all| && k != i ==> all[k] == nodes[if k < i then k else k - 1];
  }

  lemma ChainJoined(a: seq<SNode>, b: seq<SNode>)
    requires Distinct(a + b)
    requires forall k {:trigger a[k].next} :: 0 <= k < |a| ==> a[k].next == At(a + b, k + 1)
    requires forall k {:trigger b[k].next} :: 0 <= k < |b| ==> b[k].next == At(b, k + 1)
    ensures Chain(a + b)
  {
    hide Distinct;
  }

  class SList {
    var head: SNode?
    ghost var nodes: seq<SNode>

    ghost predicate Valid()
      reads this, nodes
    {
      Chain(nodes) && head == At(nodes, 0)
    }

    constructor ()
      ensures Valid() && nodes == []
    {
      head := null;
      nodes := [];
    }

    method Tail() returns (sn: SNode?)
      requires Valid()
      ensures sn == At(nodes, |nodes| - 1)
    {
      sn := head;
      if sn != null {
        ghost var i := 0;
        while sn.next != null
          invariant 0 <= i < |nodes| && sn == nodes[i]
          decreases |nodes| - i
        {
          sn := sn.next;
          i := i + 1;
        }
      }
    }

    method Count() returns (count: nat)
      requires Valid()
      ensures count == |nodes| % U32
    {
      count := 0;
      var sn := head;
      ghost var i := 0;
      while sn != null
        invariant 0 <= i <= |nodes| && sn == At(nodes, i) && count == i % U32
        decreases |nodes| - i
      {
        count := (count + 1) % U32;
        sn := sn.next;
        i := i + 1;
      }
    }

    method Clear()
      requires Valid()
      modifies this, nodes
      ensures Valid() && nodes == [] && forall sn :: sn in old(nodes) ==> sn.next == null
    {
      var sn := head;
      ghost var all, i := nodes, 0;
      while sn != null
        invariant 0 <= i <= |all| && sn == At(all, i)
        invariant forall k {:trigger all[k].next} :: 0 <= k < |all| ==>
            all[k].next == if k < i then null else At(all, k + 1)
        decreases |all| - i
      {
        assert sn in all;
        var next := sn.next;
        sn.next := null;
        sn := next;
        i := i + 1;
      }
      head := null;
      nodes := [];
      assert forall k :: 0 <= k < |all| ==> all[k].next == null;
    }

    method PushHead(sn: SNode)
      requires Valid() && sn.next == null && sn !in nodes
      modifies this, sn
      ensures Valid() && nodes == [sn] + old(nodes)
    {
      assert forall k :: 0 <= k < |nodes| ==> nodes[k] in nodes;
      sn.next := head;
      head := sn;
      nodes := [sn] + nodes;
    }

    method PushTail(sn: SNode)
      requires Valid() && sn.next == null && sn !in nodes
      modifies this, nodes
      ensures Valid() && nodes == old(nodes) + [sn]
    {
      var tail := Tail();
      DistinctJoined(nodes, [sn]);
      if tail != null {
        tail.next := sn;
      } else {
        head := sn;
      }
      ChainJoined(nodes, [sn]);
      nodes := nodes + [sn];
    }

    method PopHead() returns (sn: SNode?)
      requires Valid()
      modifies this, nodes
      ensures Valid() && (sn == null <==> old(nodes) == [])
      ensures if sn == null then nodes == [] else old(nodes) == [sn] + nodes && sn.next == null
    {
      sn := head;
      if sn != null {
        head := sn.next;
        sn.next := null;
        nodes := nodes[1..];
      }
    }

    method PopTail() returns (sn: SNode?)
      requires Valid()
      modifies this, nodes
      ensures Valid() && (sn == null <==> old(nodes) == [])
      ensures if sn == null then nodes == [] else old(nodes) == nodes + [sn] && sn.next == null
    {
      sn := head;
      if sn == null {
        return;
      } else if sn.next == null {
        head := null;
        nodes := [];
      } else {
        var prev := sn;
        sn := sn.next;
        ghost var i := 1;
        while sn.next != null
          invariant 1 <= i < |nodes| && prev == nodes[i - 1] && sn == nodes[i]
          decreases |nodes| - i
        {
          prev := sn;
          sn := sn.next;
          i := i + 1;
        }
        prev.next := null;
        sn.next := null;
        nodes := nodes[..i];
      }
    }

    /** Removing a node that is not on the list leaves the list alone, but still cuts the node's link. */
    method Remove(sn: SNode) returns (next: SNode?)
      requires Valid()
      modifies this, nodes, sn
      ensures Valid() && next == old(sn.next) && sn.next == null
      ensures sn !in old(nodes) ==> nodes == old(nodes)
      ensures sn in old(nodes) ==> var i := IndexOf(old(nodes), sn); nodes == old(nodes)[..i] + old(nodes)[i + 1..]
    {
      var node := head;
      next := sn.next;
      ghost var i := if sn in nodes then IndexOf(nodes, sn) else |nodes|;
      assert sn !in nodes ==> forall k :: 0 <= k < |nodes| ==> nodes[k] in nodes && nodes[k] != sn;
      if node == sn {
        head := next;
      } else {
        ghost var k := 0;
        while node != null && node.next != sn
          invariant 0 <= k <= |nodes| && node == At(nodes, k)
          invariant sn in nodes ==> k < i
          decreases |nodes| - k
        {
          node := node.next;
          k := k + 1;
        }
        if node != null {
          node.next := next;
        }
      }
      sn.next := null;
      if i < |nodes| {
        ChainWithout(nodes, i);
        nodes := nodes[..i] + nodes[i + 1..];
      }
    }

    /** Removal by a caller that knows the predecessor; the asserts are its preconditions. */
    method FastRemove(prev: SNode?, sn: SNode) returns (next: SNode?)
      requires Valid() && sn in nodes
      requires if prev == null then head == sn else prev in nodes && prev.next == sn
      modifies this, nodes
      ensures Valid() && next == old(sn.next) && sn.next == null
      ensures var i := IndexOf(old(nodes), sn); nodes == old(nodes)[..i] + old(nodes)[i + 1..]
    {
      next := sn.next;
      ghost var i := IndexOf(nodes, sn);
      if prev != null {
        ghost var k := IndexOf(nodes, prev);
        assert prev == nodes[k] && prev.next == At(nodes, k + 1);
        prev.next := next;
      } else {
        head := next;
      }
      sn.next := null;
      ChainWithout(nodes, i);
      nodes := nodes[..i] + nodes[i + 1..];
    }

    method InsertAfter(pos: SNode, sn: SNode)
      requires Valid() && pos in nodes && sn.next == null && sn !in nodes
      modifies this`nodes, pos, sn
      ensures Valid() && var i := IndexOf(old(nodes), pos) + 1; nodes == old(nodes)[..i] + [sn] + old(nodes)[i..]
    {
      ghost var i := IndexOf(nodes, pos) + 1;
      assert forall k :: 0 <= k < |nodes| ==> nodes[k] in nodes;
      sn.next := pos.next;
      pos.next := sn;
      ChainInserted(nodes, i, sn);
      nodes := nodes[..i] + [sn] + nodes[i..];
    }

    /** Appends everything on `src` to this list. */
    method Move(src: SList)
      requires Valid() && src.Valid() && src != this
      requires forall n :: n in nodes ==> n !in src.nodes
      modifies this, nodes, src
      ensures Valid() && src.Valid() && nodes == old(nodes) + old(src.nodes) && src.nodes == []
    {
      var tail := Tail();
      DistinctJoined(nodes, src.nodes);
      assert forall k :: 0 <= k < |src.nodes| ==> src.nodes[k] in src.nodes;
      if tail != null {
        assert tail in nodes;
        tail.next := src.head;
      } else {
        head := src.head;
      }
      src.head := null;
      ChainJoined(nodes, src.nodes);
      nodes := nodes + src.nodes;
      src.nodes := [];
    }

    /** Moves up to `count` nodes from the front of `src` to the end of this list; from a list to itself
        nothing moves. */
    method MoveCount(src: SList, count: nat) returns (n: nat)
      requires Valid() && src.Valid() && count < U32
      requires src != this ==> forall x :: x in nodes ==> x !in src.nodes
      modifies this, nodes, src, src.nodes
      ensures Valid() && src.Valid()
      ensures src == this ==> n == 0 && nodes == old(nodes)
      ensures src != this ==> n == Min(count, |old(src.nodes)|)
      ensures src != this ==> nodes == old(nodes) + old(src.nodes)[..n] && src.nodes == old(src.nodes)[n..]
    {
      n := 0;
      if src == this {
        return;
      }
      var prev: SNode? := null;
      var node := src.head;
      while node != null && n < count
        invariant 0 <= n <= Min(count, |src.nodes|) && node == At(src.nodes, n) && prev == At(src.nodes, n - 1)
        decreases |src.nodes| - n
      {
        prev := node;
        node := node.next;
        n := n + 1;
      }
      if prev != null {
        ghost var a, all := nodes, src.nodes;
        assert prev == all[n - 1] && prev in all && prev !in a && all[0] in all;
        assert forall k :: 0 <= k < |a| ==> a[k] in a;
        assert forall k :: 0 <= k < |all| ==> all[k] in all;
        if head != null {
          var tail := Tail();
          assert tail in a;
          tail.next := src.head;
        } else {
          head := src.head;
        }
        src.head := prev.next;
        prev.next := null;
        ChainSplit(a, all, n);
        nodes := a + all[..n];
        src.nodes := all[n..];
      }
    }

    method Swap(r: SList)
      requires Valid() && r.Valid()
      modifies this, r
      ensures Valid() && r.Valid() && nodes == old(r.nodes) && r.nodes == old(nodes)
    {
      head, r.head := r.head, head;
      nodes, r.nodes := r.nodes, nodes;
    }
  }

  /** The first `n` nodes of a chain are linked to the end of another and cut from the rest. */
  lemma ChainSplit(a: seq<SNode>, all: seq<SNode>, n: nat)
    requires Distinct(a) && Distinct(all) && 0 < n <= |all| && forall x :: x in a ==> x !in all
    requires forall k {:trigger a[k].next} ::
               0 <= k < |a| ==> a[k].next == if k == |a| - 1 then all[0] else At(a, k + 1)
    requires forall k {:trigger all[k].next} :: 0 <= k < |all| ==>
             all[k].next == if k == n - 1 then null else At(all, k + 1)
    ensures Chain(a + all[..n]) && Chain(all[n..])
  {
    var b, c := all[..n], all[n..];
    assert forall i :: 0 <= i < |b| ==> b[i] == all[i];
    assert forall i :: 0 <= i < |c| ==> c[i] == all[n + i];
    forall x | x in a ensures x !in b { assert x !in all; }
    DistinctJoined(a, b);
    assert Chain(c);
    ChainJoined(a, b);
  }
}
