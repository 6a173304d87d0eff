/** The intrusive doubly linked list: nodes hold their own links, a list holds its two ends. */
module DoubleLinkedList {
  import opened Basics

  /** A node, embedded in the item it links. */
  class DNode<T> {
    const item: T
    var prev: DNode?<T>
    var next: DNode?<T>

    constructor (item: T)
      ensures this.item == item && Unlinked()
    {
      this.item := item;
      prev := null;
      next := null;
    }

    predicate Unlinked()
      reads this
    {
      prev == null && next == null
    }
  }

  /** The element at `i`, or null outside the sequence. */
  ghost function At<T>(nodes: seq<DNode<T>>, i: int): DNode?<T> {
    if 0 <= i < |nodes| then nodes[i] else null
  }

  /** `nodes` are different nodes, each linked to its neighbours and to nothing else: so there is no cycle,
      and `prev` inverts `next`. */
  ghost predicate Chain<T>(nodes: seq<DNode<T>>)
    reads nodes
  {
    && Distinct(nodes)
    && (forall i {:trigger nodes[i].prev} :: 0 <= i < |nodes| ==> nodes[i].prev == At(nodes, i - 1))
    && (forall i {:trigger nodes[i].next} :: 0 <= i < |nodes| ==> nodes[i].next == At(nodes, i + 1))
  }

  lemma DistinctInserted<T>(a: seq<T>, i: nat, x: T)
    requires Distinct(a) && i <= |a| && x !in a
    ensures Distinct(a[..i] + [x] + a[i..])
  {
    var b := a[..i] + [x] + a[i..];
    assert forall k :: 0 <= k < |b| && k != i ==> b[k] == a[if k < i then k else k - 1];
  }

  lemma DistinctWithout<T>(a: seq<T>, i: nat)
    requires Distinct(a) && i < |a|
    ensures Distinct(a[..i] + a[i + 1..])
    ensures forall k :: 0 <= k < |a| && a[k] == a[i] ==> k == i
    ensures a[i] !in a[..i] + a[i + 1..]
  {
  }

  /** Closing the gap at `i` leaves a chain of the other nodes. */
  lemma ChainWithout<T>(nodes: seq<DNode<T>>, i: nat)
    requires Distinct(nodes) && i < |nodes|
    requires forall k {:trigger nodes[k].prev} :: 0 <= k < |nodes| && k != i ==>
               nodes[k].prev == At(nodes, if k == i + 1 then i - 1 else k - 1)
    requires forall k {:trigger nodes[k].next} :: 0 <= k < |nodes| && k != i ==>
               nodes[k].next == At(nodes, if k == i - 1 then i + 1 else k + 1)
    ensures Chain(nodes[..i] + nodes[i + 1..])
  {
    DistinctWithout(nodes, i);
    hide Distinct;
    var rest := nodes[..i] + nodes[i + 1..];
    assert forall k :: 0 <= k < |rest| ==> rest[k] == nodes[if k < i then k else k + 1];
  }

  /** A node linked in at `i` makes a chain with it. */
  lemma ChainInserted<T>(nodes: seq<DNode<T>>, i: nat, dn: DNode<T>)
    requires Distinct(nodes) && i <= |nodes| && dn !in nodes
    requires dn.prev == At(nodes, i - 1) && dn.next == At(nodes, i)
    requires forall k {:trigger nodes[k].prev} :: 0 <= k < |nodes| ==>
             nodes[k].prev == if k == i then dn else At(nodes, k - 1)
    requires forall k {:trigger nodes[k].next} :: 0 <= k < |nodes| ==>
             nodes[k].next == if k == i - 1 then dn else At(nodes, k + 1)
    ensures Chain(nodes[..i] + [dn] + nodes[i..])
  {
    DistinctInserted(nodes, i, dn);
    hide Distinct;
    var all := nodes[..i] + [dn] + nodes[i..];
    assert all[i] == dn && forall k :: 0 <= k < |all| && k != i ==> all[k] == nodes[if k < i then k else k - 1];
  }

  /** Two chains become one when the first's last node and the second's first are linked. */
  lemma ChainJoined<T>(a: seq<DNode<T>>, b: seq<DNode<T>>)
    requires Distinct(a + b)
    requires forall k {:trigger a[k].prev} :: 0 <= k < |a| ==> a[k].prev == At(a, k - 1)
    requires forall k {:trigger a[k].next} :: 0 <= k < |a| ==> a[k].next == At(a + b, k + 1)
    requires forall k {:trigger b[k].prev} :: 0 <= k < |b| ==> b[k].prev == At(a + b, |a| + k - 1)
    requires forall k {:trigger b[k].next} :: 0 <= k < |b| ==> b[k].next == At(b, k + 1)
    ensures Chain(a + b)
  {
    hide Distinct;
  }

  class DList<T> {
    var head: DNode?<T>
    var tail: DNode?<T>
    ghost var nodes: seq<DNode<T>>

    ghost predicate Valid()
      reads this, nodes
    {
      Chain(nodes) && head == At(nodes, 0) && tail == At(nodes, |nodes| - 1)
    }

    constructor ()
      ensures Valid() && nodes == []
    {
      head := null;
      tail := null;
      nodes := [];
    }

    method Init()
      modifies this
      ensures Valid() && nodes == []
    {
      head := null;
      tail := null;
      nodes := [];
    }

    /** The count is a 32-bit number. */
    method Count() returns (count: nat)
      requires Valid()
      ensures count == |nodes| % U32
    {
      count := 0;
      var dn := head;
      ghost var i := 0;
      while dn != null
        invariant 0 <= i <= |nodes| && dn == At(nodes, i) && count == i % U32
        decreases |nodes| - i
      {
        count := (count + 1) % U32;
        dn := dn.next;
        i := i + 1;
      }
    }

    predicate Empty()
      requires Valid()
      reads this, nodes
      ensures Empty() <==> nodes == []
    {
      head == null
    }

    method PushHead(dn: DNode<T>)
      requires Valid() && dn.Unlinked() && dn !in nodes
      modifies this, nodes, dn
      ensures Valid() && nodes == [dn] + old(nodes)
    {
      if head != null {
        head.prev := dn;
        dn.next := head;
      } else {
        tail := dn;
      }
      head := dn;
      nodes := [dn] + nodes;
    }

    method PushTail(dn: DNode<T>)
      requires Valid() && dn.Unlinked() && dn !in nodes
      modifies this, nodes, dn
      ensures Valid() && nodes == old(nodes) + [dn]
    {
      if tail != null {
        tail.next := dn;
        dn.prev := tail;
      } else {
        head := dn;
      }
      tail := dn;
      nodes := nodes + [dn];
    }

    method PopHead() returns (dn: DNode?<T>)
      requires Valid()
      modifies this, nodes
      ensures Valid() && (dn == null <==> old(nodes) == [])
      ensures dn != null ==> old(nodes) == [dn] + nodes && dn.Unlinked()
      ensures dn == null ==> nodes == []
    {
      dn := head;
      if dn != null {
        head := dn.next;
        if dn.next != null {
          dn.next.prev := null;
        } else {
          tail := null;
        }
        dn.next := null;
        dn.prev := null;
        nodes := nodes[1..];
      }
    }

    method PopTail() returns (dn: DNode?<T>)
      requires Valid()
      modifies this, nodes
      ensures Valid() && (dn == null <==> old(nodes) == [])
      ensures dn != null ==> old(nodes) == nodes + [dn] && dn.Unlinked()
      ensures dn == null ==> nodes == []
    {
      dn := tail;
      if dn != null {
        if dn.prev != null {
          dn.prev.next := null;
        } else {
          head := null;
        }
        tail := dn.prev;
        dn.next := null;
        dn.prev := null;
        nodes := nodes[..|nodes| - 1];
      }
    }

    method Clear()
      requires Valid()
      modifies this, nodes
      ensures Valid() && nodes == []
      ensures forall dn :: dn in old(nodes) ==> dn.Unlinked()
    {
      var dn := PopHead();
      while dn != null
        invariant Valid() && (dn == null ==> nodes == [])
        invariant forall n :: n in nodes ==> n in old(nodes)
        invariant forall n :: n in old(nodes) ==> n in nodes || n.Unlinked()
        decreases |nodes|, dn
      {
        assert forall k :: 0 <= k < |nodes| ==> nodes[k] in old(nodes);
        dn := PopHead();
      }
    }

    method Contain(dn: DNode<T>) returns (found: bool)
      requires Valid()
      ensures found <==> dn in nodes
    {
      var node := head;
      ghost var i := 0;
      while node != null
        invariant 0 <= i <= |nodes| && node == At(nodes, i) && dn !in nodes[..i]
        decreases |nodes| - i
      {
        if node == dn { return true; }
        node := node.next;
        i := i + 1;
      }
      return false;
    }

    /** Removing a node that is on no list does nothing. */
    method Remove(dn: DNode<T>) returns (next: DNode?<T>)
      requires Valid() && (dn in nodes || dn.Unlinked())
      modifies this, nodes
      ensures Valid() && dn.Unlinked()
      ensures dn !in old(nodes) ==> next == null && nodes == old(nodes)
      ensures dn in old(nodes) ==>
                var i := IndexOf(old(nodes), dn);
                nodes == old(nodes)[..i] + old(nodes)[i + 1..] && next == At(old(nodes), i + 1)
    {
      next := dn.next;
      if next == null && dn.prev == null && head != dn {
        return null;
      }
      ghost var i := IndexOf(nodes, dn);
      if next != null {
        next.prev := dn.prev;
      } else {
        tail := dn.prev;
      }
      if dn.prev != null {
        dn.prev.next := next;
      } else {
        head := next;
      }
      dn.next := null;
      dn.prev := null;
      ChainWithout(nodes, i);
      nodes := nodes[..i] + nodes[i + 1..];
    }

    /** Appends everything on `src` and leaves `src` empty. */
    method Move(src: DList<T>)
      requires Valid() && src.Valid() && src != this
      requires forall n :: n in nodes ==> n !in src.nodes
      modifies this, nodes, src, src.nodes
      ensures Valid() && src.Valid()
      ensures nodes == old(nodes) + old(src.nodes) && src.nodes == []
    {
      if src.Empty() {
        return;
      }
      DistinctJoined(nodes, src.nodes);
      assert src.nodes[0] !in nodes && (tail != null ==> tail in nodes && tail !in src.nodes);
      if tail != null {
        tail.next := src.head;
        src.head.prev := tail;
      } else {
        head := src.head;
      }
      tail := src.tail;
      ChainJoined(nodes, src.nodes);
      nodes := nodes + src.nodes;
      src.Init();
    }

    method InsertBefore(pos: DNode<T>, dn: DNode<T>)
      requires Valid() && pos in nodes && dn.Unlinked() && dn !in nodes
      modifies this, nodes, dn
      ensures Valid() && var i := IndexOf(old(nodes), pos); nodes == old(nodes)[..i] + [dn] + old(nodes)[i..]
    {
      ghost var i := IndexOf(nodes, pos);
      if pos.prev != null {
        pos.prev.next := dn;
      } else {
        head := dn;
      }
      dn.prev := pos.prev;
      dn.next := pos;
      pos.prev := dn;
      ChainInserted(nodes, i, dn);
      nodes := nodes[..i] + [dn] + nodes[i..];
    }

    method InsertAfter(pos: DNode<T>, dn: DNode<T>)
      requires Valid() && pos in nodes && dn.Unlinked() && dn !in nodes
      modifies this, nodes, dn
      ensures Valid() && var i := IndexOf(old(nodes), pos) + 1; nodes == old(nodes)[..i] + [dn] + old(nodes)[i..]
    {
      ghost var i := IndexOf(nodes, pos) + 1;
      if pos.next != null {
        pos.next.prev := dn;
      } else {
        tail := dn;
      }
      dn.next := pos.next;
      dn.prev := pos;
      pos.next := dn;
      ChainInserted(nodes, i, dn);
      nodes := nodes[..i] + [dn] + nodes[i..];
    }
  }

  /** Where `k` links lead from `n`, forwards or backwards, as long as they stay among `nodes`. */
  ghost function Follow<T>(nodes: seq<DNode<T>>, n: DNode?<T>, k: nat, forwards: bool): DNode?<T>
    reads nodes
    decreases k
  {
    if k == 0 || n == null then n
    else if n in nodes then Follow(nodes, if forwards then n.next else n.prev, k - 1, forwards)
    else null
  }

  /** A walk along `next` visits the nodes of a list in order, one along `prev` in reverse order, each node
      once, and ends: there is no cycle, and the two directions are inverse. */
  lemma {:induction false} WalksVisitAll<T>(dl: DList<T>, i: nat, k: nat)
    requires dl.Valid() && i < |dl.nodes|
    ensures Follow(dl.nodes, dl.nodes[i], k, true) == At(dl.nodes, i + k)
    ensures Follow(dl.nodes, dl.nodes[i], k, false) == At(dl.nodes, i - k)
    decreases k
  {
    if k > 0 {
      assert dl.nodes[i].next == At(dl.nodes, i + 1) && dl.nodes[i].prev == At(dl.nodes, i - 1);
      if i + 1 < |dl.nodes| { WalksVisitAll(dl, i + 1, k - 1); }
      if i > 0 { WalksVisitAll(dl, i - 1, k - 1); }
    }
  }

  /** The null links that pushing asserts, and that removal takes as the sign of an unlinked node, miss
      exactly the only node of a one-element list; comparing with the head, as removal does, closes the gap. */
  lemma UnlinkedButListed<T>(dl: DList<T>, dn: DNode<T>)
    requires dl.Valid()
    ensures dn in dl.nodes && dn.Unlinked() <==> dl.nodes == [dn]
    ensures dn.Unlinked() ==> (dl.head == dn <==> dn in dl.nodes)
  {
    if dn in dl.nodes {
      var i := IndexOf(dl.nodes, dn);
      assert dn.next == At(dl.nodes, i + 1) && dn.prev == At(dl.nodes, i - 1);
    }
  }
}
