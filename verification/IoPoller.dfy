/** The poller's two event lists and eventfds, and the loops that drain them, as they change the heap. */
module IoPoller {
  import opened DoubleLinkedList

  type Fiber = nat

  /** `Exit` and `Noop` are the poller's own events, `Message` a fiber event and `Request` a task event. */
  datatype Event =
    | Finished(id: nat, src: Fiber)
    | Exit(id: nat)
    | Noop(id: nat)
    | Message(id: nat, dst: Fiber)
    | Request(id: nat)

  /** What a poller has done for its fibers: mailboxes, the fibers that wait for theirs, the fibers it
      resumed, and the requests it handed to its task. */
  datatype Effects =
    Effects(mail: map<Fiber, seq<Event>>, recving: set<Fiber>, resumed: seq<Fiber>, requests: seq<Event>)

  function MailOf(mail: map<Fiber, seq<Event>>, f: Fiber): seq<Event> {
    if f in mail then mail[f] else []
  }

  /** One dispatched event; a resumed fiber clears its `recving`. */
  function Dispatch(x: Effects, e: Event): Effects {
    match e
    case Message(_, f) =>
      var y := x.(mail := x.mail[f := MailOf(x.mail, f) + [e]]);
      if f in x.recving then y.(recving := x.recving - {f}, resumed := x.resumed + [f]) else y
    case Request(_) => x.(requests := x.requests + [e])
    case _ => x
  }

  function DispatchAll(x: Effects, q: seq<Event>): Effects
    decreases q
  {
    if q == [] then x else DispatchAll(Dispatch(x, q[0]), q[1..])
  }

  /** The events that the poller looks at: up to the first exit event, and with it. */
  function UpToExit(q: seq<Event>): seq<Event> {
    if q == [] then [] else if q[0].Exit? then [q[0]] else [q[0]] + UpToExit(q[1..])
  }

  predicate HasExit(q: seq<Event>) {
    exists i :: 0 <= i < |q| && q[i].Exit?
  }

  /** The recursive reading of the existence of an exit event, and of what is dispatched. */
  lemma HasExitFirst(e: Event, q: seq<Event>)
    ensures HasExit([e] + q) <==> e.Exit? || HasExit(q)
    ensures UpToExit([e] + q) == [e] + if e.Exit? then [] else UpToExit(q)
  {
    assert ([e] + q)[1..] == q;
    if e.Exit? { assert ([e] + q)[0].Exit?; }
    if HasExit(q) { var i :| 0 <= i < |q| && q[i].Exit?; assert ([e] + q)[i + 1].Exit?; }
  }

  /** Resumes the fibers of finished operations, one after the other. */
  function ResumeEach(x: Effects, q: seq<Event>): Effects
    decreases q
  {
    if q == [] then x
    else ResumeEach(if q[0].Finished? then x.(resumed := x.resumed + [q[0].src]) else x, q[1..])
  }

  function Sources(q: seq<Event>): seq<Fiber> {
    if q == [] then [] else (if q[0].Finished? then [q[0].src] else []) + Sources(q[1..])
  }

  ghost function Items(nodes: seq<DNode<Event>>): seq<Event> {
    if nodes == [] then [] else [nodes[0].item] + Items(nodes[1..])
  }

  lemma {:induction false} ItemsJoin(a: seq<DNode<Event>>, b: seq<DNode<Event>>)
    ensures Items(a + b) == Items(a) + Items(b)
  {
    if a == [] {
      assert a + b == b;
    } else {
      assert (a + b)[1..] == a[1..] + b;
      ItemsJoin(a[1..], b);
    }
  }

  /** The events still to be handled by a loop that has popped `node` and left `rest`. */
  ghost function Ahead(node: DNode?<Event>, rest: seq<DNode<Event>>): seq<Event> {
    if node == null then [] else [node.item] + Items(rest)
  }

  lemma PopsNext(rest: seq<DNode<Event>>, node: DNode?<Event>, rest': seq<DNode<Event>>)
    requires if node == null then rest == [] else rest == [node] + rest'
    ensures Ahead(node, rest') == Items(rest)
    ensures node != null ==> forall k :: 0 <= k < |rest'| ==> rest'[k] in rest
  {
    if node != null {
      assert forall k :: 0 <= k < |rest'| ==> rest'[k] == rest[k + 1];
      assert rest[1..] == rest';
    }
  }

  /** The locked region of a drain: all events move to a list of the poller's own. */
  method Detach(src: DList<Event>) returns (dl: DList<Event>)
    requires src.Valid()
    modifies src, src.nodes
    ensures fresh(dl) && dl.Valid() && dl.nodes == old(src.nodes)
    ensures src.Valid() && src.nodes == []
  {
    dl := new DList();
    dl.Move(src);
  }

  class Poller {
    const pollerEv: DList<Event>
    const workerEv: DList<Event>
    var pollerFd: nat
    var workerFd: nat
    var x: Effects

    /** Both queues are well formed and share no node, and whatever is queued is announced. */
    ghost predicate Valid()
      reads this, pollerEv, workerEv, pollerEv.nodes, workerEv.nodes
    {
      && pollerEv != workerEv && pollerEv.Valid() && workerEv.Valid()
      && (forall n :: n in pollerEv.nodes ==> n !in workerEv.nodes)
      && (forall n :: n in workerEv.nodes ==> n.item.Finished?)
      && (pollerEv.nodes != [] ==> pollerFd > 0) && (workerEv.nodes != [] ==> workerFd > 0)
    }

    constructor ()
      ensures Valid() && fresh(pollerEv) && fresh(workerEv)
      ensures pollerEv.nodes == [] && workerEv.nodes == [] && pollerFd == 0 && workerFd == 0
      ensures x == Effects(map[], {}, [], [])
    {
      pollerEv := new DList();
      workerEv := new DList();
      pollerFd, workerFd := 0, 0;
      x := Effects(map[], {}, [], []);
    }

    /** A worker or another thread's fiber completes the operation in `node`. If its write to the eventfd fails,
        the event is queued all the same, and nobody is told unless an earlier one was announced. */
    method Finish(node: DNode<Event>, writes: bool) returns (ok: bool)
      requires Valid() && node.Unlinked() && node !in pollerEv.nodes && node !in workerEv.nodes && node.item.Finished?
      modifies this`workerFd, workerEv, workerEv.nodes, node
      ensures Valid() <==> ok || old(workerFd) > 0
      ensures ok == writes && Items(workerEv.nodes) == old(Items(workerEv.nodes)) + [node.item] &&
              workerEv.nodes == old(workerEv.nodes) + [node]
      ensures workerFd == old(workerFd) + if ok then 1 else 0
    {
      assert forall k :: 0 <= k < |pollerEv.nodes| ==> pollerEv.nodes[k] in pollerEv.nodes;
      workerEv.PushTail(node);
      ItemsJoin(old(workerEv.nodes), [node]);
      if !writes { return false; }
      workerFd := workerFd + 1;
      return true;
    }

    /** Sends an event to the poller; asking it to exit is the same with an exit event. A failing write leaves the
        event queued. */
    method Send(node: DNode<Event>, writes: bool) returns (ok: bool)
      requires Valid() && node.Unlinked() && node !in pollerEv.nodes && node !in workerEv.nodes
      modifies this`pollerFd, pollerEv, pollerEv.nodes, node
      ensures Valid() <==> ok || old(pollerFd) > 0
      ensures ok == writes && Items(pollerEv.nodes) == old(Items(pollerEv.nodes)) + [node.item] &&
              pollerEv.nodes == old(pollerEv.nodes) + [node]
      ensures pollerFd == old(pollerFd) + if ok then 1 else 0
    {
      assert forall k :: 0 <= k < |workerEv.nodes| ==> workerEv.nodes[k] in workerEv.nodes;
      pollerEv.PushTail(node);
      ItemsJoin(old(pollerEv.nodes), [node]);
      if !writes { return false; }
      pollerFd := pollerFd + 1;
      return true;
    }

    method ResumeAll(dl: DList<Event>)
      requires dl.Valid() && forall n :: n in dl.nodes ==> n.item.Finished?
      modifies this`x, dl, dl.nodes
      ensures x == ResumeEach(old(x), Items(old(dl.nodes)))
    {
      hide Chain, Items;
      ghost var all := dl.nodes;
      var node := dl.PopHead();
      PopsNext(all, node, dl.nodes);
      while node != null
        invariant dl.Valid()
        invariant forall k :: 0 <= k < |dl.nodes| ==> dl.nodes[k] in all
        invariant node != null ==> node in all
        invariant ResumeEach(x, Ahead(node, dl.nodes)) == ResumeEach(old(x), Items(all))
        decreases |dl.nodes|, node
      {
        assert ([node.item] + Items(dl.nodes))[1..] == Items(dl.nodes);
        x := x.(resumed := x.resumed + [node.item.src]);
        ghost var rest := dl.nodes;
        node := dl.PopHead();
        PopsNext(rest, node, dl.nodes);
      }
    }

    /** Resumes the fibers of all finished operations, in the order in which they finished. */
    method WorkerIo()
      requires Valid() && workerFd > 0
      modifies this`workerFd, this`x, workerEv, workerEv.nodes
      ensures Valid() && workerFd == 0 && workerEv.nodes == []
      ensures x == ResumeEach(old(x), old(Items(workerEv.nodes)))
    {
      assert forall k :: 0 <= k < |pollerEv.nodes| ==> pollerEv.nodes[k] in pollerEv.nodes;
      workerFd := 0;
      var dl := Detach(workerEv);
      ResumeAll(dl);
    }

    method DispatchEach(dl: DList<Event>) returns (run: bool)
      requires dl.Valid()
      modifies this`x, dl, dl.nodes
      ensures x == DispatchAll(old(x), UpToExit(Items(old(dl.nodes))))
      ensures run <==> !HasExit(Items(old(dl.nodes)))
    {
      hide Chain, Items;
      ghost var all := dl.nodes;
      var node := dl.PopHead();
      PopsNext(all, node, dl.nodes);
      while node != null
        invariant dl.Valid()
        invariant forall k :: 0 <= k < |dl.nodes| ==> dl.nodes[k] in all
        invariant DispatchAll(x, UpToExit(Ahead(node, dl.nodes))) == DispatchAll(old(x), UpToExit(Items(all)))
        invariant HasExit(Ahead(node, dl.nodes)) <==> HasExit(Items(all))
        decreases |dl.nodes|, node
      {
        HasExitFirst(node.item, Items(dl.nodes));
        if node.item.Exit? {
          return false;
        }
        x := Dispatch(x, node.item);
        ghost var rest := dl.nodes;
        node := dl.PopHead();
        PopsNext(rest, node, dl.nodes);
      }
      return true;
    }

    /** Dispatches everything sent to the poller, in the order in which it was sent, unless it comes to an
        exit event: then it stops there for good. */
    method PollerIo() returns (run: bool)
      requires Valid() && pollerFd > 0
      modifies this`pollerFd, this`x, pollerEv, pollerEv.nodes
      ensures Valid() && pollerFd == 0 && pollerEv.nodes == []
      ensures x == DispatchAll(old(x), UpToExit(old(Items(pollerEv.nodes))))
      ensures run <==> !HasExit(old(Items(pollerEv.nodes)))
    {
      assert forall k :: 0 <= k < |workerEv.nodes| ==> workerEv.nodes[k] in workerEv.nodes;
      pollerFd := 0;
      var dl := Detach(pollerEv);
      run := DispatchEach(dl);
    }
  }

  // ---------------------------------------------------------------------------------------------
  // what draining comes to

  /** Draining the finished operations resumes their fibers in the order in which they finished, each once
      per operation, and does nothing else. */
  lemma {:induction false} ResumesInOrder(x: Effects, q: seq<Event>)
    ensures ResumeEach(x, q) == x.(resumed := x.resumed + Sources(q))
    decreases q
  {
    if q == [] {
      assert x.resumed + [] == x.resumed;
    } else {
      ResumesInOrder(if q[0].Finished? then x.(resumed := x.resumed + [q[0].src]) else x, q[1..]);
    }
  }

  lemma {:induction false} UpToNone(q: seq<Event>)
    requires !HasExit(q)
    ensures UpToExit(q) == q
  {
    if q != [] {
      HasExitFirst(q[0], q[1..]);
      assert [q[0]] + q[1..] == q;
      UpToNone(q[1..]);
    }
  }

  /** A poller looks at its events up to the first exit event, and at all of them if there is none. */
  lemma {:induction false} UpToExitExactly(q: seq<Event>)
    ensures var p := UpToExit(q);
            && p <= q && (if HasExit(q) then p != [] && p[|p| - 1].Exit? else p == q)
            && (forall i :: 0 <= i < |p| - 1 ==> !p[i].Exit?)
  {
    if q != [] {
      HasExitFirst(q[0], q[1..]);
      assert [q[0]] + q[1..] == q;
      if !q[0].Exit? { UpToExitExactly(q[1..]); }
    }
  }

  lemma {:induction false} DispatchJoin(x: Effects, p: seq<Event>, q: seq<Event>)
    ensures DispatchAll(DispatchAll(x, p), q) == DispatchAll(x, p + q)
    decreases p
  {
    if p == [] {
      assert p + q == q;
    } else {
      assert (p + q)[1..] == p[1..] + q;
      DispatchJoin(Dispatch(x, p[0]), p[1..], q);
    }
  }

  lemma {:induction false} UpToExitSplit(p: seq<Event>, q: seq<Event>)
    ensures UpToExit(p + q) == if HasExit(p) then UpToExit(p) else p + UpToExit(q)
  {
    if p == [] {
      assert p + q == q;
    } else {
      assert p + q == [p[0]] + (p[1..] + q) && p == [p[0]] + p[1..];
      HasExitFirst(p[0], p[1..] + q);
      HasExitFirst(p[0], p[1..]);
      UpToExitSplit(p[1..], q);
    }
  }

  /** However the events sent to a poller are split into drained batches, it does the same: what one drain of
      all of them does. */
  lemma BatchesDoNotMatter(x: Effects, p: seq<Event>, q: seq<Event>)
    ensures DispatchAll(x, UpToExit(p + q))
         == if HasExit(p) then DispatchAll(x, UpToExit(p)) else DispatchAll(DispatchAll(x, UpToExit(p)), UpToExit(q))
  {
    UpToExitSplit(p, q);
    if !HasExit(p) {
      UpToNone(p);
      DispatchJoin(x, p, UpToExit(q));
    }
  }

  /** The messages to `f` among `q`. */
  function AddressedTo(q: seq<Event>, f: Fiber): seq<Event> {
    if q == [] then [] else (if q[0].Message? && q[0].dst == f then [q[0]] else []) + AddressedTo(q[1..], f)
  }

  function Resumed(x: Effects, f: Fiber): nat {
    multiset(x.resumed)[f]
  }

  lemma DispatchOne(x: Effects, e: Event, f: Fiber)
    ensures var hit, y := e.Message? && e.dst == f, Dispatch(x, e);
            && MailOf(y.mail, f) == MailOf(x.mail, f) + (if hit then [e] else [])
            && (f in y.recving <==> f in x.recving && !hit)
            && Resumed(y, f) == Resumed(x, f) + if f in x.recving && hit then 1 else 0
  {
  }

  /** A mailbox receives exactly the messages addressed to its fiber, in order, and a fiber that was waiting
      has been resumed once if one came, and not at all if none did. */
  lemma {:induction false} MailDelivered(x: Effects, q: seq<Event>, f: Fiber)
    ensures MailOf(DispatchAll(x, q).mail, f) == MailOf(x.mail, f) + AddressedTo(q, f)
    ensures f in DispatchAll(x, q).recving <==> f in x.recving && AddressedTo(q, f) == []
    ensures Resumed(DispatchAll(x, q), f) == Resumed(x, f) + if f in x.recving && AddressedTo(q, f) != [] then 1 else 0
    decreases q
  {
    hide Dispatch, Resumed, MailOf;
    if q != [] {
      DispatchOne(x, q[0], f);
      MailDelivered(Dispatch(x, q[0]), q[1..], f);
    }
  }

  /** The task requests among `q`, in order. */
  function RequestsAmong(q: seq<Event>): seq<Event> {
    if q == [] then [] else (if q[0].Request? then [q[0]] else []) + RequestsAmong(q[1..])
  }

  /** The poller's task is handed exactly the requests, in the order in which they were sent. */
  lemma {:induction false} RequestsHandedOn(x: Effects, q: seq<Event>)
    ensures DispatchAll(x, q).requests == x.requests + RequestsAmong(q)
    decreases q
  {
    if q != [] {
      RequestsHandedOn(Dispatch(x, q[0]), q[1..]);
    }
  }

  /** The fibers of `waiting` that a message among `q` is for, in the order of their first messages. */
  function FirstMessaged(waiting: set<Fiber>, q: seq<Event>): seq<Fiber> {
    if q == [] then []
    else if q[0].Message? && q[0].dst in waiting then [q[0].dst] + FirstMessaged(waiting - {q[0].dst}, q[1..])
    else FirstMessaged(waiting, q[1..])
  }

  /** The poller resumes the waiting fibers in the order of their first messages, each once. */
  lemma {:induction false} WaitingResumed(x: Effects, q: seq<Event>)
    ensures DispatchAll(x, q).resumed == x.resumed + FirstMessaged(x.recving, q)
    decreases q
  {
    if q != [] {
      var y := Dispatch(x, q[0]);
      WaitingResumed(y, q[1..]);
      if q[0].Message? && q[0].dst in x.recving {
        assert x.resumed + ([q[0].dst] + FirstMessaged(y.recving, q[1..])) ==
          x.resumed + [q[0].dst] + FirstMessaged(y.recving, q[1..]);
      }
    }
  }
}
