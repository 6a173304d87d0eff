/** How the single changes that steps are made of act on each part of the invariant. */
module FiberIoParts {
  import opened Basics
  import opened FiberIo
  import opened FiberIoInvariant

  // ---------------------------------------------------------------------------------------------
  // scheduling

  /** A running fiber changes its mode and goes on running. */
  lemma SchedMode(cur: map<Tid, Current>, mode: map<Fiber, Mode>, so: set<Fiber>, owes: map<Agent, Signal>,
                  f: Fiber, m: Mode)
    requires Scheduled(cur, mode, so, owes) && Get(cur, f.home, Main) == Run(f) && !Suspended(m)
    ensures Scheduled(cur, mode[f := m], so, owes)
  {
  }

  /** A running fiber gives up its thread. */
  lemma SchedLeave(cur: map<Tid, Current>, mode: map<Fiber, Mode>, so: set<Fiber>, owes: map<Agent, Signal>,
                   f: Fiber, m: Mode, next: Current)
    requires Scheduled(cur, mode, so, owes) && Get(cur, f.home, Main) == Run(f) && f !in so && OfFiber(f) !in owes
    requires Suspended(m)
    requires next.Run? ==> next.f != f && next.f.home == f.home && Get(mode, next.f, Ready) == Ready
    ensures Scheduled(cur[f.home := next], mode[f := m], so, owes)
  {
  }

  lemma SchedYield(cur: map<Tid, Current>, mode: map<Fiber, Mode>, so: set<Fiber>, owes: map<Agent, Signal>,
                   f: Fiber, next: Current)
    requires Scheduled(cur, mode, so, owes) && Get(cur, f.home, Main) == Run(f) && f !in so && OfFiber(f) !in owes
    requires Get(mode, f, Ready) == Ready
    requires next.Run? ==> next.f.home == f.home && Get(mode, next.f, Ready) == Ready
    ensures Scheduled(cur[f.home := next], mode, so, owes)
  {
  }

  /** A running fiber switches to `g` on its own thread. */
  lemma SchedGive(cur: map<Tid, Current>, mode: map<Fiber, Mode>, so: set<Fiber>, owes: map<Agent, Signal>,
                  f: Fiber, g: Fiber, m: Mode)
    requires Scheduled(cur, mode, so, owes) && Get(cur, f.home, Main) == Run(f) && f !in so && OfFiber(f) !in owes
    requires !Get(mode, f, Ready).Submitted? && !Get(mode, f, Ready).Woken?
    requires g.home == f.home && g != f && !Suspended(m)
    ensures Scheduled(cur[f.home := Run(g)], mode[g := m], so, owes)
  {
  }

  /** A running fiber takes on mode `m` and switches to `g`. */
  lemma SchedHandOver(cur: map<Tid, Current>, mode: map<Fiber, Mode>, so: set<Fiber>, owes: map<Agent, Signal>,
                      f: Fiber, m: Mode, g: Fiber)
    requires Scheduled(cur, mode, so, owes) && Get(cur, f.home, Main) == Run(f) && f !in so && OfFiber(f) !in owes
    requires m.Waiting? || m == Ready
    requires g.home == f.home && g != f
    ensures Scheduled(cur[f.home := Run(g)], mode[f := m][g := Ready], so, owes)
  {
  }

  /** A poller switches to `f`. */
  lemma SchedEnter(cur: map<Tid, Current>, mode: map<Fiber, Mode>, so: set<Fiber>, owes: map<Agent, Signal>,
                   f: Fiber, m: Mode)
    requires Scheduled(cur, mode, so, owes) && Get(cur, f.home, Main) == Main && OfPoller(f.home) !in owes
    requires !Suspended(m)
    ensures Scheduled(cur[f.home := Run(f)], mode[f := m], so, owes)
    ensures Get(mode, f, Ready) == Ready ==> Scheduled(cur[f.home := Run(f)], mode, so, owes)
  {
  }

  /** The running fiber, the running poller or someone else takes on a signal to send. */
  lemma SchedOwe(cur: map<Tid, Current>, mode: map<Fiber, Mode>, so: set<Fiber>, owes: map<Agent, Signal>,
                 a: Agent, sg: Signal)
    requires Scheduled(cur, mode, so, owes)
    requires a.OfFiber? ==> Get(cur, a.f.home, Main) == Run(a.f)
    requires a.OfPoller? ==> Get(cur, a.t, Main) == Main
    ensures Scheduled(cur, mode, so, owes[a := sg])
  {
  }

  lemma SchedPaid(cur: map<Tid, Current>, mode: map<Fiber, Mode>, so: set<Fiber>, owes: map<Agent, Signal>, a: Agent)
    requires Scheduled(cur, mode, so, owes)
    ensures Scheduled(cur, mode, so, owes - {a})
  {
  }

  lemma SchedSem(cur: map<Tid, Current>, mode: map<Fiber, Mode>, so: set<Fiber>, owes: map<Agent, Signal>, f: Fiber)
    requires Scheduled(cur, mode, so, owes) && Get(cur, f.home, Main) == Run(f)
    ensures Scheduled(cur, mode, so + {f}, owes)
  {
  }

  lemma SchedSemDone(cur: map<Tid, Current>, mode: map<Fiber, Mode>, so: set<Fiber>, owes: map<Agent, Signal>, f: Fiber)
    requires Scheduled(cur, mode, so, owes)
    ensures Scheduled(cur, mode, so - {f}, owes)
  {
  }

  // ---------------------------------------------------------------------------------------------
  // event lists

  lemma LinkedPut(lists: map<Place, seq<Event>>, place: map<Event, Place>, p: Place, e: Event)
    requires Linked(lists, place) && p.IsList() && (e in place ==> !place[e].IsList())
    ensures Linked(lists[p := Seq(lists, p) + [e]], place[e := p])
  {
    var q := Seq(lists, p);
    assert e !in q;
    assert Distinct(q + [e]);
    forall x | x in place && place[x].IsList() && x != e ensures x in Seq(lists[p := q + [e]], place[x]) {
      assert x in Seq(lists, place[x]);
    }
  }

  lemma LinkedTake(lists: map<Place, seq<Event>>, place: map<Event, Place>, p0: Place, p1: Place)
    requires Linked(lists, place) && Seq(lists, p0) != [] && !p1.IsList()
    ensures Seq(lists, p0)[0] in place && place[Seq(lists, p0)[0]] == p0 && p0.IsList()
    ensures Linked(lists[p0 := Seq(lists, p0)[1..]], place[Seq(lists, p0)[0] := p1])
  {
    var q := lists[p0];
    assert Distinct(q) && q[0] !in q[1..];
    var lists' := lists[p0 := q[1..]];
    forall x | x in place && place[x].IsList() && x != q[0] ensures x in Seq(lists', place[x]) {
      assert x in Seq(lists, place[x]);
    }
    forall p, x | p in lists' && x in lists'[p] ensures x in place && place[x] == p && x != q[0] {
      assert x in lists[p];
    }
  }

  lemma LinkedMove(lists: map<Place, seq<Event>>, place: map<Event, Place>, p0: Place, p1: Place)
    requires Linked(lists, place) && p0 != p1 && Seq(lists, p1) == [] && p0.IsList() && p1.IsList()
    ensures Linked(lists[p0 := []][p1 := Seq(lists, p0)], Relabel(place, Seq(lists, p0), p1))
  {
    var q := Seq(lists, p0);
    assert Distinct(q);
    var lists', place' := lists[p0 := []][p1 := q], Relabel(place, q, p1);
    forall p, x | p in lists' && x in lists'[p] ensures x in place && place'[x] == p {
      if p == p1 { assert x in lists[p0]; } else { assert x in lists[p]; }
    }
    forall x | x in place && place'[x].IsList() ensures x in Seq(lists', place'[x]) {
      if x !in q { assert x in Seq(lists, place[x]); }
    }
  }

  /** An event that is on no list changes place without joining one. */
  lemma LinkedMark(lists: map<Place, seq<Event>>, place: map<Event, Place>, e: Event, p: Place)
    requires Linked(lists, place) && (e in place ==> !place[e].IsList()) && !p.IsList()
    ensures Linked(lists, place[e := p])
  {
    forall x | x in place && place[x].IsList() ensures x in Seq(lists, place[x]) {}
  }

  /** The head of one list goes to the end of another. */
  lemma LinkedHop(lists: map<Place, seq<Event>>, place: map<Event, Place>, p0: Place, p1: Place)
    requires Linked(lists, place) && p0 != p1 && Seq(lists, p0) != [] && p1.IsList()
    ensures Seq(lists, p0)[0] in place && place[Seq(lists, p0)[0]] == p0 && p0.IsList()
    ensures Linked(Put(Drop(lists, p0), p1, Seq(lists, p0)[0]), place[Seq(lists, p0)[0] := p1])
  {
    hide Linked;
    var e := Seq(lists, p0)[0];
    LinkedTake(lists, place, p0, Done);
    LinkedPut(Drop(lists, p0), place[e := Done], p1, e);
    assert place[e := Done][e := p1] == place[e := p1];
  }

  lemma LocalsSetList(lists: map<Place, seq<Event>>, pc: map<Tid, Poller>, p: Place, q: seq<Event>)
    requires LocalsOf(lists, pc) && (p.Local? ==> q == [] || Seq(lists, p) != [])
    ensures LocalsOf(lists[p := q], pc)
  {
  }

  lemma LocalsSetPoller(lists: map<Place, seq<Event>>, pc: map<Tid, Poller>, t: Tid, m: Poller)
    requires LocalsOf(lists, pc)
    requires forall ch :: Seq(lists, Local(ch, t)) != [] ==>
               m == Draining(ch) || (ch == Events && (m.Answering? || m == Exited))
    ensures LocalsOf(lists, pc[t := m])
  {
  }

  /** A poller that does not drain has empty local lists. */
  lemma LocalsIdle(lists: map<Place, seq<Event>>, pc: map<Tid, Poller>, t: Tid)
    requires LocalsOf(lists, pc) && (var m := Get(pc, t, Idle); m == Idle || m.Fetched? || m.HasRead?)
    ensures forall ch :: Seq(lists, Local(ch, t)) == []
  {
  }

  /** A draining poller's other local list is empty. */
  lemma LocalsEnd(lists: map<Place, seq<Event>>, pc: map<Tid, Poller>, t: Tid, ch: Channel)
    requires LocalsOf(lists, pc) && Get(pc, t, Idle) == Draining(ch)
    ensures forall c :: c != ch ==> Seq(lists, Local(c, t)) == []
  {
  }

  lemma LocalsAnswered(lists: map<Place, seq<Event>>, pc: map<Tid, Poller>, t: Tid)
    requires LocalsOf(lists, pc) && Get(pc, t, Idle).Answering?
    ensures Seq(lists, Local(Finished, t)) == []
  {
  }

  lemma LocalsFill(lists: map<Place, seq<Event>>, pc: map<Tid, Poller>, ch: Channel, t: Tid, q: seq<Event>)
    requires LocalsOf(lists, pc) && Get(pc, t, Idle) == Draining(ch)
    ensures LocalsOf(lists[Local(ch, t) := q], pc)
  {
  }

  // ---------------------------------------------------------------------------------------------
  // places

  lemma PlacedSet(place: map<Event, Place>, stored: set<Event>, e: Event, p: Place)
    requires Placed(place, stored) && PlaceOk(e, p, stored)
    ensures Placed(place[e := p], stored)
  {
  }

  lemma PlacedAt(place: map<Event, Place>, stored: set<Event>, e: Event)
    requires Placed(place, stored) && e in place
    ensures PlaceOk(e, place[e], stored)
  {
  }

  lemma PlacedStore(place: map<Event, Place>, stored: set<Event>, e: Event)
    requires Placed(place, stored)
    ensures Placed(place, stored + {e})
  {
  }

  lemma PlacedMove(lists: map<Place, seq<Event>>, place: map<Event, Place>, stored: set<Event>, ch: Channel, t: Tid)
    requires Placed(place, stored) && Linked(lists, place)
    ensures Placed(Relabel(place, Seq(lists, Queue(ch, t)), Local(ch, t)), stored)
  {
    var q := Seq(lists, Queue(ch, t));
    forall e | e in place && e in q ensures PlaceOk(e, Local(ch, t), stored) {
      assert e in lists[Queue(ch, t)];
      assert PlaceOk(e, place[e], stored);
    }
  }

  /** An event in nobody's hand moves, and into nobody's hand. */
  lemma InHandSet(place: map<Event, Place>, wkr: map<Wid, WorkerMode>, pc: map<Tid, Poller>, stored: set<Event>,
      e: Event, p: Place)
    requires InHand(place, wkr, pc, stored) && (e in place ==> !place[e].AtWorker? && !place[e].AtPoller?)
    requires !p.AtWorker? && !p.AtPoller?
    ensures InHand(place[e := p], wkr, pc, stored)
  {
  }

  lemma InHandMove(lists: map<Place, seq<Event>>, place: map<Event, Place>, wkr: map<Wid, WorkerMode>,
                   pc: map<Tid, Poller>, stored: set<Event>, p0: Place, p1: Place)
    requires InHand(place, wkr, pc, stored) && Linked(lists, place)
    requires !p1.AtWorker? && !p1.AtPoller?
    ensures InHand(Relabel(place, Seq(lists, p0), p1), wkr, pc, stored)
  {
    var q := Seq(lists, p0);
    assert forall e :: e in q ==> e in place && place[e] == p0 && p0.IsList();
  }

  /** A poller that holds no request goes to a state in which it holds none. */
  lemma InHandPoller(place: map<Event, Place>, wkr: map<Wid, WorkerMode>, pc: map<Tid, Poller>, stored: set<Event>,
      t: Tid, m: Poller)
    requires InHand(place, wkr, pc, stored) && !Get(pc, t, Idle).Answering? && !m.Answering?
    ensures InHand(place, wkr, pc[t := m], stored)
  {
  }

  lemma InHandPopWork(place: map<Event, Place>, wkr: map<Wid, WorkerMode>, pc: map<Tid, Poller>,
      stored: set<Event>, e: Event, w: Wid)
    requires InHand(place, wkr, pc, stored) && e in place && place[e] == WorkQueue && Get(wkr, w, Free) == Free
    ensures InHand(place[e := AtWorker(w)], wkr[w := Got(e)], pc, stored)
  {
  }

  lemma InHandHandle(place: map<Event, Place>, wkr: map<Wid, WorkerMode>, pc: map<Tid, Poller>, stored: set<Event>,
      w: Wid)
    requires InHand(place, wkr, pc, stored) && Get(wkr, w, Free).Got?
    ensures InHand(place, wkr[w := Handled(wkr[w].e)], pc, stored + {wkr[w].e})
  {
  }

  lemma InHandFinishWork(place: map<Event, Place>, wkr: map<Wid, WorkerMode>, pc: map<Tid, Poller>,
      stored: set<Event>, w: Wid, p: Place)
    requires InHand(place, wkr, pc, stored) && Get(wkr, w, Free) != Free && !p.AtWorker? && !p.AtPoller?
    ensures wkr[w].e in place && place[wkr[w].e] == AtWorker(w)
    ensures InHand(place[wkr[w].e := p], wkr[w := Free], pc, stored)
  {
  }

  lemma InHandPopTask(place: map<Event, Place>, wkr: map<Wid, WorkerMode>, pc: map<Tid, Poller>,
      stored: set<Event>, e: Event, t: Tid)
    requires InHand(place, wkr, pc, stored) && e in place && place[e].Local? && !Get(pc, t, Idle).Answering?
    ensures InHand(place[e := AtPoller(t)], wkr, pc[t := Answering(e)], stored)
  {
  }

  lemma InHandAnswer(place: map<Event, Place>, wkr: map<Wid, WorkerMode>, pc: map<Tid, Poller>, stored: set<Event>,
      t: Tid, p: Place, m: Poller)
    requires InHand(place, wkr, pc, stored) && Get(pc, t, Idle).Answering? && !p.AtWorker? && !p.AtPoller? &&
             !m.Answering?
    ensures pc[t].e in place && place[pc[t].e] == AtPoller(t)
    ensures InHand(place[pc[t].e := p], wkr, pc[t := m], stored + {pc[t].e})
  {
  }

  lemma InHandStored(place: map<Event, Place>, wkr: map<Wid, WorkerMode>, pc: map<Tid, Poller>, stored: set<Event>,
      w: Wid)
    requires InHand(place, wkr, pc, stored) && Get(wkr, w, Free).Handled?
    ensures wkr[w].e in stored
  {
  }

  // ---------------------------------------------------------------------------------------------
  // owners

  lemma OwnedInside(place: map<Event, Place>, mode: map<Fiber, Mode>, e: Event)
    requires Owned(place, mode) && e in place && place[e] != Done && e.Owner().Some?
    ensures Inside(Get(mode, e.Owner().value, Ready), e)
  {
  }

  /** A ready fiber enters an operation with a record that is new. */
  lemma OwnedStart(place: map<Event, Place>, mode: map<Fiber, Mode>, e: Event, p: Place, m: Mode)
    requires Owned(place, mode) && e !in place && e.Owner().Some? && Get(mode, e.Owner().value, Ready) == Ready
    requires Inside(m, e) && p != Done && !p.Local?
    ensures Owned(place[e := p], mode[e.Owner().value := m])
  {
    var f := e.Owner().value;
    forall x | x in place && x.Owner().Some? && place[x] != Done ensures x.Owner().value != f {}
  }

  lemma AfterSendMode(e: Event, m: Mode)
    requires e.Message? && Inside(m, e)
    ensures AfterSend(e, m) == m || AfterSend(e, m) == Ready
  {
  }

  /** A ready fiber sends a message, entering an operation if it waits for the reply. */
  lemma OwnedSend(place: map<Event, Place>, mode: map<Fiber, Mode>, e: Event, p: Place, m: Mode)
    requires Owned(place, mode) && e !in place && e.Message? && Get(mode, e.from, Ready) == Ready
    requires (m == AfterSend(e, Submitted(e)) || m == AfterSend(e, Waiting(e))) && p != Done && !p.Local?
    ensures Owned(place[e := p], mode[e.from := m])
  {
    if e.wait {
      OwnedStart(place, mode, e, p, m);
    } else {
      OwnedHeap(place, mode, e, p);
      OwnedIdle(place[e := p], mode, e.from, Ready);
    }
  }

  /** A heap record appears or moves. */
  lemma OwnedHeap(place: map<Event, Place>, mode: map<Fiber, Mode>, e: Event, p: Place)
    requires Owned(place, mode) && e.Owner().None?
    ensures Owned(place[e := p], mode)
  {
  }

  /** A record in flight moves, not yet to a poller's list of finished operations. */
  lemma OwnedMove(place: map<Event, Place>, mode: map<Fiber, Mode>, e: Event, p: Place)
    requires Owned(place, mode) && e in place && place[e] != Done && p != Done && !(p.Local? && p.ch == Finished)
    ensures Owned(place[e := p], mode)
  {
  }

  /** Everything queued as finished on `t` moves to its local list while no fiber of `t` is about to suspend. */
  lemma OwnedDrain(lists: map<Place, seq<Event>>, place: map<Event, Place>, mode: map<Fiber, Mode>, stored: set<Event>,
                   cur: map<Tid, Current>, so: set<Fiber>, owes: map<Agent, Signal>, ch: Channel, t: Tid)
    requires Owned(place, mode) && Linked(lists, place) && Placed(place, stored)
    requires Scheduled(cur, mode, so, owes) && Get(cur, t, Main) == Main
    ensures Owned(Relabel(place, Seq(lists, Queue(ch, t)), Local(ch, t)), mode)
  {
    var q := Seq(lists, Queue(ch, t));
    forall e | e in q ensures e in place && place[e] == Queue(ch, t) { assert e in lists[Queue(ch, t)]; }
    forall e | e in q && ch == Finished ensures e.Owner().Some? && Get(mode, e.Owner().value, Ready) == Waiting(e) {
      assert PlaceOk(e, place[e], stored);
      var g := e.Owner().value;
      assert Inside(Get(mode, g, Ready), e);
    }
  }

  lemma OwnedSuspend(place: map<Event, Place>, mode: map<Fiber, Mode>, f: Fiber)
    requires Owned(place, mode) && Get(mode, f, Ready).Submitted?
    ensures Owned(place, mode[f := Waiting(mode[f].op)])
  {
  }

  /** The owner of `e` is resumed. */
  lemma OwnedWake(place: map<Event, Place>, mode: map<Fiber, Mode>, e: Event)
    requires Owned(place, mode) && e in place && place[e] != Done && e.Owner().Some?
    ensures Owned(place[e := Done], mode[e.Owner().value := Woken(e)])
  {
    var g := e.Owner().value;
    assert Inside(Get(mode, g, Ready), e);
    forall x | x in place && x.Owner() == Some(g) && place[x] != Done ensures x == e {}
  }

  lemma OwnedReturn(place: map<Event, Place>, mode: map<Fiber, Mode>, f: Fiber)
    requires Owned(place, mode) && Get(mode, f, Ready).Woken?
    ensures Owned(place, mode[f := Ready])
  {
    forall x | x in place && x.Owner() == Some(f) ensures place[x] == Done {}
  }

  /** A fiber in no operation starts or stops waiting for its mailbox. */
  lemma OwnedIdle(place: map<Event, Place>, mode: map<Fiber, Mode>, f: Fiber, m: Mode)
    requires Owned(place, mode) && Get(mode, f, Ready) in {Ready, Receiving} && m in {Ready, Receiving}
    ensures Owned(place, mode[f := m])
  {
    forall x | x in place && x.Owner() == Some(f) ensures place[x] == Done {}
  }

  // ---------------------------------------------------------------------------------------------
  // signals

  lemma SignalledPush(lists: map<Place, seq<Event>>, count: map<Signal, nat>, pc: map<Tid, Poller>,
      owes: map<Agent, Signal>,
                      a: Agent, ch: Channel, t: Tid, q: seq<Event>)
    requires Signalled(lists, count, pc, owes) && a !in owes
    ensures Signalled(lists[Queue(ch, t) := q], count, pc, owes[a := Signal(ch, t)])
  {
    var owes' := owes[a := Signal(ch, t)];
    assert a in owes' && owes'[a] == Signal(ch, t);
    forall sg | Owing(owes, sg) ensures Owing(owes', sg) {
      var b :| b in owes && owes[b] == sg;
      assert b in owes' && owes'[b] == sg;
    }
  }

  lemma SignalledWrite(lists: map<Place, seq<Event>>, count: map<Signal, nat>, pc: map<Tid, Poller>,
      owes: map<Agent, Signal>, a: Agent)
    requires Signalled(lists, count, pc, owes) && a in owes
    ensures Signalled(lists, count[owes[a] := Get(count, owes[a], 0) + 1], pc, owes - {a})
  {
    forall sg | Owing(owes, sg) && sg != owes[a] ensures Owing(owes - {a}, sg) {
      var b :| b in owes && owes[b] == sg;
      assert b in owes - {a} && (owes - {a})[b] == sg;
    }
  }

  lemma SignalledSetList(lists: map<Place, seq<Event>>, count: map<Signal, nat>, pc: map<Tid, Poller>,
      owes: map<Agent, Signal>, p: Place, q: seq<Event>)
    requires Signalled(lists, count, pc, owes) && (p.Queue? ==> q == [])
    ensures Signalled(lists[p := q], count, pc, owes)
  {
  }

  /** A poller that is not between read and move goes to a state that claims no unread count. */
  lemma SignalledPoller(lists: map<Place, seq<Event>>, count: map<Signal, nat>, pc: map<Tid, Poller>,
      owes: map<Agent, Signal>, t: Tid, m: Poller)
    requires Signalled(lists, count, pc, owes)
    requires Get(pc, t, Idle).HasRead? ==> Seq(lists, Queue(pc[t].ch, t)) == []
    requires m.Fetched? ==> Get(count, Signal(m.ch, t), 0) > 0
    ensures Signalled(lists, count, pc[t := m], owes)
  {
  }

  lemma SignalledRead(lists: map<Place, seq<Event>>, count: map<Signal, nat>, pc: map<Tid, Poller>,
      owes: map<Agent, Signal>, t: Tid, ch: Channel)
    requires Signalled(lists, count, pc, owes) && Get(pc, t, Idle) == Fetched(ch)
    ensures Signalled(lists, count[Signal(ch, t) := 0], pc[t := HasRead(ch)], owes)
  {
  }

  /** An operation is queued, and perhaps a worker counted and asked for. */
  lemma StaffedPush(work: seq<Event>, e: Event, max: nat, reserved: nat, workers: nat, spawns: nat, failed: nat)
    requires Staffed(work, max, reserved, workers, spawns, failed)
    ensures Staffed(work + [e], max, ReservedAfter(max, reserved, |work| + 1), workers,
                    spawns + SpawnsAfter(max, reserved, |work| + 1), failed)
  {
  }

  lemma PaidOwe(wkr: map<Wid, WorkerMode>, tokens: set<Wid>, owes: map<Agent, Signal>, a: Agent, sg: Signal)
    requires WorkersPaid(wkr, tokens, owes) && !a.OfWorker?
    ensures WorkersPaid(wkr, tokens, owes[a := sg])
  {
  }

  lemma PaidWrite(wkr: map<Wid, WorkerMode>, tokens: set<Wid>, owes: map<Agent, Signal>, a: Agent)
    requires WorkersPaid(wkr, tokens, owes)
    ensures WorkersPaid(wkr, tokens, owes - {a})
  {
  }

  lemma PaidAcquire(wkr: map<Wid, WorkerMode>, tokens: set<Wid>, owes: map<Agent, Signal>, w: Wid)
    requires WorkersPaid(wkr, tokens, owes) && OfWorker(w) !in owes
    ensures WorkersPaid(wkr, tokens + {w}, owes)
  {
  }

  lemma PaidWork(wkr: map<Wid, WorkerMode>, tokens: set<Wid>, owes: map<Agent, Signal>, w: Wid, m: WorkerMode)
    requires WorkersPaid(wkr, tokens, owes) && w in tokens
    ensures WorkersPaid(wkr[w := m], tokens - {w}, owes)
  {
  }

  lemma PaidHandle(wkr: map<Wid, WorkerMode>, tokens: set<Wid>, owes: map<Agent, Signal>, w: Wid, m: WorkerMode)
    requires WorkersPaid(wkr, tokens, owes) && Get(wkr, w, Free) != Free
    ensures WorkersPaid(wkr[w := m], tokens, owes)
  {
  }

  lemma PaidFinish(wkr: map<Wid, WorkerMode>, tokens: set<Wid>, owes: map<Agent, Signal>, w: Wid, sg: Signal)
    requires WorkersPaid(wkr, tokens, owes) && Get(wkr, w, Free) != Free && w !in tokens
    ensures OfWorker(w) !in owes
    ensures WorkersPaid(wkr[w := Free], tokens, owes[OfWorker(w) := sg])
  {
  }

  // ---------------------------------------------------------------------------------------------
  // mailboxes

  lemma MailSetMode(mode: map<Fiber, Mode>, lists: map<Place, seq<Event>>, f: Fiber, m: Mode)
    requires MailSeen(mode, lists) && (m == Receiving ==> Seq(lists, Mailbox(f)) == [])
    ensures MailSeen(mode[f := m], lists)
  {
  }

  lemma MailSetList(mode: map<Fiber, Mode>, lists: map<Place, seq<Event>>, p: Place, q: seq<Event>)
    requires MailSeen(mode, lists) && (p.Mailbox? && Get(mode, p.f, Ready) == Receiving ==> q == [])
    ensures MailSeen(mode, lists[p := q])
  {
  }

  /** A message arrives for a fiber that is resumed at once. */
  lemma MailWake(mode: map<Fiber, Mode>, lists: map<Place, seq<Event>>, f: Fiber, q: seq<Event>)
    requires MailSeen(mode, lists)
    ensures MailSeen(mode[f := Ready], lists[Mailbox(f) := q])
  {
  }
}
