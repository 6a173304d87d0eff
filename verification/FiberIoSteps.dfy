/** Each step of the completion protocol keeps the invariant. */
module FiberIoSteps {
  import opened Basics
  import opened FiberIo
  import opened FiberIoInvariant
  import opened FiberIoParts

  lemma KeepsSubmitFile(s: State, f: Fiber, e: Event, s': State)
    requires Inv(s) && Enabled(s, SubmitFile(f, e)) && s' == ApplyFiber(s, SubmitFile(f, e))
    ensures Inv(s')
  {
    hide Scheduled, Linked, LocalsOf, Placed, InHand, Owned, Signalled, MailSeen, WorkersPaid, Staffed;
    hide ReservedAfter, SpawnsAfter;
    var q := Seq(s.lists, WorkQueue) + [e];
    StaffedPush(Seq(s.lists, WorkQueue), e, s.max, s.reserved, s.workers, s.spawns, s.failed);
    SchedMode(s.cur, s.mode, s.semOwers, s.owes, f, Submitted(e));
    SchedSem(s.cur, s.mode[f := Submitted(e)], s.semOwers, s.owes, f);
    LinkedPut(s.lists, s.place, WorkQueue, e);
    LocalsSetList(s.lists, s.pc, WorkQueue, q);
    PlacedSet(s.place, s.stored, e, WorkQueue);
    InHandSet(s.place, s.wkr, s.pc, s.stored, e, WorkQueue);
    OwnedStart(s.place, s.mode, e, WorkQueue, Submitted(e));
    SignalledSetList(s.lists, s.count, s.pc, s.owes, WorkQueue, q);
    MailSetList(s.mode, s.lists, WorkQueue, q);
    MailSetMode(s.mode, s.lists[WorkQueue := q], f, Submitted(e));
  }

  lemma KeepsReleaseSem(s: State, f: Fiber, s': State)
    requires Inv(s) && Enabled(s, ReleaseSem(f)) && s' == ApplyFiber(s, ReleaseSem(f))
    ensures Inv(s')
  {
    hide Scheduled, Linked, LocalsOf, Placed, InHand, Owned, Signalled, MailSeen, WorkersPaid, Staffed;
    SchedSemDone(s.cur, s.mode, s.semOwers, s.owes, f);
  }

  lemma KeepsSendRemote(s: State, f: Fiber, e: Event, s': State)
    requires Inv(s) && Enabled(s, SendRemote(f, e)) && s' == ApplyFiber(s, SendRemote(f, e))
    ensures Inv(s')
  {
    hide Scheduled, Linked, LocalsOf, Placed, InHand, Owned, Signalled, MailSeen, WorkersPaid, SemCounted, Staffed,
         AfterSend;
    PaidOwe(s.wkr, s.tokens, s.owes, OfFiber(f), Signal(Events, e.dst.home));
    var p := Queue(Events, e.dst.home);
    var q := Seq(s.lists, p) + [e];
    LinkedPut(s.lists, s.place, p, e);
    LocalsSetList(s.lists, s.pc, p, q);
    PlacedSet(s.place, s.stored, e, p);
    InHandSet(s.place, s.wkr, s.pc, s.stored, e, p);
    SignalledPush(s.lists, s.count, s.pc, s.owes, OfFiber(f), Events, e.dst.home, q);
    MailSetList(s.mode, s.lists, p, q);
    var m := AfterSend(e, Submitted(e));
    AfterSendMode(e, Submitted(e));
    SchedMode(s.cur, s.mode, s.semOwers, s.owes, f, m);
    SchedOwe(s.cur, s.mode[f := m], s.semOwers, s.owes, OfFiber(f), Signal(Events, e.dst.home));
    MailSetMode(s.mode, s.lists[p := q], f, m);
    OwnedSend(s.place, s.mode, e, p, m);
  }

  lemma KeepsRequestTask(s: State, f: Fiber, e: Event, s': State)
    requires Inv(s) && Enabled(s, RequestTask(f, e)) && s' == ApplyFiber(s, RequestTask(f, e))
    ensures Inv(s')
  {
    hide Scheduled, Linked, LocalsOf, Placed, InHand, Owned, Signalled, MailSeen, WorkersPaid, SemCounted, Staffed;
    PaidOwe(s.wkr, s.tokens, s.owes, OfFiber(f), Signal(Events, e.task));
    var p := Queue(Events, e.task);
    var q := Seq(s.lists, p) + [e];
    LinkedPut(s.lists, s.place, p, e);
    LocalsSetList(s.lists, s.pc, p, q);
    PlacedSet(s.place, s.stored, e, p);
    InHandSet(s.place, s.wkr, s.pc, s.stored, e, p);
    SignalledPush(s.lists, s.count, s.pc, s.owes, OfFiber(f), Events, e.task, q);
    MailSetList(s.mode, s.lists, p, q);
    SchedMode(s.cur, s.mode, s.semOwers, s.owes, f, Submitted(e));
    SchedOwe(s.cur, s.mode[f := Submitted(e)], s.semOwers, s.owes, OfFiber(f), Signal(Events, e.task));
    MailSetMode(s.mode, s.lists[p := q], f, Submitted(e));
    OwnedStart(s.place, s.mode, e, p, Submitted(e));
  }

  lemma KeepsRequestExit(s: State, a: Agent, e: Event, s': State)
    requires Inv(s) && Enabled(s, RequestExit(a, e)) && s' == ApplyFiber(s, RequestExit(a, e))
    ensures Inv(s')
  {
    hide Scheduled, Linked, LocalsOf, Placed, InHand, Owned, Signalled, MailSeen, WorkersPaid, SemCounted, Staffed;
    PaidOwe(s.wkr, s.tokens, s.owes, a, Signal(Events, e.task));
    var p := Queue(Events, e.task);
    var q := Seq(s.lists, p) + [e];
    LinkedPut(s.lists, s.place, p, e);
    LocalsSetList(s.lists, s.pc, p, q);
    PlacedSet(s.place, s.stored, e, p);
    InHandSet(s.place, s.wkr, s.pc, s.stored, e, p);
    SignalledPush(s.lists, s.count, s.pc, s.owes, a, Events, e.task, q);
    MailSetList(s.mode, s.lists, p, q);
    SchedOwe(s.cur, s.mode, s.semOwers, s.owes, a, Signal(Events, e.task));
    OwnedHeap(s.place, s.mode, e, p);
  }

  /** What a message to a fiber of the same thread does to the record and its owner. */
  lemma SendsLocalOwner(s: State, f: Fiber, e: Event, m: Mode, p: Place)
    requires Inv(s) && RunningFree(s, f) && e.Message? && e.from == f && e !in s.place && p == Mailbox(e.dst)
    requires m == AfterSend(e, Submitted(e))
    ensures Linked(Put(s.lists, p, e), s.place[e := p]) && Placed(s.place[e := p], s.stored)
    ensures InHand(s.place[e := p], s.wkr, s.pc, s.stored) && Owned(s.place[e := p], s.mode[f := m])
    ensures Scheduled(s.cur, s.mode[f := m], s.semOwers, s.owes)
  {
    hide Scheduled, Linked, LocalsOf, Placed, InHand, Owned, Signalled, MailSeen, WorkersPaid, SemCounted, Staffed,
         AfterSend;
    LinkedPut(s.lists, s.place, p, e);
    PlacedSet(s.place, s.stored, e, p);
    InHandSet(s.place, s.wkr, s.pc, s.stored, e, p);
    AfterSendMode(e, Submitted(e));
    SchedMode(s.cur, s.mode, s.semOwers, s.owes, f, m);
    OwnedSend(s.place, s.mode, e, p, m);
  }

  lemma KeepsSendLocal(s: State, f: Fiber, e: Event, s': State)
    requires Inv(s) && Enabled(s, SendLocal(f, e)) && s' == ApplyFiber(s, SendLocal(f, e))
    ensures Inv(s')
  {
    hide Scheduled, Linked, LocalsOf, Placed, InHand, Owned, Signalled, MailSeen, WorkersPaid, SemCounted, Staffed,
         AfterSend;
    var p := Mailbox(e.dst);
    var q := Seq(s.lists, p) + [e];
    var m := AfterSend(e, Submitted(e));
    SendsLocalOwner(s, f, e, m, p);
    AfterSendMode(e, Submitted(e));
    LocalsSetList(s.lists, s.pc, p, q);
    SignalledSetList(s.lists, s.count, s.pc, s.owes, p, q);
    MailSetList(s.mode, s.lists, p, q);
    MailSetMode(s.mode, s.lists[p := q], f, m);
  }

  lemma KeepsSendWaking(s: State, f: Fiber, e: Event, s': State)
    requires Inv(s) && Enabled(s, SendWaking(f, e)) && s' == ApplyFiber(s, SendWaking(f, e))
    ensures Inv(s')
  {
    hide Scheduled, Linked, LocalsOf, Placed, InHand, Owned, Signalled, MailSeen, WorkersPaid, SemCounted, Staffed,
         AfterSend;
    var p := Mailbox(e.dst);
    var q := Seq(s.lists, p) + [e];
    LinkedPut(s.lists, s.place, p, e);
    LocalsSetList(s.lists, s.pc, p, q);
    PlacedSet(s.place, s.stored, e, p);
    InHandSet(s.place, s.wkr, s.pc, s.stored, e, p);
    SignalledSetList(s.lists, s.count, s.pc, s.owes, p, q);
    var m := AfterSend(e, Waiting(e));
    AfterSendMode(e, Waiting(e));
    SchedHandOver(s.cur, s.mode, s.semOwers, s.owes, f, m, e.dst);
    MailSetMode(s.mode, s.lists, f, m);
    MailWake(s.mode[f := m], s.lists, e.dst, q);
    OwnedSend(s.place, s.mode, e, p, m);
    OwnedIdle(s.place[e := p], s.mode[f := m], e.dst, Ready);
  }

  lemma KeepsSuspend(s: State, f: Fiber, next: Current, s': State)
    requires Inv(s) && Enabled(s, Suspend(f, next)) && s' == ApplyFiber(s, Suspend(f, next))
    ensures Inv(s')
  {
    hide Scheduled, Linked, LocalsOf, Placed, InHand, Owned, Signalled, MailSeen, WorkersPaid, SemCounted, Staffed;
    SchedLeave(s.cur, s.mode, s.semOwers, s.owes, f, Waiting(s.mode[f].op), next);
    OwnedSuspend(s.place, s.mode, f);
    MailSetMode(s.mode, s.lists, f, Waiting(s.mode[f].op));
  }

  lemma KeepsYield(s: State, f: Fiber, next: Current, s': State)
    requires Inv(s) && Enabled(s, Yield(f, next)) && s' == ApplyFiber(s, Yield(f, next))
    ensures Inv(s')
  {
    hide Scheduled, Linked, LocalsOf, Placed, InHand, Owned, Signalled, MailSeen, WorkersPaid, SemCounted, Staffed;
    SchedYield(s.cur, s.mode, s.semOwers, s.owes, f, next);
  }

  lemma KeepsReturn(s: State, f: Fiber, s': State)
    requires Inv(s) && Enabled(s, Return(f)) && s' == ApplyFiber(s, Return(f))
    ensures Inv(s')
  {
    hide Scheduled, Linked, LocalsOf, Placed, InHand, Owned, Signalled, MailSeen, WorkersPaid, SemCounted, Staffed;
    SchedMode(s.cur, s.mode, s.semOwers, s.owes, f, Ready);
    OwnedReturn(s.place, s.mode, f);
    MailSetMode(s.mode, s.lists, f, Ready);
  }

  lemma KeepsReceive(s: State, f: Fiber, s': State)
    requires Inv(s) && Enabled(s, Receive(f)) && s' == ApplyFiber(s, Receive(f))
    ensures Inv(s')
  {
    hide Scheduled, Linked, LocalsOf, Placed, InHand, Owned, Signalled, MailSeen, WorkersPaid, SemCounted, Staffed;
    var p := Mailbox(f);
    var q := Seq(s.lists, p);
    LinkedTake(s.lists, s.place, p, Held(f));
    PlacedAt(s.place, s.stored, q[0]);
    LocalsSetList(s.lists, s.pc, p, q[1..]);
    PlacedSet(s.place, s.stored, q[0], Held(f));
    InHandSet(s.place, s.wkr, s.pc, s.stored, q[0], Held(f));
    OwnedMove(s.place, s.mode, q[0], Held(f));
    SignalledSetList(s.lists, s.count, s.pc, s.owes, p, q[1..]);
    MailSetList(s.mode, s.lists, p, q[1..]);
  }

  lemma KeepsBlock(s: State, f: Fiber, next: Current, s': State)
    requires Inv(s) && Enabled(s, Block(f, next)) && s' == ApplyFiber(s, Block(f, next))
    ensures Inv(s')
  {
    hide Scheduled, Linked, LocalsOf, Placed, InHand, Owned, Signalled, MailSeen, WorkersPaid, SemCounted, Staffed;
    SchedLeave(s.cur, s.mode, s.semOwers, s.owes, f, Receiving, next);
    OwnedIdle(s.place, s.mode, f, Receiving);
    MailSetMode(s.mode, s.lists, f, Receiving);
  }

  lemma KeepsFreeEvent(s: State, f: Fiber, e: Event, s': State)
    requires Inv(s) && Enabled(s, FreeEvent(f, e)) && s' == ApplyFiber(s, FreeEvent(f, e))
    ensures Inv(s')
  {
    hide Scheduled, Linked, LocalsOf, Placed, InHand, Owned, Signalled, MailSeen, WorkersPaid, SemCounted, Staffed;
    LinkedMark(s.lists, s.place, e, Freed);
    PlacedSet(s.place, s.stored, e, Freed);
    InHandSet(s.place, s.wkr, s.pc, s.stored, e, Freed);
    OwnedHeap(s.place, s.mode, e, Freed);
  }

  lemma KeepsFinishHere(s: State, f: Fiber, e: Event, s': State)
    requires Inv(s) && Enabled(s, FinishHere(f, e)) && s' == ApplyFiber(s, FinishHere(f, e))
    ensures Inv(s')
  {
    hide Scheduled, Linked, LocalsOf, Placed, InHand, Owned, Signalled, MailSeen, WorkersPaid, SemCounted, Staffed;
    var g := e.Owner().value;
    PlacedAt(s.place, s.stored, e);
    OwnedInside(s.place, s.mode, e);
    SchedGive(s.cur, s.mode, s.semOwers, s.owes, f, g, Woken(e));
    LinkedMark(s.lists, s.place, e, Done);
    PlacedSet(s.place, s.stored, e, Done);
    InHandSet(s.place, s.wkr, s.pc, s.stored, e, Done);
    OwnedWake(s.place, s.mode, e);
    MailSetMode(s.mode, s.lists, g, Woken(e));
  }

  lemma KeepsFinishThere(s: State, f: Fiber, e: Event, s': State)
    requires Inv(s) && Enabled(s, FinishThere(f, e)) && s' == ApplyFiber(s, FinishThere(f, e))
    ensures Inv(s')
  {
    hide Scheduled, Linked, LocalsOf, Placed, InHand, Owned, Signalled, MailSeen, WorkersPaid, SemCounted, Staffed;
    PaidOwe(s.wkr, s.tokens, s.owes, OfFiber(f), Signal(Finished, e.Owner().value.home));
    var t := e.Owner().value.home;
    PlacedAt(s.place, s.stored, e);
    SchedOwe(s.cur, s.mode, s.semOwers, s.owes, OfFiber(f), Signal(Finished, t));
    var p := Queue(Finished, t);
    var q := Seq(s.lists, p) + [e];
    LinkedPut(s.lists, s.place, p, e);
    LocalsSetList(s.lists, s.pc, p, q);
    OwnedMove(s.place, s.mode, e, p);
    MailSetList(s.mode, s.lists, p, q);
    PlacedSet(s.place, s.stored, e, p);
    InHandSet(s.place, s.wkr, s.pc, s.stored, e, p);
    SignalledPush(s.lists, s.count, s.pc, s.owes, OfFiber(f), Finished, t, q);
  }

  lemma KeepsWrite(s: State, a: Agent, s': State)
    requires Inv(s) && Enabled(s, Write(a)) && s' == ApplyFiber(s, Write(a))
    ensures Inv(s')
  {
    hide Scheduled, Linked, LocalsOf, Placed, InHand, Owned, Signalled, MailSeen, WorkersPaid, SemCounted, Staffed;
    PaidWrite(s.wkr, s.tokens, s.owes, a);
    SchedPaid(s.cur, s.mode, s.semOwers, s.owes, a);
    SignalledWrite(s.lists, s.count, s.pc, s.owes, a);
  }

  lemma KeepsSpawn(s: State, st: Step, s': State)
    requires Inv(s) && Enabled(s, st) && (st.Spawn? || st.SpawnFails?) && s' == ApplyWorker(s, st)
    ensures Inv(s')
  {
    hide Scheduled, Linked, LocalsOf, Placed, InHand, Owned, Signalled, MailSeen, WorkersPaid, SemCounted;
  }

  lemma KeepsAcquire(s: State, w: Wid, s': State)
    requires Inv(s) && Enabled(s, Acquire(w)) && s' == ApplyWorker(s, Acquire(w))
    ensures Inv(s')
  {
    hide Scheduled, Linked, LocalsOf, Placed, InHand, Owned, Signalled, MailSeen, WorkersPaid, Staffed;
    PaidAcquire(s.wkr, s.tokens, s.owes, w);
  }

  lemma KeepsPopWork(s: State, w: Wid, s': State)
    requires Inv(s) && Enabled(s, PopWork(w)) && s' == ApplyWorker(s, PopWork(w))
    ensures Inv(s')
  {
    hide Scheduled, Linked, LocalsOf, Placed, InHand, Owned, Signalled, MailSeen, WorkersPaid;
    PaidWork(s.wkr, s.tokens, s.owes, w, Got(Seq(s.lists, WorkQueue)[0]));
    var q := Seq(s.lists, WorkQueue);
    LinkedTake(s.lists, s.place, WorkQueue, AtWorker(w));
    PlacedAt(s.place, s.stored, q[0]);
    LocalsSetList(s.lists, s.pc, WorkQueue, q[1..]);
    PlacedSet(s.place, s.stored, q[0], AtWorker(w));
    InHandPopWork(s.place, s.wkr, s.pc, s.stored, q[0], w);
    OwnedMove(s.place, s.mode, q[0], AtWorker(w));
    SignalledSetList(s.lists, s.count, s.pc, s.owes, WorkQueue, q[1..]);
    MailSetList(s.mode, s.lists, WorkQueue, q[1..]);
  }

  lemma KeepsHandle(s: State, w: Wid, s': State)
    requires Inv(s) && Enabled(s, Handle(w)) && s' == ApplyWorker(s, Handle(w))
    ensures Inv(s')
  {
    hide Scheduled, Linked, LocalsOf, Placed, InHand, Owned, Signalled, MailSeen, WorkersPaid, Staffed;
    PaidHandle(s.wkr, s.tokens, s.owes, w, Handled(s.wkr[w].e));
    PlacedStore(s.place, s.stored, s.wkr[w].e);
    InHandHandle(s.place, s.wkr, s.pc, s.stored, w);
  }

  lemma KeepsFinishWork(s: State, w: Wid, s': State)
    requires Inv(s) && Enabled(s, FinishWork(w)) && s' == ApplyWorker(s, FinishWork(w))
    ensures Inv(s')
  {
    hide Scheduled, Linked, LocalsOf, Placed, InHand, Owned, Signalled, MailSeen, WorkersPaid, Staffed;
    PaidFinish(s.wkr, s.tokens, s.owes, w, Signal(Finished, s.wkr[w].e.Owner().value.home));
    var e := s.wkr[w].e;
    var t := e.Owner().value.home;
    InHandFinishWork(s.place, s.wkr, s.pc, s.stored, w, Queue(Finished, t));
    PlacedAt(s.place, s.stored, e);
    SchedOwe(s.cur, s.mode, s.semOwers, s.owes, OfWorker(w), Signal(Finished, t));
    InHandStored(s.place, s.wkr, s.pc, s.stored, w);
    var p := Queue(Finished, t);
    var q := Seq(s.lists, p) + [e];
    LinkedPut(s.lists, s.place, p, e);
    LocalsSetList(s.lists, s.pc, p, q);
    OwnedMove(s.place, s.mode, e, p);
    MailSetList(s.mode, s.lists, p, q);
    PlacedSet(s.place, s.stored, e, p);
    SignalledPush(s.lists, s.count, s.pc, s.owes, OfWorker(w), Finished, t, q);
  }

  lemma KeepsRunFiber(s: State, t: Tid, f: Fiber, s': State)
    requires Inv(s) && Enabled(s, RunFiber(t, f)) && s' == ApplyPoller(s, RunFiber(t, f))
    ensures Inv(s')
  {
    hide Scheduled, Linked, LocalsOf, Placed, InHand, Owned, Signalled, MailSeen, WorkersPaid, SemCounted, Staffed;
    SchedEnter(s.cur, s.mode, s.semOwers, s.owes, f, Ready);
  }

  lemma KeepsFetch(s: State, t: Tid, ch: Channel, s': State)
    requires Inv(s) && Enabled(s, Fetch(t, ch)) && s' == ApplyPoller(s, Fetch(t, ch))
    ensures Inv(s')
  {
    hide Scheduled, Linked, LocalsOf, Placed, InHand, Owned, Signalled, MailSeen, WorkersPaid, SemCounted, Staffed;
    LocalsIdle(s.lists, s.pc, t);
    LocalsSetPoller(s.lists, s.pc, t, Fetched(ch));
    InHandPoller(s.place, s.wkr, s.pc, s.stored, t, Fetched(ch));
    SignalledPoller(s.lists, s.count, s.pc, s.owes, t, Fetched(ch));
  }

  lemma KeepsReadCount(s: State, t: Tid, ch: Channel, s': State)
    requires Inv(s) && Enabled(s, ReadCount(t, ch)) && s' == ApplyPoller(s, ReadCount(t, ch))
    ensures Inv(s')
  {
    hide Scheduled, Linked, LocalsOf, Placed, InHand, Owned, Signalled, MailSeen, WorkersPaid, SemCounted, Staffed;
    LocalsIdle(s.lists, s.pc, t);
    LocalsSetPoller(s.lists, s.pc, t, HasRead(ch));
    InHandPoller(s.place, s.wkr, s.pc, s.stored, t, HasRead(ch));
    SignalledRead(s.lists, s.count, s.pc, s.owes, t, ch);
  }

  lemma KeepsMoveAll(s: State, t: Tid, ch: Channel, s': State)
    requires Inv(s) && Enabled(s, MoveAll(t, ch)) && s' == ApplyPoller(s, MoveAll(t, ch))
    ensures Inv(s')
  {
    hide Scheduled, Linked, LocalsOf, Placed, InHand, Owned, Signalled, MailSeen, WorkersPaid, SemCounted, Staffed;
    var p0, p1, q := Queue(ch, t), Local(ch, t), Seq(s.lists, Queue(ch, t));
    LocalsIdle(s.lists, s.pc, t);
    LinkedMove(s.lists, s.place, p0, p1);
    LocalsSetList(s.lists, s.pc, p0, []);
    LocalsSetPoller(s.lists[p0 := []], s.pc, t, Draining(ch));
    LocalsFill(s.lists[p0 := []], s.pc[t := Draining(ch)], ch, t, q);
    PlacedMove(s.lists, s.place, s.stored, ch, t);
    InHandMove(s.lists, s.place, s.wkr, s.pc, s.stored, p0, p1);
    InHandPoller(Relabel(s.place, q, p1), s.wkr, s.pc, s.stored, t, Draining(ch));
    OwnedDrain(s.lists, s.place, s.mode, s.stored, s.cur, s.semOwers, s.owes, ch, t);
    SignalledSetList(s.lists, s.count, s.pc, s.owes, p0, []);
    SignalledPoller(s.lists[p0 := []], s.count, s.pc, s.owes, t, Draining(ch));
    SignalledSetList(s.lists[p0 := []], s.count, s.pc[t := Draining(ch)], s.owes, p1, q);
    MailSetList(s.mode, s.lists, p0, []);
    MailSetList(s.mode, s.lists[p0 := []], p1, q);
  }

  lemma KeepsEndDrain(s: State, t: Tid, ch: Channel, s': State)
    requires Inv(s) && Enabled(s, EndDrain(t, ch)) && s' == ApplyPoller(s, EndDrain(t, ch))
    ensures Inv(s')
  {
    hide Scheduled, Linked, LocalsOf, Placed, InHand, Owned, Signalled, MailSeen, WorkersPaid, SemCounted, Staffed;
    LocalsEnd(s.lists, s.pc, t, ch);
    LocalsSetPoller(s.lists, s.pc, t, Idle);
    InHandPoller(s.place, s.wkr, s.pc, s.stored, t, Idle);
    SignalledPoller(s.lists, s.count, s.pc, s.owes, t, Idle);
  }

  lemma KeepsPopFinished(s: State, t: Tid, s': State)
    requires Inv(s) && Enabled(s, PopFinished(t)) && s' == ApplyPoller(s, PopFinished(t))
    ensures Inv(s')
  {
    hide Scheduled, Linked, LocalsOf, Placed, InHand, Owned, Signalled, MailSeen, WorkersPaid, SemCounted, Staffed;
    var p := Local(Finished, t);
    var q := Seq(s.lists, p);
    var e := q[0];
    var g := e.Owner().value;
    LinkedTake(s.lists, s.place, p, Done);
    PlacedAt(s.place, s.stored, e);
    SchedEnter(s.cur, s.mode, s.semOwers, s.owes, g, Woken(e));
    LocalsSetList(s.lists, s.pc, p, q[1..]);
    PlacedSet(s.place, s.stored, e, Done);
    InHandSet(s.place, s.wkr, s.pc, s.stored, e, Done);
    OwnedWake(s.place, s.mode, e);
    SignalledSetList(s.lists, s.count, s.pc, s.owes, p, q[1..]);
    MailSetList(s.mode, s.lists, p, q[1..]);
    MailSetMode(s.mode, s.lists[p := q[1..]], g, Woken(e));
  }

  lemma KeepsPopExit(s: State, t: Tid, s': State)
    requires Inv(s) && Enabled(s, PopExit(t)) && s' == ApplyPoller(s, PopExit(t))
    ensures Inv(s')
  {
    hide Scheduled, Linked, LocalsOf, Placed, InHand, Owned, Signalled, MailSeen, WorkersPaid, SemCounted, Staffed;
    var p := Local(Events, t);
    var q := Seq(s.lists, p);
    var e := q[0];
    var m := Exited;
    LinkedTake(s.lists, s.place, p, Freed);
    PlacedAt(s.place, s.stored, e);
    LocalsSetList(s.lists, s.pc, p, q[1..]);
    LocalsEnd(s.lists[p := q[1..]], s.pc, t, Events);
    LocalsSetPoller(s.lists[p := q[1..]], s.pc, t, m);
    PlacedSet(s.place, s.stored, e, Freed);
    SignalledSetList(s.lists, s.count, s.pc, s.owes, p, q[1..]);
    SignalledPoller(s.lists[p := q[1..]], s.count, s.pc, s.owes, t, m);
    MailSetList(s.mode, s.lists, p, q[1..]);
    InHandSet(s.place, s.wkr, s.pc, s.stored, e, Freed);
    InHandPoller(s.place[e := Freed], s.wkr, s.pc, s.stored, t, m);
    OwnedHeap(s.place, s.mode, e, Freed);
  }

  lemma KeepsPopTask(s: State, t: Tid, s': State)
    requires Inv(s) && Enabled(s, PopTask(t)) && s' == ApplyPoller(s, PopTask(t))
    ensures Inv(s')
  {
    hide Scheduled, Linked, LocalsOf, Placed, InHand, Owned, Signalled, MailSeen, WorkersPaid, SemCounted, Staffed;
    var p := Local(Events, t);
    var q := Seq(s.lists, p);
    var e := q[0];
    var m := Answering(e);
    LinkedTake(s.lists, s.place, p, AtPoller(t));
    PlacedAt(s.place, s.stored, e);
    LocalsSetList(s.lists, s.pc, p, q[1..]);
    LocalsEnd(s.lists[p := q[1..]], s.pc, t, Events);
    LocalsSetPoller(s.lists[p := q[1..]], s.pc, t, m);
    PlacedSet(s.place, s.stored, e, AtPoller(t));
    SignalledSetList(s.lists, s.count, s.pc, s.owes, p, q[1..]);
    SignalledPoller(s.lists[p := q[1..]], s.count, s.pc, s.owes, t, m);
    MailSetList(s.mode, s.lists, p, q[1..]);
    InHandPopTask(s.place, s.wkr, s.pc, s.stored, e, t);
    OwnedMove(s.place, s.mode, e, AtPoller(t));
  }

  /** What dispatching a message does to everything but the scheduling. */
  lemma Delivers(s: State, t: Tid, e: Event, lists: map<Place, seq<Event>>, place: map<Event, Place>)
    requires Inv(s) && Get(s.pc, t, Idle) == Draining(Events)
    requires Seq(s.lists, Local(Events, t)) != [] && e == Seq(s.lists, Local(Events, t))[0] && e.Message?
    requires lists == Put(Drop(s.lists, Local(Events, t)), Mailbox(e.dst), e) && place == s.place[e := Mailbox(e.dst)]
    ensures Linked(lists, place) && LocalsOf(lists, s.pc) && Placed(place, s.stored)
    ensures InHand(place, s.wkr, s.pc, s.stored) && Owned(place, s.mode) && Signalled(lists, s.count, s.pc, s.owes)
    ensures e.dst.home == t
  {
    hide Scheduled, Linked, LocalsOf, Placed, InHand, Owned, Signalled, MailSeen, WorkersPaid, SemCounted, Staffed;
    var p := Local(Events, t);
    var q := Seq(s.lists, p);
    var p2, lists1 := Mailbox(e.dst), Drop(s.lists, p);
    var q2 := Seq(lists1, p2) + [e];
    LinkedHop(s.lists, s.place, p, p2);
    PlacedAt(s.place, s.stored, e);
    LocalsSetList(s.lists, s.pc, p, q[1..]);
    LocalsSetList(lists1, s.pc, p2, q2);
    PlacedSet(s.place, s.stored, e, p2);
    InHandSet(s.place, s.wkr, s.pc, s.stored, e, p2);
    OwnedMove(s.place, s.mode, e, p2);
    SignalledSetList(s.lists, s.count, s.pc, s.owes, p, q[1..]);
    SignalledSetList(lists1, s.count, s.pc, s.owes, p2, q2);
  }

  lemma KeepsPopMessage(s: State, t: Tid, s': State)
    requires Inv(s) && Enabled(s, PopMessage(t)) && s' == ApplyPoller(s, PopMessage(t))
    ensures Inv(s')
  {
    hide Scheduled, Linked, LocalsOf, Placed, InHand, Owned, Signalled, MailSeen, WorkersPaid, SemCounted, Staffed;
    var p := Local(Events, t);
    var e := Seq(s.lists, p)[0];
    Delivers(s, t, e, s'.lists, s'.place);
    MailSetList(s.mode, s.lists, p, Seq(s.lists, p)[1..]);
    MailSetList(s.mode, Drop(s.lists, p), Mailbox(e.dst), Seq(Drop(s.lists, p), Mailbox(e.dst)) + [e]);
  }

  /** A dispatched message resumes its waiting receiver. */
  lemma Resumes(s: State, t: Tid, e: Event, lists: map<Place, seq<Event>>, place: map<Event, Place>)
    requires Scheduled(s.cur, s.mode, s.semOwers, s.owes) && MailSeen(s.mode, s.lists) && Owned(place, s.mode)
    requires Polling(s, t, Draining(Events)) && Seq(s.lists, Local(Events, t)) != []
    requires e == Seq(s.lists, Local(Events, t))[0] && e.Message? && e.dst.home == t
    requires Get(s.mode, e.dst, Ready) == Receiving
    requires lists == Put(Drop(s.lists, Local(Events, t)), Mailbox(e.dst), e)
    ensures Scheduled(s.cur[t := Run(e.dst)], s.mode[e.dst := Ready], s.semOwers, s.owes)
    ensures MailSeen(s.mode[e.dst := Ready], lists) && Owned(place, s.mode[e.dst := Ready])
  {
    hide Scheduled, MailSeen, Owned;
    var p := Local(Events, t);
    MailSetList(s.mode, s.lists, p, Seq(s.lists, p)[1..]);
    MailWake(s.mode, Drop(s.lists, p), e.dst, Seq(Drop(s.lists, p), Mailbox(e.dst)) + [e]);
    SchedEnter(s.cur, s.mode, s.semOwers, s.owes, e.dst, Ready);
    OwnedIdle(place, s.mode, e.dst, Ready);
  }

  lemma KeepsPopWaking(s: State, t: Tid, s': State)
    requires Inv(s) && Enabled(s, PopWaking(t)) && s' == ApplyPoller(s, PopWaking(t))
    ensures Inv(s')
  {
    hide Scheduled, Linked, LocalsOf, Placed, InHand, Owned, Signalled, MailSeen, WorkersPaid, SemCounted, Staffed;
    var e := Seq(s.lists, Local(Events, t))[0];
    Delivers(s, t, e, s'.lists, s'.place);
    Resumes(s, t, e, s'.lists, s'.place);
  }

  /** What answering a request does to the records and their owners. */
  lemma AnswersOwner(s: State, t0: Tid, e: Event, p: Place)
    requires Inv(s) && Get(s.pc, t0, Idle) == Answering(e)
    requires e.Owner().Some? && p == Queue(Finished, e.Owner().value.home)
    ensures Linked(Put(s.lists, p, e), s.place[e := p]) && Placed(s.place[e := p], s.stored + {e})
    ensures InHand(s.place[e := p], s.wkr, s.pc[t0 := Draining(Events)], s.stored + {e})
    ensures Owned(s.place[e := p], s.mode)
  {
    hide Scheduled, Linked, LocalsOf, Placed, InHand, Owned, Signalled, MailSeen, WorkersPaid, SemCounted, Staffed;
    var m := Draining(Events);
    InHandAnswer(s.place, s.wkr, s.pc, s.stored, t0, p, m);
    PlacedAt(s.place, s.stored, e);
    LinkedPut(s.lists, s.place, p, e);
    OwnedMove(s.place, s.mode, e, p);
    PlacedStore(s.place, s.stored, e);
    PlacedSet(s.place, s.stored + {e}, e, p);
  }

  /** What it does to the lists and the signals. */
  lemma AnswersLists(s: State, t0: Tid, e: Event, p: Place)
    requires Inv(s) && Get(s.pc, t0, Idle) == Answering(e)
    requires e.Owner().Some? && p == Queue(Finished, e.Owner().value.home)
    requires OfPoller(t0) !in s.owes
    ensures var lists, pc := Put(s.lists, p, e), s.pc[t0 := Draining(Events)];
            && LocalsOf(lists, pc) && Signalled(lists, s.count, pc, s.owes[OfPoller(t0) := Signal(Finished, p.t)])
            && MailSeen(s.mode, lists)
  {
    hide Scheduled, Linked, LocalsOf, Placed, InHand, Owned, Signalled, MailSeen, WorkersPaid, SemCounted, Staffed;
    var m, q := Draining(Events), Seq(s.lists, p) + [e];
    MailSetList(s.mode, s.lists, p, q);
    LocalsAnswered(s.lists, s.pc, t0);
    LocalsSetPoller(s.lists, s.pc, t0, m);
    LocalsSetList(s.lists, s.pc[t0 := m], p, q);
    SignalledPush(s.lists, s.count, s.pc, s.owes, OfPoller(t0), Finished, p.t, q);
    SignalledPoller(s.lists[p := q], s.count, s.pc, s.owes[OfPoller(t0) := Signal(Finished, p.t)], t0, m);
  }

  lemma KeepsAnswer(s: State, t0: Tid, s': State)
    requires Inv(s) && Enabled(s, Answer(t0)) && s' == ApplyPoller(s, Answer(t0))
    ensures Inv(s')
  {
    hide Scheduled, Linked, LocalsOf, Placed, InHand, Owned, Signalled, MailSeen, WorkersPaid, SemCounted, Staffed;
    var e := s.pc[t0].e;
    var p := Queue(Finished, e.Owner().value.home);
    AnswersOwner(s, t0, e, p);
    AnswersLists(s, t0, e, p);
    PaidOwe(s.wkr, s.tokens, s.owes, OfPoller(t0), Signal(Finished, p.t));
    SchedOwe(s.cur, s.mode, s.semOwers, s.owes, OfPoller(t0), Signal(Finished, p.t));
  }
}
