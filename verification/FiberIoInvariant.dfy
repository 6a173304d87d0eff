/** What every step of the completion protocol keeps. */
module FiberIoInvariant {
  import opened Basics
  import opened FiberIo

  // ---------------------------------------------------------------------------------------------
  // scheduling

  predicate Suspended(m: Mode) {
    m.Waiting? || m.Receiving?
  }

  /** Only a fiber that is not suspended runs, and on its own thread. Between handing an operation over
      and suspending, between being resumed and returning, and while it has a signal left to send, a fiber
      is the one that runs on its thread. */
  ghost predicate Scheduled(cur: map<Tid, Current>, mode: map<Fiber, Mode>,
                            semOwers: set<Fiber>, owes: map<Agent, Signal>) {
    && (forall t :: t in cur && cur[t].Run? ==> cur[t].f.home == t && !Suspended(Get(mode, cur[t].f, Ready)))
    && (forall g :: g in mode && (mode[g].Submitted? || mode[g].Woken?) ==> Get(cur, g.home, Main) == Run(g))
    && (forall g :: g in semOwers ==> Get(cur, g.home, Main) == Run(g))
    && (forall a :: a in owes && a.OfFiber? ==> Get(cur, a.f.home, Main) == Run(a.f))
    && (forall a :: a in owes && a.OfPoller? ==> Get(cur, a.t, Main) == Main)
  }

  // ---------------------------------------------------------------------------------------------
  // event lists

  /** Each event is on exactly the list its place names, once, and on no other. */
  ghost predicate Linked(lists: map<Place, seq<Event>>, place: map<Event, Place>) {
    && (forall p :: p in lists ==> Distinct(lists[p]) && p.IsList())
    && (forall p, e :: p in lists && e in lists[p] ==> e in place && place[e] == p)
    && (forall e :: e in place && place[e].IsList() ==> e in Seq(lists, place[e]))
  }

  /** A poller's local list is empty unless it drains it. */
  ghost predicate LocalsOf(lists: map<Place, seq<Event>>, pc: map<Tid, Poller>) {
    forall t, ch :: Seq(lists, Local(ch, t)) != [] ==>
      var m := Get(pc, t, Idle); m == Draining(ch) || (ch == Events && (m.Answering? || m == Exited))
  }

  // ---------------------------------------------------------------------------------------------
  // places and owners

  /** The result that the owner of `e` reads has been stored (a message carries its own reply). */
  predicate Answered(stored: set<Event>, e: Event) {
    e.Message? || e in stored
  }

  /** What an event at place `p` is. */
  predicate PlaceOk(e: Event, p: Place, stored: set<Event>) {
    match p
    case WorkQueue => e.FileOp?
    case AtWorker(w) => e.FileOp?
    case Queue(ch, t) =>
      if ch == Events then e.PolledBy(t) else e.Owner().Some? && e.Owner().value.home == t && Answered(stored, e)
    case Local(ch, t) =>
      if ch == Events then e.PolledBy(t) else e.Owner().Some? && e.Owner().value.home == t && Answered(stored, e)
    case AtPoller(t) => e.TaskRequest?
    case Mailbox(f) => e.Message? && e.dst == f
    case Held(f) => e.Message? && e.dst == f
    case Done => e.Owner().Some? && Answered(stored, e)
    case Freed => e.Owner().None?
  }

  ghost predicate Placed(place: map<Event, Place>, stored: set<Event>) {
    forall e :: e in place ==> PlaceOk(e, place[e], stored)
  }

  /** A worker or an answering poller has in hand exactly the event placed with it, and a worker that has
      run the handler has stored its result. */
  ghost predicate InHand(place: map<Event, Place>, wkr: map<Wid, WorkerMode>, pc: map<Tid, Poller>,
                         stored: set<Event>)
  {
    && (forall w :: w in wkr && wkr[w] != Free ==> wkr[w].e in place && place[wkr[w].e] == AtWorker(w))
    && (forall w :: w in wkr && wkr[w].Handled? ==> wkr[w].e in stored)
    && (forall e :: e in place && place[e].AtWorker? ==>
          Get(wkr, place[e].w, Free) != Free && wkr[place[e].w].e == e)
    && (forall t :: t in pc && pc[t].Answering? ==> pc[t].e in place && place[pc[t].e] == AtPoller(t))
    && (forall e :: e in place && place[e].AtPoller? ==> Get(pc, place[e].t, Idle) == Answering(e))
  }

  /** `m` says its fiber is inside operation `e`: it handed the record over and has not been resumed. */
  predicate Inside(m: Mode, e: Event) {
    m == Submitted(e) || m == Waiting(e)
  }

  /** A fiber is inside an operation exactly while that operation's record is in flight; a record that a
      poller is about to complete belongs to a fiber that has already suspended. */
  ghost predicate Owned(place: map<Event, Place>, mode: map<Fiber, Mode>) {
    && (forall e :: e in place && e.Owner().Some? && place[e] != Done ==> Inside(Get(mode, e.Owner().value, Ready), e))
    && (forall e :: e in place && e.Owner().Some? && place[e].Local? && place[e].ch == Finished ==>
          Get(mode, e.Owner().value, Ready) == Waiting(e))
    && (forall g :: g in mode && (mode[g].Submitted? || mode[g].Waiting?) ==>
          mode[g].op in place && place[mode[g].op] != Done && mode[g].op.Owner() == Some(g))
    && (forall g :: g in mode && mode[g].Woken? ==>
          mode[g].op in place && place[mode[g].op] == Done && mode[g].op.Owner() == Some(g))
  }

  // ---------------------------------------------------------------------------------------------
  // signals

  ghost predicate Owing(owes: map<Agent, Signal>, sg: Signal) {
    exists a :: a in owes && owes[a] == sg
  }

  /** No lost wakeup: a non-empty queue has a positive counter, or a producer that still owes its write, or
      a poller between its read and its locked move; and a fetched counter is still positive. */
  ghost predicate Signalled(lists: map<Place, seq<Event>>, count: map<Signal, nat>, pc: map<Tid, Poller>,
                            owes: map<Agent, Signal>) {
    && (forall ch, t :: Seq(lists, Queue(ch, t)) != [] ==>
          Get(count, Signal(ch, t), 0) > 0 || Get(pc, t, Idle) == HasRead(ch) || Owing(owes, Signal(ch, t)))
    && (forall t :: t in pc && pc[t].Fetched? ==> Get(count, Signal(pc[t].ch, t), 0) > 0)
  }

  /** A fiber that waits for its mailbox has an empty one. */
  ghost predicate MailSeen(mode: map<Fiber, Mode>, lists: map<Place, seq<Event>>) {
    forall f :: f in mode && mode[f] == Receiving ==> Seq(lists, Mailbox(f)) == []
  }

  /** Each queued operation has one unit of the semaphore, one worker allowed to pop, or one fiber that
      still has to release. */
  ghost predicate SemCounted(work: seq<Event>, sem: nat, tokens: set<Wid>, semOwers: set<Fiber>,
      wkr: map<Wid, WorkerMode>) {
    && |work| == sem + |tokens| + |semOwers|
    && (forall w :: w in tokens ==> Get(wkr, w, Free) == Free)
  }

  /** Every worker that the group counts runs, is to be created or could not be; and it counts one as soon as
      there is work. */
  ghost predicate Staffed(work: seq<Event>, max: nat, reserved: nat, workers: nat, spawns: nat, failed: nat) {
    && reserved <= workers + spawns + failed
    && (work != [] && max > 0 ==> reserved > 0)
  }

  /** A worker writes its signal before it takes more work. */
  ghost predicate WorkersPaid(wkr: map<Wid, WorkerMode>, tokens: set<Wid>, owes: map<Agent, Signal>) {
    forall a :: a in owes && a.OfWorker? ==> Get(wkr, a.w, Free) == Free && a.w !in tokens
  }

  ghost predicate Inv(s: State) {
    && Scheduled(s.cur, s.mode, s.semOwers, s.owes)
    && Linked(s.lists, s.place) && LocalsOf(s.lists, s.pc)
    && Placed(s.place, s.stored) && InHand(s.place, s.wkr, s.pc, s.stored) && Owned(s.place, s.mode)
    && Signalled(s.lists, s.count, s.pc, s.owes) && MailSeen(s.mode, s.lists)
    && SemCounted(Seq(s.lists, WorkQueue), s.sem, s.tokens, s.semOwers, s.wkr)
    && WorkersPaid(s.wkr, s.tokens, s.owes)
    && Staffed(Seq(s.lists, WorkQueue), s.max, s.reserved, s.workers, s.spawns, s.failed)
  }
}
