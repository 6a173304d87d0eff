/** Memory safety and wakeups over every run of the completion protocol. */
module FiberIoSafety {
  import opened Basics
  import opened FiberIo
  import opened FiberIoInvariant
  import opened FiberIoParts
  import opened FiberIoRuns

  ghost predicate Reachable(s: State) {
    exists pool, steps :: After(pool, steps) == Some(s)
  }

  lemma ReachableKeeps(s: State)
    requires Reachable(s)
    ensures Inv(s)
  {
    hide Inv, After;
    var pool, steps :| After(pool, steps) == Some(s);
    RunKeeps(pool, steps);
  }

  // ---------------------------------------------------------------------------------------------
  // no record is touched after its owner has returned or freed it

  /** The memory of record `e` is valid: it lies in the frame of a call that has not returned, or it is a
      heap record that has not been freed. */
  predicate Live(s: State, e: Event) {
    match e.Owner()
    case Some(g) => (var m := Get(s.mode, g, Ready); m == Submitted(e) || m == Waiting(e) || m == Woken(e))
    case None => e in s.place && s.place[e] != Freed
  }

  /** The node that `tt_dlist_push_tail` links to. */
  function LastOf(q: seq<Event>): (r: seq<Event>)
    ensures forall e :: e in r ==> e in q
  {
    if q == [] then [] else [q[|q| - 1]]
  }

  /** The nodes that `tt_dlist_pop_head` reads and writes. */
  function FirstTwo(q: seq<Event>): (r: seq<Event>)
    ensures forall e :: e in r ==> e in q
  {
    if |q| < 2 then q else q[..2]
  }

  /** The records that step `st` reads or writes, besides one that it creates. */
  function Touched(s: State, st: Step): seq<Event> {
    match st
    case SubmitFile(f, e) => Seq(s.lists, WorkQueue)   // counted under the lock
    case SendRemote(f, e) => if e.Message? then LastOf(Seq(s.lists, Queue(Events, e.dst.home))) else []
    case SendLocal(f, e) => if e.Message? then LastOf(Seq(s.lists, Mailbox(e.dst))) else []
    case SendWaking(f, e) => if e.Message? then LastOf(Seq(s.lists, Mailbox(e.dst))) else []
    case RequestTask(f, e) => if e.TaskRequest? then LastOf(Seq(s.lists, Queue(Events, e.task))) else []
    case RequestExit(a, e) => if e.ExitRequest? then LastOf(Seq(s.lists, Queue(Events, e.task))) else []
    case Return(f) => (var m := Get(s.mode, f, Ready); if m.Woken? then [m.op] else [])
    case Receive(f) => FirstTwo(Seq(s.lists, Mailbox(f)))
    case FreeEvent(f, e) => [e]
    case FinishHere(f, e) => [e]
    case FinishThere(f, e) =>
      [e] + if e.Owner().Some? then LastOf(Seq(s.lists, Queue(Finished, e.Owner().value.home))) else []
    case PopWork(w) => FirstTwo(Seq(s.lists, WorkQueue))
    case Handle(w) => (var m := Get(s.wkr, w, Free); if m.Got? then [m.e] else [])
    case FinishWork(w) =>
      (var m := Get(s.wkr, w, Free);
       if m.Handled? then
         [m.e] + if m.e.Owner().Some? then LastOf(Seq(s.lists, Queue(Finished, m.e.Owner().value.home))) else []
       else [])
    case PopFinished(t) => FirstTwo(Seq(s.lists, Local(Finished, t)))
    case PopExit(t) => FirstTwo(Seq(s.lists, Local(Events, t)))
    case PopTask(t) => FirstTwo(Seq(s.lists, Local(Events, t)))
    case PopMessage(t) => FirstTwo(Seq(s.lists, Local(Events, t))) + TargetMail(s, Seq(s.lists, Local(Events, t)))
    case PopWaking(t) => FirstTwo(Seq(s.lists, Local(Events, t))) + TargetMail(s, Seq(s.lists, Local(Events, t)))
    case Answer(t) =>
      (var m := Get(s.pc, t, Idle);
       if m.Answering? then
         [m.e] + if m.e.Owner().Some? then LastOf(Seq(s.lists, Queue(Finished, m.e.Owner().value.home))) else []
       else [])
    case _ => []
  }

  function TargetMail(s: State, q: seq<Event>): seq<Event> {
    if q != [] && q[0].Message? then LastOf(Seq(s.lists, Mailbox(q[0].dst))) else []
  }

  /** A record that is on a list, in someone's hand, or about to be returned from is live. */
  lemma InFlightLive(s: State, e: Event)
    requires Placed(s.place, s.stored) && Owned(s.place, s.mode) && e in s.place && s.place[e] != Done &&
             s.place[e] != Freed
    ensures Live(s, e)
  {
  }

  lemma ListedLive(s: State, p: Place)
    requires Linked(s.lists, s.place) && Placed(s.place, s.stored) && Owned(s.place, s.mode)
    ensures forall e :: e in Seq(s.lists, p) ==> Live(s, e)
  {
    forall e | e in Seq(s.lists, p) ensures Live(s, e) {
      assert s.place[e] == p && p.IsList();
      InFlightLive(s, e);
    }
  }

  lemma WokenLive(s: State, f: Fiber)
    requires Owned(s.place, s.mode) && Get(s.mode, f, Ready).Woken?
    ensures Live(s, Get(s.mode, f, Ready).op)
  {
  }

  lemma HandLive(s: State)
    requires InHand(s.place, s.wkr, s.pc, s.stored) && Placed(s.place, s.stored) && Owned(s.place, s.mode)
    ensures forall w :: w in s.wkr && s.wkr[w] != Free ==> Live(s, s.wkr[w].e)
    ensures forall t :: t in s.pc && s.pc[t].Answering? ==> Live(s, s.pc[t].e)
    ensures forall f, e :: e in s.place && s.place[e] == Held(f) ==> Live(s, e)
  {
    forall e | e in s.place && s.place[e] != Done && s.place[e] != Freed ensures Live(s, e) { InFlightLive(s, e); }
  }

  /** No step of any run touches a record whose owner has returned or which has been freed. */
  lemma NoDeadRecordTouched(s: State, st: Step, e: Event)
    requires Reachable(s) && Enabled(s, st) && e in Touched(s, st)
    ensures Live(s, e)
  {
    ReachableKeeps(s);
    hide Inv, Enabled, Touched, Live;
    if ByFiber(st) { TouchedByFiberLive(s, st, e); } else { TouchedElsewhereLive(s, st, e); }
  }

  lemma TouchedByFiberLive(s: State, st: Step, e: Event)
    requires Inv(s) && Enabled(s, st) && ByFiber(st) && e in Touched(s, st)
    ensures Live(s, e)
  {
    hide Linked, Placed, InHand, Owned, Scheduled, LocalsOf, Signalled, MailSeen, SemCounted, WorkersPaid, Staffed,
         Live;
    forall p { ListedLive(s, p); }
    HandLive(s);
    if st.Return? { WokenLive(s, st.f); }
  }

  lemma TouchedElsewhereLive(s: State, st: Step, e: Event)
    requires Inv(s) && Enabled(s, st) && !ByFiber(st) && e in Touched(s, st)
    ensures Live(s, e)
  {
    hide Linked, Placed, InHand, Owned, Scheduled, LocalsOf, Signalled, MailSeen, SemCounted, WorkersPaid, Staffed,
         Live;
    forall p { ListedLive(s, p); }
    HandLive(s);
  }

  /** Every record on any list belongs to a call that has not returned; one on a poller's drained list of
      finished operations belongs to a fiber that has already suspended. */
  lemma LinkedRecordsLive(s: State, p: Place, e: Event)
    requires Reachable(s) && e in Seq(s.lists, p)
    ensures Live(s, e)
    ensures p.Local? && p.ch == Finished ==> e.Owner().Some? && Get(s.mode, e.Owner().value, Ready) == Waiting(e)
  {
    hide Scheduled, LocalsOf, InHand, Signalled, MailSeen, SemCounted, WorkersPaid, Staffed;
    ReachableKeeps(s);
    ListedLive(s, p);
    assert s.place[e] == p && PlaceOk(e, p, s.stored);
  }

  // ---------------------------------------------------------------------------------------------
  // wakeups

  /** The eventfd read finds a positive counter, so its assertion on the byte count cannot fail. */
  lemma ReadNeverFails(s: State, t: Tid, ch: Channel)
    requires Reachable(s) && Enabled(s, ReadCount(t, ch))
    ensures Get(s.count, Signal(ch, t), 0) > 0
  {
    hide Scheduled, Linked, LocalsOf, Placed, InHand, Owned, MailSeen, SemCounted, WorkersPaid, Staffed;
    ReachableKeeps(s);
  }

  /** Once no producer owes a write, a poller that waits with a zero counter has an empty queue. */
  lemma NoLostWakeup(s: State, t: Tid, ch: Channel)
    requires Reachable(s) && !Owing(s.owes, Signal(ch, t))
    requires Get(s.pc, t, Idle) != HasRead(ch) && Get(s.count, Signal(ch, t), 0) == 0
    ensures Seq(s.lists, Queue(ch, t)) == []
  {
    hide Scheduled, Linked, LocalsOf, Placed, InHand, Owned, MailSeen, SemCounted, WorkersPaid, Staffed;
    ReachableKeeps(s);
  }

  /** A worker that acquired the semaphore finds an operation, so its assertion on the popped event holds. */
  lemma WorkerFindsWork(s: State, w: Wid)
    requires Reachable(s) && w in s.tokens
    ensures Seq(s.lists, WorkQueue) != [] && Enabled(s, PopWork(w))
  {
    hide Scheduled, Linked, LocalsOf, Placed, InHand, Owned, Signalled, MailSeen, WorkersPaid, Staffed;
    ReachableKeeps(s);
    assert s.tokens != {};
  }

  /** A fiber suspended for its mailbox has an empty one: whoever fills it resumes the fiber at once. */
  lemma ReceiverNotStranded(s: State, f: Fiber)
    requires Reachable(s) && Seq(s.lists, Mailbox(f)) != []
    ensures Get(s.mode, f, Ready) != Receiving
  {
    hide Scheduled, Linked, LocalsOf, Placed, InHand, Owned, Signalled, SemCounted, WorkersPaid, Staffed;
    ReachableKeeps(s);
  }

  /** A poller never finds a fiber of its thread between submitting and suspending: the fiber that will be
      resumed for a finished operation is suspended in it. */
  lemma ResumedWhileSuspended(s: State, t: Tid)
    requires Reachable(s) && Enabled(s, PopFinished(t))
    ensures var e := Seq(s.lists, Local(Finished, t))[0];
            e.Owner().value.home == t && Get(s.mode, e.Owner().value, Ready) == Waiting(e) && Answered(s.stored, e)
  {
    hide Scheduled, LocalsOf, InHand, Signalled, MailSeen, SemCounted, WorkersPaid, Staffed;
    ReachableKeeps(s);
    var e := Seq(s.lists, Local(Finished, t))[0];
    assert s.place[e] == Local(Finished, t) && PlaceOk(e, Local(Finished, t), s.stored);
  }
}
