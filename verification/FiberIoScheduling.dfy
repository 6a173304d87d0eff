/** Who runs: what resumes a fiber runs it at once, a blocked fiber stays so until it has mail, and nobody who has
    something to do is stuck. */
module FiberIoScheduling {
  import opened Basics
  import opened FiberIo
  import opened FiberIoInvariant
  import opened FiberIoRuns
  import opened FiberIoCompletion
  import opened FiberIoStations
  import opened FiberIoHistory

  predicate Asleep(s: State, f: Fiber) {
    Suspended(Get(s.mode, f, Ready))
  }

  /** The step gives the scheduler's choice of who runs next on `t`. */
  function Chosen(st: Step, t: Tid): Option<Current> {
    match st
    case Suspend(f, next) => if f.home == t then Some(next) else None
    case Yield(f, next) => if f.home == t then Some(next) else None
    case Block(f, next) => if f.home == t then Some(next) else None
    case RunFiber(u, f) => if u == t then Some(Run(f)) else None
    case _ => None
  }

  /** The fiber that the step resumes. */
  function Resumed(s: State, st: Step): Option<Fiber>
    requires Enabled(s, st)
  {
    match st
    case SendWaking(f, e) => Some(e.dst)
    case FinishHere(f, e) => e.Owner()
    case PopFinished(t) => Seq(s.lists, Local(Finished, t))[0].Owner()
    case PopWaking(t) => Some(Seq(s.lists, Local(Events, t))[0].dst)
    case _ => None
  }

  /** Who runs on each thread after the step, and which fiber wakes up by it. */
  ghost predicate Schedules(s: State, st: Step, s': State) {
    && Enabled(s, st)
    && (forall t :: Get(s'.cur, t, Main) ==
          if Resumed(s, st).Some? && Resumed(s, st).value.home == t then Run(Resumed(s, st).value)
          else if Chosen(st, t).Some? then Chosen(st, t).value
          else Get(s.cur, t, Main))
    && (forall f :: Asleep(s, f) && !Asleep(s', f) <==> Resumed(s, st) == Some(f))
  }

  lemma FiberChooses(s: State, st: Step, s': State)
    requires Enabled(s, st) && (st.Suspend? || st.Yield? || st.Block?) && s' == ApplyFiber(s, st)
    ensures Schedules(s, st, s')
  {
  }

  /** The fiber enters or leaves a call, and goes on running. */
  predicate Calls(st: Step) {
    st.SubmitFile? || st.SendRemote? || st.SendLocal? || st.RequestTask? || st.Return?
  }

  lemma FiberCalls(s: State, st: Step, s': State)
    requires Enabled(s, st) && Calls(st) && s' == ApplyFiber(s, st)
    ensures s'.cur == s.cur && (forall f :: Asleep(s', f) <==> Asleep(s, f))
  {
    hide Put;
  }

  lemma FiberKeepsOn(s: State, st: Step, s': State)
    requires Enabled(s, st) && ByFiber(st) && !Calls(st) && s' == ApplyFiber(s, st)
    requires !st.Suspend? && !st.Yield? && !st.Block? && !st.SendWaking? && !st.FinishHere?
    ensures s'.cur == s.cur && s'.mode == s.mode
  {
  }

  lemma FiberSendsWaking(s: State, st: Step, s': State)
    requires Scheduled(s.cur, s.mode, s.semOwers, s.owes) && Enabled(s, st) && st.SendWaking? && s' == ApplyFiber(s, st)
    ensures Schedules(s, st, s')
  {
  }

  lemma FiberFinishes(s: State, st: Step, s': State)
    requires Owned(s.place, s.mode) && Scheduled(s.cur, s.mode, s.semOwers, s.owes)
    requires Enabled(s, st) && st.FinishHere? && s' == ApplyFiber(s, st)
    ensures Schedules(s, st, s')
  {
    var g := st.e.Owner().value;
    assert Inside(Get(s.mode, g, Ready), st.e);
    assert Asleep(s, g);
  }

  lemma WorkerKeepsOn(s: State, st: Step, s': State)
    requires Enabled(s, st) && ByWorker(st) && s' == ApplyWorker(s, st)
    ensures s'.cur == s.cur && s'.mode == s.mode
  {
  }

  lemma PollerKeepsOn(s: State, st: Step, s': State)
    requires Enabled(s, st) && !ByFiber(st) && !ByWorker(st) && s' == ApplyPoller(s, st)
    requires !st.RunFiber? && !st.PopFinished? && !st.PopWaking?
    ensures s'.cur == s.cur && s'.mode == s.mode
  {
  }

  lemma PollerChooses(s: State, st: Step, s': State)
    requires Enabled(s, st) && st.RunFiber? && s' == ApplyPoller(s, st)
    ensures Schedules(s, st, s')
  {
  }

  lemma PollerResumes(s: State, st: Step, s': State)
    requires ListsKnown(s) && Owned(s.place, s.mode) && Enabled(s, st) && st.PopFinished? && s' == ApplyPoller(s, st)
    ensures Schedules(s, st, s')
  {
    var e := Seq(s.lists, Local(Finished, st.t))[0];
    assert e in s.place && s.place[e] == Local(Finished, st.t);
    assert Asleep(s, e.Owner().value);
  }

  lemma PollerWakes(s: State, st: Step, s': State)
    requires Enabled(s, st) && st.PopWaking? && s' == ApplyPoller(s, st)
    ensures Schedules(s, st, s')
  {
  }

  lemma NobodyWakes(s: State, st: Step, s': State)
    requires Enabled(s, st) && Resumed(s, st) == None && (forall t :: Chosen(st, t) == None)
    requires s'.cur == s.cur && (forall f :: Asleep(s', f) <==> Asleep(s, f))
    ensures Schedules(s, st, s')
  {
  }

  lemma StepSchedules(s: State, st: Step)
    requires Inv(s) && Enabled(s, st)
    ensures Schedules(s, st, Apply(s, st))
  {
    hide Enabled, ApplyFiber, ApplyWorker, ApplyPoller, Schedules, ListsKnown, HandsKnown, OwnersKnown,
         Scheduled, Owned;
    KnowAll(s);
    hide Inv;
    var s' := Apply(s, st);
    if st.Suspend? || st.Yield? || st.Block? { FiberChooses(s, st, s'); }
    else if st.SendWaking? { FiberSendsWaking(s, st, s'); }
    else if st.FinishHere? { FiberFinishes(s, st, s'); }
    else if st.RunFiber? { PollerChooses(s, st, s'); }
    else if st.PopFinished? { PollerResumes(s, st, s'); }
    else if st.PopWaking? { PollerWakes(s, st, s'); }
    else {
      if Calls(st) { FiberCalls(s, st, s'); }
      else if ByFiber(st) { FiberKeepsOn(s, st, s'); }
      else if ByWorker(st) { WorkerKeepsOn(s, st, s'); }
      else { PollerKeepsOn(s, st, s'); }
      NobodyWakes(s, st, s');
    }
  }

  /** A fiber that a step resumes runs at once on its own thread, and a step resumes no second one. */
  lemma ResumedRuns(s: State, st: Step, f: Fiber)
    requires Inv(s) && Enabled(s, st) && Asleep(s, f) && !Asleep(Apply(s, st), f)
    ensures Get(Apply(s, st).cur, f.home, Main) == Run(f)
    ensures forall g :: Asleep(s, g) && !Asleep(Apply(s, st), g) ==> g == f
  {
    hide Enabled, Apply, Inv, Asleep;
    StepSchedules(s, st);
  }

  // ---------------------------------------------------------------------------------------------
  // waiting for mail

  predicate Receives(s: State, f: Fiber) {
    Get(s.mode, f, Ready) == Receiving
  }

  ghost predicate Awaits(s: State, st: Step, s': State, f: Fiber) {
    && Enabled(s, st)
    && (Receives(s', f) <==> (st.Block? && st.f == f) || (Receives(s, f) && To(MoveOf(s, st)) != Some(Mailbox(f))))
  }

  lemma FiberSendsAwaits(s: State, st: Step, s': State, f: Fiber)
    requires Enabled(s, st) && (st.SendLocal? || st.SendWaking? || st.SendRemote?) && s' == ApplyFiber(s, st)
    ensures Awaits(s, st, s', f)
  {
  }

  lemma FiberCallsAwaits(s: State, st: Step, s': State, f: Fiber)
    requires Scheduled(s.cur, s.mode, s.semOwers, s.owes)
    requires Enabled(s, st) && (st.SubmitFile? || st.RequestTask? || st.Suspend? || st.Return? || st.Block?)
    requires s' == ApplyFiber(s, st)
    ensures Awaits(s, st, s', f)
  {
  }

  lemma FiberFinishAwaits(s: State, st: Step, s': State, f: Fiber)
    requires Owned(s.place, s.mode) && Enabled(s, st) && st.FinishHere? && s' == ApplyFiber(s, st)
    ensures Awaits(s, st, s', f)
  {
  }

  lemma FiberOtherAwaits(s: State, st: Step, s': State, f: Fiber)
    requires Enabled(s, st) && s' == Apply(s, st)
    requires st.ReleaseSem? || st.RequestExit? || st.Yield? || st.Receive? || st.FreeEvent? || st.FinishThere? ||
             st.Write?
    ensures Awaits(s, st, s', f)
  {
    hide ApplyWorker, ApplyPoller;
  }

  lemma WorkerAwaits(s: State, st: Step, s': State, f: Fiber)
    requires Enabled(s, st) && ByWorker(st) && s' == ApplyWorker(s, st)
    ensures Awaits(s, st, s', f)
  {
  }

  lemma PopFinishedAwaits(s: State, st: Step, s': State, f: Fiber)
    requires ListsKnown(s) && Owned(s.place, s.mode) && Enabled(s, st) && st.PopFinished? && s' == ApplyPoller(s, st)
    ensures Awaits(s, st, s', f)
  {
    hide Drop;
  }

  lemma PopMessageAwaits(s: State, st: Step, s': State, f: Fiber)
    requires Enabled(s, st) && st.PopMessage? && s' == ApplyPoller(s, st)
    ensures Awaits(s, st, s', f)
  {
    hide Drop, Put;
  }

  lemma PopWakingAwaits(s: State, st: Step, s': State, f: Fiber)
    requires Enabled(s, st) && st.PopWaking? && s' == ApplyPoller(s, st)
    ensures Awaits(s, st, s', f)
  {
    hide Drop, Put;
  }

  lemma PollerAwaits(s: State, st: Step, s': State, f: Fiber)
    requires Enabled(s, st) && !ByFiber(st) && !ByWorker(st) && s' == ApplyPoller(s, st)
    requires !st.PopFinished? && !st.PopMessage? && !st.PopWaking?
    ensures Awaits(s, st, s', f)
  {
  }

  /** A fiber waits for its mailbox from the step that blocks it to the step that gives it a message, and no other
      step makes it wait or stop waiting. */
  lemma BlocksUntilMail(s: State, st: Step, f: Fiber)
    requires Inv(s) && Enabled(s, st)
    ensures var s' := Apply(s, st);
            Receives(s', f) <==>
              (st.Block? && st.f == f) || (Receives(s, f) && GivenBy(s, st, s', Mailbox(f)) == [])
  {
    hide Enabled, ApplyFiber, ApplyWorker, ApplyPoller, ListsKnown, HandsKnown, OwnersKnown, Scheduled, Owned, MoveOf,
         Moved, FromHead, Relisted, OnItsWay, Handed, From, To, GivenBy, TakenBy, Awaits;
    KnowAll(s);
    var s' := Apply(s, st);
    if ByFiber(st) {
      if st.SendLocal? || st.SendWaking? || st.SendRemote? { FiberSendsAwaits(s, st, s', f); }
      else if st.SubmitFile? || st.RequestTask? || st.Suspend? || st.Return? || st.Block? {
        FiberCallsAwaits(s, st, s', f);
      }
      else if st.FinishHere? { FiberFinishAwaits(s, st, s', f); }
      else { FiberOtherAwaits(s, st, s', f); }
    }
    else if ByWorker(st) { WorkerAwaits(s, st, s', f); }
    else if st.PopFinished? { PopFinishedAwaits(s, st, s', f); }
    else if st.PopMessage? { PopMessageAwaits(s, st, s', f); }
    else if st.PopWaking? { PopWakingAwaits(s, st, s', f); }
    else { PollerAwaits(s, st, s', f); }
    GivenMail(s, st, f);
    AwaitsMail(s, st, s', f);
  }

  lemma AwaitsMail(s: State, st: Step, s': State, f: Fiber)
    requires Awaits(s, st, s', f)
    ensures Enabled(s, st)
    ensures Receives(s', f) <==> (st.Block? && st.f == f) || (Receives(s, f) && To(MoveOf(s, st)) != Some(Mailbox(f)))
  {
  }

  lemma GivenMail(s: State, st: Step, f: Fiber)
    requires Inv(s) && Enabled(s, st)
    ensures GivenBy(s, st, Apply(s, st), Mailbox(f)) == [] <==> To(MoveOf(s, st)) != Some(Mailbox(f))
  {
    if !st.MoveAll? {
      hide Inv, Enabled, Apply, MoveOf, Moved, FromHead, Relisted, OnItsWay, Handed, From, To, GivenBy, TakenBy;
      StepMoves(s, st);
      MoveTakes(s, st, Apply(s, st), MoveOf(s, st), Mailbox(f));
    }
  }

  // ---------------------------------------------------------------------------------------------
  // nobody is stuck

  /** A fiber that runs can always go on: it finishes its push, leaves to the scheduler, or returns. */
  lemma FiberGoesOn(s: State, f: Fiber)
    requires Inv(s) && Get(s.cur, f.home, Main) == Run(f)
    ensures Enabled(s, ReleaseSem(f)) || Enabled(s, Write(OfFiber(f))) || Enabled(s, Suspend(f, Main)) ||
            Enabled(s, Return(f)) || Enabled(s, Yield(f, Main))
  {
    hide Linked, LocalsOf, Placed, InHand, Owned, Signalled, MailSeen, SemCounted, WorkersPaid, Staffed;
    assert !Suspended(Get(s.mode, f, Ready));
  }

  /** The steps of a poller. */
  predicate OfPollerStep(st: Step, t: Tid) {
    match st
    case Write(a) => a == OfPoller(t)
    case RunFiber(u, _) => u == t
    case Fetch(u, _) => u == t
    case ReadCount(u, _) => u == t
    case MoveAll(u, _) => u == t
    case EndDrain(u, _) => u == t
    case PopFinished(u) => u == t
    case PopExit(u) => u == t
    case PopTask(u) => u == t
    case PopMessage(u) => u == t
    case PopWaking(u) => u == t
    case Answer(u) => u == t
    case _ => false
  }

  /** A poller that waits and has nothing to fetch and no fiber to run. */
  ghost predicate NothingToDo(s: State, t: Tid) {
    && Get(s.pc, t, Idle) == Idle && OfPoller(t) !in s.owes
    && (forall ch :: Get(s.count, Signal(ch, t), 0) == 0)
    && (forall f: Fiber :: f.home == t ==> Get(s.mode, f, Ready) != Ready)
  }

  /** While no fiber runs on its thread, a poller has a step exactly unless it has exited or has nothing to do. */
  lemma PollerGoesOn(s: State, t: Tid)
    requires Inv(s) && Get(s.cur, t, Main) == Main
    ensures (exists st :: OfPollerStep(st, t) && Enabled(s, st)) <==>
            OfPoller(t) in s.owes || (Get(s.pc, t, Idle) != Exited && !NothingToDo(s, t))
  {
    if OfPoller(t) in s.owes {
      assert OfPollerStep(Write(OfPoller(t)), t) && Enabled(s, Write(OfPoller(t)));
    } else if Get(s.pc, t, Idle) == Exited {
      hide Inv;
      assert forall st :: OfPollerStep(st, t) ==> !Enabled(s, st);
    } else if NothingToDo(s, t) {
      hide Inv;
      assert forall st :: OfPollerStep(st, t) ==> !Enabled(s, st);
    } else {
      KnowAll(s);
      hide Inv;
      var st := PollerStep(s, t);
    }
  }

  lemma PollerStep(s: State, t: Tid) returns (st: Step)
    requires ListsKnown(s) && HandsKnown(s) && Placed(s.place, s.stored)
    requires Get(s.cur, t, Main) == Main && OfPoller(t) !in s.owes && Get(s.pc, t, Idle) != Exited && !NothingToDo(s, t)
    ensures OfPollerStep(st, t) && Enabled(s, st)
  {
    match Get(s.pc, t, Idle) {
      case Idle =>
        if ch :| Get(s.count, Signal(ch, t), 0) != 0 {
          st := Fetch(t, ch);
        } else {
          var f: Fiber :| f.home == t && Get(s.mode, f, Ready) == Ready;
          st := RunFiber(t, f);
        }
      case Fetched(ch) => st := ReadCount(t, ch);
      case HasRead(ch) => st := MoveAll(t, ch);
      case Draining(ch) => st := DrainStep(s, t, ch);
      case Answering(e) => st := Answer(t);
    }
  }

  lemma DrainStep(s: State, t: Tid, ch: Channel) returns (st: Step)
    requires ListsKnown(s) && Placed(s.place, s.stored)
    requires Get(s.cur, t, Main) == Main && OfPoller(t) !in s.owes && Get(s.pc, t, Idle) == Draining(ch)
    ensures OfPollerStep(st, t) && Enabled(s, st)
  {
    var q := Seq(s.lists, Local(ch, t));
    if q == [] { return EndDrain(t, ch); }
    var e := q[0];
    assert e in s.place && s.place[e] == Local(ch, t) && PlaceOk(e, Local(ch, t), s.stored);
    if ch == Finished { return PopFinished(t); }
    match e {
      case ExitRequest(_, _) => st := PopExit(t);
      case TaskRequest(_, _, _) => st := PopTask(t);
      case Message(_, _, f, _) => st := if Receives(s, f) then PopWaking(t) else PopMessage(t);
    }
  }

  /** A worker always has a step, unless it waits at a semaphore that is zero. */
  lemma WorkerGoesOn(s: State, w: Wid)
    requires Inv(s) && w < s.workers
    ensures Enabled(s, Write(OfWorker(w))) || Enabled(s, PopWork(w)) || Enabled(s, Handle(w)) ||
            Enabled(s, FinishWork(w)) || Enabled(s, Acquire(w)) || s.sem == 0
  {
    hide Enabled;
    KnowAll(s);
    TokensFree(s, w);
    hide Inv;
    if OfWorker(w) in s.owes { WorkerWrites(s, w); }
    else if w in s.tokens { WorkerPops(s, w); }
    else if Get(s.wkr, w, Free) == Free { WorkerAcquires(s, w); }
    else { WorkerWorks(s, w); }
  }

  lemma TokensFree(s: State, w: Wid)
    requires Inv(s)
    ensures Placed(s.place, s.stored) && (w in s.tokens ==> Seq(s.lists, WorkQueue) != [])
  {
    hide Linked, LocalsOf, Scheduled, Owned, Signalled, MailSeen, WorkersPaid, Staffed, InHand, Placed;
    if w in s.tokens { assert s.tokens != {}; }
  }

  lemma WorkerWrites(s: State, w: Wid)
    requires OfWorker(w) in s.owes
    ensures Enabled(s, Write(OfWorker(w)))
  {
  }

  lemma WorkerPops(s: State, w: Wid)
    requires w in s.tokens && Seq(s.lists, WorkQueue) != []
    ensures Enabled(s, PopWork(w))
  {
  }

  lemma WorkerAcquires(s: State, w: Wid)
    requires w < s.workers && Get(s.wkr, w, Free) == Free && w !in s.tokens && OfWorker(w) !in s.owes
    ensures Enabled(s, Acquire(w)) <==> s.sem > 0
  {
  }

  lemma WorkerWorks(s: State, w: Wid)
    requires HandsKnown(s) && Placed(s.place, s.stored) && Get(s.wkr, w, Free) != Free
    ensures Enabled(s, Handle(w)) || Enabled(s, FinishWork(w))
  {
    var e := s.wkr[w].e;
    assert PlaceOk(e, s.place[e], s.stored);
  }
}
