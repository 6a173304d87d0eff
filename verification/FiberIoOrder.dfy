/** In which order messages arrive, and what a poller dispatches before it exits, over whole runs. */
module FiberIoOrder {
  import opened Basics
  import opened FiberIo
  import opened FiberIoInvariant
  import opened FiberIoRuns
  import opened FiberIoCompletion
  import opened FiberIoStations
  import opened FiberIoHistory

  // ---------------------------------------------------------------------------------------------
  // messages

  /** The messages from other threads to `f` among `q`, in order. */
  function AddressedTo(q: seq<Event>, f: Fiber): (r: seq<Event>)
    ensures forall e :: e in r <==> e in q && e.CrossesThreads() && e.dst == f
  {
    if q == [] then []
    else
      var e := q[|q| - 1];
      AddressedTo(q[..|q| - 1], f) + if e.CrossesThreads() && e.dst == f then [e] else []
  }

  lemma {:induction false} AddressedToPush(q: seq<Event>, e: Event, f: Fiber)
    ensures AddressedTo(q + [e], f) == AddressedTo(q, f) + if e.CrossesThreads() && e.dst == f then [e] else []
  {
    assert (q + [e])[..|q|] == q;
  }

  lemma AddressedToNone(f: Fiber)
    ensures AddressedTo([], f) == []
  {
  }

  lemma {:induction false} AddressedToAppend(a: seq<Event>, b: seq<Event>, f: Fiber)
    ensures AddressedTo(a + b, f) == AddressedTo(a, f) + AddressedTo(b, f)
  {
    hide AddressedTo;
    if b == [] {
      assert a + b == a;
      AddressedToNone(f);
    } else {
      var b', e := b[..|b| - 1], b[|b| - 1];
      assert b == b' + [e] && a + b == (a + b') + [e];
      AddressedToAppend(a, b', f);
      AddressedToPush(a + b', e, f);
      AddressedToPush(b', e, f);
    }
  }

  /** A message from another thread goes to its mailbox exactly from the local list of the fiber's poller. */
  lemma LocalToMailbox(s: State, st: Step, m: Move, f: Fiber)
    requires OnItsWay(s, m) && Handed(s, st, m) && m.Move? && m.e.CrossesThreads() && m.e.dst == f
    ensures From(s.place, m) == Some(Local(Events, f.home)) <==> To(m) == Some(Mailbox(f))
  {
  }

  /** What a step gives to a mailbox from other threads is what it takes off the poller's local list for it. */
  lemma MailFromLocal(s: State, st: Step, f: Fiber)
    requires Inv(s) && Enabled(s, st)
    ensures var s' := Apply(s, st);
            AddressedTo(GivenBy(s, st, s', Mailbox(f)), f) ==
              AddressedTo(TakenBy(s, st, s', Local(Events, f.home)), f)
  {
    if !st.MoveAll? {
      hide Inv, Enabled, Apply, MoveOf, Moved, FromHead, Relisted, TakenBy, GivenBy, HandsTo, OnItsWay,
           Handed, From, To, AddressedTo;
      StepMoves(s, st);
      var m := MoveOf(s, st);
      MoveTakes(s, st, Apply(s, st), m, Mailbox(f));
      MoveTakes(s, st, Apply(s, st), m, Local(Events, f.home));
      AddressedToNone(f);
      if m.Move? {
        AddressedToPush([], m.e, f);
        assert [] + [m.e] == [m.e];
        if m.e.CrossesThreads() && m.e.dst == f { LocalToMailbox(s, st, m, f); }
      }
    }
  }

  lemma {:induction false} MailTaken(pool: Pool, steps: seq<Step>, f: Fiber)
    requires After(pool, steps).Some?
    ensures AddressedTo(Given(pool, steps, Mailbox(f)), f) == AddressedTo(Taken(pool, steps, Local(Events, f.home)), f)
  {
    hide Inv, Enabled, Apply, TakenBy, GivenBy, AddressedTo;
    if steps != [] {
      var before, st := steps[..|steps| - 1], steps[|steps| - 1];
      var s, s' := After(pool, before).value, After(pool, steps).value;
      MailTaken(pool, before, f);
      RunKeeps(pool, before);
      MailFromLocal(s, st, f);
      AddressedToAppend(Given(pool, before, Mailbox(f)), GivenBy(s, st, s', Mailbox(f)), f);
      AddressedToAppend(Taken(pool, before, Local(Events, f.home)), TakenBy(s, st, s', Local(Events, f.home)), f);
    }
  }

  /** Of the messages that other threads queued for `f`, in the order in which they did, those that reached its
      mailbox are the first, the poller's drained list holds the next ones and its queue the rest. */
  lemma MessagesArriveInOrder(pool: Pool, steps: seq<Step>, f: Fiber)
    requires After(pool, steps).Some?
    ensures var lists := After(pool, steps).value.lists;
            AddressedTo(Given(pool, steps, Queue(Events, f.home)), f) ==
              AddressedTo(Given(pool, steps, Mailbox(f)), f) + AddressedTo(Seq(lists, Local(Events, f.home)), f)
              + AddressedTo(Seq(lists, Queue(Events, f.home)), f)
  {
    hide AddressedTo;
    var lists, t := After(pool, steps).value.lists, f.home;
    PollerInOrder(pool, steps, Events, t);
    MailTaken(pool, steps, f);
    var taken := Taken(pool, steps, Local(Events, t));
    AddressedToAppend(taken, Seq(lists, Local(Events, t)), f);
    AddressedToAppend(taken + Seq(lists, Local(Events, t)), Seq(lists, Queue(Events, t)), f);
  }

  // ---------------------------------------------------------------------------------------------
  // exit

  predicate HasExited(s: State, t: Tid) {
    Get(s.pc, t, Idle) == Exited
  }

  /** A poller dispatches an event only if it has not exited, and exits exactly by an exit event. */
  ghost predicate ExitsBy(s: State, s': State, t: Tid, out: seq<Event>) {
    && (out == [] ==> (HasExited(s', t) <==> HasExited(s, t)))
    && (out != [] ==> |out| == 1 && !HasExited(s, t) && (HasExited(s', t) <==> out[0].ExitRequest?))
  }

  lemma HandKeepsPc(s: State, st: Step, s': State)
    requires Enabled(s, st) && ByFiber(st) && !NoHand(st) && s' == ApplyFiber(s, st)
    ensures s'.pc == s.pc
  {
    hide Put;
  }

  lemma FiberKeepsPc(s: State, st: Step, s': State)
    requires Enabled(s, st) && ByFiber(st) && NoHand(st) && s' == ApplyFiber(s, st)
    ensures s'.pc == s.pc
  {
    hide Put, Drop;
  }

  lemma WorkerKeepsPc(s: State, st: Step, s': State)
    requires Enabled(s, st) && ByWorker(st) && s' == ApplyWorker(s, st)
    ensures s'.pc == s.pc
  {
  }

  /** Only a poller that dispatches takes a record off its local list. */
  predicate Dispatches(st: Step, t: Tid) {
    (st.PopExit? || st.PopTask? || st.PopMessage? || st.PopWaking?) && st.t == t
  }

  /** Where the moved record goes shows who moved it. */
  lemma FromLocal(s: State, st: Step, t: Tid)
    requires ListsKnown(s) && Enabled(s, st) && OnItsWay(s, MoveOf(s, st))
    ensures From(s.place, MoveOf(s, st)) == Some(Local(Events, t)) ==> Dispatches(st, t)
  {
    var m := MoveOf(s, st);
    if From(s.place, m) == Some(Local(Events, t)) {
      assert m.to.Mailbox? || m.to == AtPoller(t) || m.to == Freed;
    }
  }

  /** Where a poller is after it has dispatched `e`. */
  function Afterwards(e: Event): Poller {
    match e case ExitRequest(_, _) => Exited case TaskRequest(_, _, _) => Answering(e) case _ => Draining(Events)
  }

  /** A poller that drains its events handles the first and goes on. */
  ghost predicate Dispatched(s: State, s': State, u: Tid) {
    && Seq(s.lists, Local(Events, u)) != [] && Get(s.pc, u, Idle) == Draining(Events)
    && s'.pc == s.pc[u := Afterwards(Seq(s.lists, Local(Events, u))[0])]
  }

  lemma ExitDispatched(s: State, st: Step, s': State)
    requires Enabled(s, st) && st.PopExit? && s' == ApplyPoller(s, st)
    ensures Dispatched(s, s', st.t)
  {
    hide Drop, Put;
  }

  lemma TaskDispatched(s: State, st: Step, s': State)
    requires Enabled(s, st) && st.PopTask? && s' == ApplyPoller(s, st)
    ensures Dispatched(s, s', st.t)
  {
    hide Drop, Put;
  }

  lemma MailDispatched(s: State, st: Step, s': State)
    requires Enabled(s, st) && (st.PopMessage? || st.PopWaking?) && s' == ApplyPoller(s, st)
    ensures Dispatched(s, s', st.t)
  {
    hide Drop, Put;
    assert s'.pc == s.pc && s.pc[st.t := s.pc[st.t]] == s.pc;
  }

  lemma DispatchExits(s: State, s': State, u: Tid, t: Tid)
    requires Dispatched(s, s', u)
    ensures ExitsBy(s, s', t, if t == u then [Seq(s.lists, Local(Events, u))[0]] else [])
  {
  }

  lemma PollerTakes(s: State, st: Step, u: Tid)
    requires ListsKnown(s) && Enabled(s, st) && Dispatches(st, u) && Seq(s.lists, Local(Events, u)) != []
    ensures From(s.place, MoveOf(s, st)) == Some(Local(Events, u))
    ensures MoveOf(s, st).Move? && MoveOf(s, st).e == Seq(s.lists, Local(Events, u))[0]
  {
    hide Enabled;
  }

  lemma PollerExitsNone(s: State, st: Step, s': State, t: Tid)
    requires Enabled(s, st) && !ByFiber(st) && !ByWorker(st) && s' == ApplyPoller(s, st)
    requires !st.PopExit? && !st.PopTask? && !st.PopMessage? && !st.PopWaking?
    ensures ExitsBy(s, s', t, [])
  {
  }

  lemma MoveAllExitsNone(s: State, st: Step, s': State, t: Tid)
    requires Enabled(s, st) && st.MoveAll? && s' == ApplyPoller(s, st)
    ensures ExitsBy(s, s', t, TakenBy(s, st, s', Local(Events, t)))
  {
  }

  lemma StepExits(s: State, st: Step, t: Tid)
    requires Inv(s) && Enabled(s, st)
    ensures ExitsBy(s, Apply(s, st), t, TakenBy(s, st, Apply(s, st), Local(Events, t)))
  {
    hide Enabled, ApplyFiber, ApplyWorker, ApplyPoller, MoveOf, Moved, FromHead, Relisted, TakenBy, GivenBy, HandsTo,
         OnItsWay, Handed, From, To, ListsKnown, HandsKnown, OwnersKnown, ExitsBy, Dispatched;
    var s' := Apply(s, st);
    if st.MoveAll? {
      MoveAllExitsNone(s, st, s', t);
    } else {
      KnowAll(s);
      StepMoves(s, st);
      hide Inv;
      MoveTakes(s, st, s', MoveOf(s, st), Local(Events, t));
      FromLocal(s, st, t);
      if ByFiber(st) {
        if NoHand(st) { FiberKeepsPc(s, st, s'); } else { HandKeepsPc(s, st, s'); }
        PcKept(s, s', t);
      }
      else if ByWorker(st) { WorkerKeepsPc(s, st, s'); PcKept(s, s', t); }
      else if st.PopExit? || st.PopTask? || st.PopMessage? || st.PopWaking? {
        StepDispatched(s, st, s');
        DispatchExits(s, s', st.t, t);
        PollerTakes(s, st, st.t);
      }
      else { PollerExitsNone(s, st, s', t); }
    }
  }

  lemma StepDispatched(s: State, st: Step, s': State)
    requires Enabled(s, st) && (st.PopExit? || st.PopTask? || st.PopMessage? || st.PopWaking?)
    requires s' == ApplyPoller(s, st)
    ensures Dispatched(s, s', st.t) && Seq(s.lists, Local(Events, st.t)) != []
  {
    hide Enabled, ApplyPoller;
    if st.PopExit? { ExitDispatched(s, st, s'); }
    else if st.PopTask? { TaskDispatched(s, st, s'); }
    else { MailDispatched(s, st, s'); }
  }

  lemma PcKept(s: State, s': State, t: Tid)
    requires s'.pc == s.pc
    ensures ExitsBy(s, s', t, [])
  {
  }

  lemma NotExitedYet(pool: Pool, t: Tid)
    ensures !HasExited(Init(pool), t)
  {
  }

  /** What a poller dispatched is what was queued for it, in order, up to the first exit event if it has exited,
      however it was split into drained batches; and it contains no exit event if it has not. */
  lemma {:induction false} ExitAfterPrefix(pool: Pool, steps: seq<Step>, t: Tid)
    requires After(pool, steps).Some?
    ensures var out, s := Taken(pool, steps, Local(Events, t)), After(pool, steps).value;
            && out <= Given(pool, steps, Queue(Events, t))
            && (HasExited(s, t) ==> out != [] && out[|out| - 1].ExitRequest?)
            && (forall i :: 0 <= i < |out| && out[i].ExitRequest? ==> i == |out| - 1 && HasExited(s, t))
  {
    hide Inv, Enabled, Apply, TakenBy, GivenBy, HasExited;
    PollerInOrder(pool, steps, Events, t);
    if steps == [] {
      NotExitedYet(pool, t);
    } else {
      var before, st := steps[..|steps| - 1], steps[|steps| - 1];
      ExitAfterPrefix(pool, before, t);
      RunKeeps(pool, before);
      StepExits(After(pool, before).value, st, t);
    }
  }
}
