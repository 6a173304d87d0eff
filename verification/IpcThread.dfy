/** How a thread's poller, its fibers and the kernel's registrations interact in each step of every run with batches
    of one. */
module IpcThread {
  import opened Basics
  import opened IpcRegistration
  import opened IpcCalls

  // ---------------------------------------------------------------------------------------------
  // fiber events from other threads

  /** The targets of the fiber events that fetched notices still hold, in order. */
  function Targets(batch: seq<Fetched>): seq<Fiber> {
    if batch == [] then []
    else (if batch[0].Notice? then batch[0].targets else []) + Targets(batch[1..])
  }

  /** The targets of the fiber events that a step fetches, and the one that it delivers. */
  function FetchedBy(st: Step): seq<Fiber> {
    if st.Fetch? && |st.sources| == 1 && st.sources[0].Queued? then st.sources[0].targets else []
  }

  function DeliveredBy(s: State, st: Step): seq<Fiber> {
    if st.Dispatch? && s.batch != [] && s.batch[0].Notice? && s.batch[0].targets != [] then [s.batch[0].targets[0]]
    else []
  }

  lemma BatchKept(s: State, st: Step)
    requires Enabled(1, s, st) && !st.Fetch? && !st.Dispatch?
    ensures Apply(1, s, st).batch == s.batch
  {
  }

  lemma TargetsFetched(s: State, st: Step)
    requires Inv(s) && Enabled(1, s, st) && st.Fetch?
    ensures Targets(Apply(1, s, st).batch) == FetchedBy(st) && s.batch == []
  {
    hide Inv;
    var batch := Apply(1, s, st).batch;
    assert |batch| == 1 && batch[1..] == [];
  }

  lemma WakeKeepsBatch(s: State, g: Fiber)
    ensures Wake(s, g).batch == s.batch
  {
  }

  lemma HandledKeepsBatch(s: State, op: Op, reply: Reply)
    ensures Handled(s, op, reply).batch == s.batch
  {
    hide Handler;
  }

  lemma BatchDispatched(s: State, st: Step)
    requires Enabled(1, s, st) && st.Dispatch?
    ensures Apply(1, s, st).batch ==
              if DeliveredBy(s, st) == [] then s.batch[1..] else [Notice(s.batch[0].targets[1..])] + s.batch[1..]
  {
    hide Wake, Handled;
    if HoldsRecord(s.batch) {
      HandledKeepsBatch(s.(batch := s.batch[1..]), s.batch[0].ptr.op, st.reply);
    } else if s.batch[0].Notice? && s.batch[0].targets != [] {
      var ts := s.batch[0].targets;
      WakeKeepsBatch(Mailed(s.(batch := [Notice(ts[1..])] + s.batch[1..]), ts[0]), ts[0]);
    }
  }

  lemma TargetsDispatched(s: State, st: Step)
    requires Inv(s) && Enabled(1, s, st) && st.Dispatch?
    ensures DeliveredBy(s, st) + Targets(Apply(1, s, st).batch) == Targets(s.batch)
  {
    hide Scheduled, Pointers, MailSeen, Delivered, Apply;
    BatchDispatched(s, st);
    assert s.batch[1..] == [];
    if DeliveredBy(s, st) != [] {
      var ts := s.batch[0].targets;
      assert [Notice(ts[1..])][1..] == [] && [ts[0]] + ts[1..] == ts;
    }
  }

  lemma TargetsFlow(s: State, st: Step)
    requires Inv(s) && Enabled(1, s, st)
    ensures DeliveredBy(s, st) + Targets(Apply(1, s, st).batch) == Targets(s.batch) + FetchedBy(st)
  {
    if st.Fetch? { TargetsFetched(s, st); }
    else if st.Dispatch? { TargetsDispatched(s, st); }
    else { BatchKept(s, st); }
  }

  ghost function AllDelivered(steps: seq<Step>): seq<Fiber>
    requires After(1, steps).Some?
  {
    if steps == [] then []
    else
      var before, st := steps[..|steps| - 1], steps[|steps| - 1];
      AllDelivered(before) + DeliveredBy(After(1, before).value, st)
  }

  function AllFetched(steps: seq<Step>): seq<Fiber> {
    if steps == [] then [] else AllFetched(steps[..|steps| - 1]) + FetchedBy(steps[|steps| - 1])
  }

  /** The fiber events that a poller fetches reach their fibers in order, and none is lost or doubled. */
  lemma {:induction false} NoticesInOrder(steps: seq<Step>)
    requires After(1, steps).Some?
    ensures AllDelivered(steps) + Targets(After(1, steps).value.batch) == AllFetched(steps)
  {
    if steps != [] {
      hide Inv, Enabled, Apply, FetchedBy, DeliveredBy, Targets;
      var before, st := steps[..|steps| - 1], steps[|steps| - 1];
      var s, t := After(1, before).value, After(1, steps).value;
      NoticesInOrder(before);
      RunKeeps(1, before);
      TargetsFlow(s, st);
      FlowsOn(AllDelivered(before), Targets(s.batch), AllFetched(before), DeliveredBy(s, st), Targets(t.batch),
              FetchedBy(st));
    }
  }

  // ---------------------------------------------------------------------------------------------
  // registrations

  /** What becomes of the registration of `k`. */
  function Registers(s: State, st: Step, k: Socket): Option<Registration> {
    match st
    case Open(x) => if x == k then Some(Registration(true, Null)) else None
    case Start(op, _) => if op.sock == k then Some(Registration(true, Record(op))) else None
    case Fetch(sources) =>
      if Armed(k) in sources && k in s.reg then Some(Registration(false, s.reg[k].ptr)) else None
    case Dispatch(reply) =>
      if HoldsRecord(s.batch) && s.batch[0].ptr.op.sock == k && Heard(s, st, s.batch[0].ptr.op) == None
      then Some(Registration(true, s.batch[0].ptr)) else None
    case Return(f) =>
      var m := ModeOf(s.mode, f);
      if m.Woken? && m.op.sock == k && m.op.kind.Receives() && !Get(s.fields, m.op, CLEAR).done
      then Some(Registration(true, Null)) else None
    case _ => None
  }

  lemma HandlerRetries(s: State, reply: Reply)
    requires HoldsRecord(s.batch)
    ensures var op := s.batch[0].ptr.op; Heard(s, Dispatch(reply), op) == None <==> Handler(op.kind, reply) == None
  {
  }

  lemma DispatchRegisters(s: State, st: Step, k: Socket)
    requires Enabled(1, s, st) && st.Dispatch?
    ensures var reg := Apply(1, s, st).reg;
            if Registers(s, st, k).Some? then k in reg && reg[k] == Registers(s, st, k).value
            else (k in reg <==> k in s.reg) && (k in reg ==> reg[k] == s.reg[k])
  {
    if HoldsRecord(s.batch) { HandlerRetries(s, st.reply); }
    hide Handler, Heard;
  }

  lemma ReturnRegisters(s: State, st: Step, k: Socket)
    requires Enabled(1, s, st) && st.Return?
    ensures var reg := Apply(1, s, st).reg;
            if Registers(s, st, k).Some? then k in reg && reg[k] == Registers(s, st, k).value
            else (k in reg <==> k in s.reg) && (k in reg ==> reg[k] == s.reg[k])
  {
  }

  /** A socket is armed when it is opened, when a call starts on it, when its event turned out to be none, and with the
      null event when a receiving call returns that its event never reached; it is disarmed when its event is
      fetched; and no other step changes its registration. */
  lemma ArmedAndDisarmed(s: State, st: Step, k: Socket)
    requires Enabled(1, s, st)
    ensures var reg := Apply(1, s, st).reg;
            if Registers(s, st, k).Some? then k in reg && reg[k] == Registers(s, st, k).value
            else (k in reg <==> k in s.reg) && (k in reg ==> reg[k] == s.reg[k])
  {
    hide Handled, Returned, Heard;
    if st.Dispatch? { DispatchRegisters(s, st, k); }
    else if st.Return? { ReturnRegisters(s, st, k); }
  }

  // ---------------------------------------------------------------------------------------------
  // who runs

  predicate Sleeps(s: State, f: Fiber) {
    ModeOf(s.mode, f).Inside?
  }

  /** Who runs after a step if it resumes no fiber. */
  function Chosen(s: State, st: Step): Current {
    match st
    case RunFiber(f) => Run(f)
    case Yield(_, next) => next
    case Start(_, next) => next
    case _ => s.cur
  }

  ghost predicate Switches(s: State, st: Step, t: State) {
    && (forall f :: Sleeps(s, f) && !Sleeps(t, f) ==> t.cur == Run(f) && ModeOf(t.mode, f) == Woken(s.mode[f].op))
    && ((forall f :: Sleeps(s, f) ==> Sleeps(t, f)) ==> t.cur == Chosen(s, st))
    && (forall f :: !Sleeps(s, f) && Sleeps(t, f) ==> st.Start? && st.op.fiber == f)
  }

  lemma WakeSwitches(s: State, s1: State, g: Fiber, st: Step)
    requires s1.mode == s.mode && s1.cur == s.cur && Chosen(s, st) == s.cur
    requires Scheduled(s.cur, s.mode, s.fields, s.reg)
    ensures Switches(s, st, Wake(s1, g))
  {
    hide Switches, Chosen;
    var m := ModeOf(s.mode, g);
    if Recving(m) && m.op.fiber == g {
      HandedOver(s, Wake(s1, g), m.op, st);
    } else if !Recving(m) {
      SameSwitches(s, Wake(s1, g), st);
    }
  }

  lemma HandledSwitches(s: State, s1: State, op: Op, reply: Reply, st: Step)
    requires s1.mode == s.mode && s1.cur == s.cur && Chosen(s, st) == s.cur && ModeOf(s.mode, op.fiber) == Inside(op)
    ensures Switches(s, st, Handled(s1, op, reply))
  {
    hide Handler, Switches;
    var d := Handler(op.kind, reply);
    if d == None {
      SameSwitches(s, Handled(s1, op, reply), st);
    } else {
      HandedOver(s, Handled(s1, op, reply), op, st);
    }
  }

  /** The step resumes the fiber of `op`. */
  lemma HandedOver(s: State, t: State, op: Op, st: Step)
    requires Chosen(s, st) == s.cur && ModeOf(s.mode, op.fiber) == Inside(op)
    requires t.mode == s.mode[op.fiber := Woken(op)] && t.cur == Run(op.fiber)
    ensures Switches(s, st, t)
  {
    hide Chosen;
    assert Sleeps(s, op.fiber) && !Sleeps(t, op.fiber);
  }

  lemma ReturnedSwitches(s: State, f: Fiber)
    requires Scheduled(s.cur, s.mode, s.fields, s.reg) && ModeOf(s.mode, f).Woken?
    ensures Switches(s, Return(f), Returned(s, s.mode[f].op))
  {
  }

  /** A fiber sleeps from the start of its call until what its call waits for arrives; then it runs at once; and if no
      fiber is resumed, the one runs that was chosen. */
  lemma ResumedRuns(s: State, st: Step)
    requires Inv(s) && Enabled(1, s, st)
    ensures Switches(s, st, Apply(1, s, st))
  {
    hide Wake, Handled, Returned, Pointers, MailSeen, Delivered, OneFetched, TakeMail;
    match st {
      case SendEvent(_, g) => hide Switches; WakeSwitches(s, Mailed(s, g), g, st);
      case Expire(g) => hide Switches; WakeSwitches(s, Expired(s, g), g, st);
      case Dispatch(reply) => hide Switches; DispatchSwitches(s, st);
      case Return(f) => hide Switches; ReturnedSwitches(s, f);
      case ReturnAtOnce(op) => AtOnceSwitches(s, op);
      case _ => hide Inv;
    }
  }

  lemma AtOnceSwitches(s: State, op: Op)
    requires Enabled(1, s, ReturnAtOnce(op))
    ensures Switches(s, ReturnAtOnce(op), Apply(1, s, ReturnAtOnce(op)))
  {
  }

  lemma DispatchSwitches(s: State, st: Step)
    requires Inv(s) && Enabled(1, s, st) && st.Dispatch?
    ensures Switches(s, st, Apply(1, s, st))
  {
    hide Wake, Handled, Switches;
    if HoldsRecord(s.batch) {
      InHand(s);
      HandledSwitches(s, s.(batch := s.batch[1..]), s.batch[0].ptr.op, st.reply, st);
    } else if s.batch[0].Notice? && s.batch[0].targets != [] {
      var ts := s.batch[0].targets;
      WakeSwitches(s, Mailed(s.(batch := [Notice(ts[1..])] + s.batch[1..]), ts[0]), ts[0], st);
    } else {
      SameSwitches(s, s.(batch := s.batch[1..]), st);
    }
  }

  lemma SameSwitches(s: State, t: State, st: Step)
    requires t.mode == s.mode && t.cur == s.cur && Chosen(s, st) == s.cur
    ensures Switches(s, st, t)
  {
  }

  /** The fiber that runs can always go on. */
  lemma FiberGoesOn(s: State, f: Fiber)
    requires Inv(s) && s.cur == Run(f)
    ensures Enabled(1, s, Yield(f, Main)) || Enabled(1, s, Return(f))
  {
  }
}
