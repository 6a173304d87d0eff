/** What each IPC call returns, and that events and timers are neither lost nor delivered twice, over every run with
    batches of one. */
module IpcCalls {
  import opened Basics
  import opened IpcRegistration

  // ---------------------------------------------------------------------------------------------
  // calls start, and return once

  /** A call that has started is in progress or has returned, and not both. */
  ghost predicate Accounted(mode: map<Fiber, Mode>, fields: map<Op, Fields>, outcome: map<Op, Outcome>) {
    && (forall op :: op in fields <==> op in outcome || InProgress(mode, op))
    && (forall op :: op in outcome ==> !InProgress(mode, op))
  }

  predicate InProgress(mode: map<Fiber, Mode>, op: Op) {
    ModeOf(mode, op.fiber) == Inside(op) || ModeOf(mode, op.fiber) == Woken(op)
  }

  lemma AccountedTaken(s: State, op: Op, d: Fields)
    requires op in s.fields && op !in s.outcome && (InProgress(s.mode, op) || ModeOf(s.mode, op.fiber) == Ready)
    requires forall x :: x != op ==> (x in s.fields <==> x in s.outcome || InProgress(s.mode, x))
    requires forall x :: x in s.outcome ==> !InProgress(s.mode, x)
    ensures var t := TakeMail(s, op, d); Accounted(t.mode, t.fields, t.outcome)
  {
  }

  lemma AccountedEnded(s: State, op: Op, d: Fields)
    requires Accounted(s.mode, s.fields, s.outcome) && InProgress(s.mode, op)
    ensures op !in s.outcome
    ensures Accounted(s.mode[op.fiber := Ready], s.fields, s.outcome[op := Outcome(d, false, false)])
  {
  }

  lemma AccountedReturned(s: State, f: Fiber)
    requires Scheduled(s.cur, s.mode, s.fields, s.reg) && Accounted(s.mode, s.fields, s.outcome)
    requires ModeOf(s.mode, f).Woken?
    ensures var t := Returned(s, s.mode[f].op); Accounted(t.mode, t.fields, t.outcome)
  {
    var op := s.mode[f].op;
    var d := Get(s.fields, op, CLEAR);
    assert op.fiber == f && InProgress(s.mode, op);
    hide Scheduled, TakeMail;
    if op.kind.Receives() {
      AccountedTaken(if d.done then s else s.(reg := s.reg[op.sock := Registration(true, Null)]), op, d);
    } else {
      hide Accounted;
      AccountedEnded(s, op, d);
    }
  }

  lemma AccountedWoken(s: State, g: Fiber)
    requires Accounted(s.mode, s.fields, s.outcome)
    ensures var t := Wake(s, g); Accounted(t.mode, t.fields, t.outcome)
  {
  }

  lemma AccountedHandled(s: State, op: Op, reply: Reply)
    requires Accounted(s.mode, s.fields, s.outcome) && ModeOf(s.mode, op.fiber) == Inside(op) && op in s.fields
    ensures var t := Handled(s, op, reply); Accounted(t.mode, t.fields, t.outcome)
  {
    hide Handler;
    assert InProgress(s.mode, op);
  }

  /** The record in hand belongs to a suspended call. */
  lemma InHand(s: State)
    requires Inv(s) && HoldsRecord(s.batch)
    ensures var op := s.batch[0].ptr.op;
            s.batch == [Pointed(Record(op))] && ModeOf(s.mode, op.fiber) == Inside(op) && op in s.fields
  {
    hide Pointers, MailSeen, Delivered;
    assert s.batch == [s.batch[0]];
  }

  lemma AccountedDispatched(s: State, reply: Reply)
    requires Inv(s) && Accounted(s.mode, s.fields, s.outcome) && Enabled(1, s, Dispatch(reply))
    ensures var t := Apply(1, s, Dispatch(reply)); Accounted(t.mode, t.fields, t.outcome)
  {
    hide Wake, Handled, Accounted;
    if HoldsRecord(s.batch) {
      InHand(s);
      hide Inv;
      AccountedHandled(s.(batch := s.batch[1..]), s.batch[0].ptr.op, reply);
    } else {
      hide Inv;
      if s.batch[0].Notice? && s.batch[0].targets != [] {
        var ts := s.batch[0].targets;
        AccountedWoken(Mailed(s.(batch := [Notice(ts[1..])] + s.batch[1..]), ts[0]), ts[0]);
      }
    }
  }

  lemma AccountedAtOnce(s: State, op: Op)
    requires Accounted(s.mode, s.fields, s.outcome) && Enabled(1, s, ReturnAtOnce(op))
    ensures var t := Apply(1, s, ReturnAtOnce(op)); Accounted(t.mode, t.fields, t.outcome)
  {
    hide TakeMail;
    AccountedTaken(s.(fields := s.fields[op := CLEAR]), op, CLEAR);
  }

  lemma AccountedStarted(s: State, op: Op, next: Current)
    requires Accounted(s.mode, s.fields, s.outcome) && Enabled(1, s, Start(op, next))
    ensures var t := Apply(1, s, Start(op, next)); Accounted(t.mode, t.fields, t.outcome)
  {
  }

  lemma StepAccounts(s: State, st: Step)
    requires Inv(s) && Accounted(s.mode, s.fields, s.outcome) && Enabled(1, s, st)
    ensures var t := Apply(1, s, st); Accounted(t.mode, t.fields, t.outcome)
  {
    hide Wake, Returned, TakeMail, Pointers, MailSeen, Delivered, OneFetched, Accounted;
    match st {
      case SendEvent(_, g) => AccountedWoken(Mailed(s, g), g);
      case Expire(g) => AccountedWoken(Expired(s, g), g);
      case Dispatch(reply) => AccountedDispatched(s, reply);
      case Return(f) => AccountedReturned(s, f);
      case ReturnAtOnce(op) => AccountedAtOnce(s, op);
      case Start(op, next) => AccountedStarted(s, op, next);
      case _ =>
    }
  }

  /** In every run, a call that has started is in progress or has returned, exactly one of the two. */
  lemma {:induction false} CallsAccounted(steps: seq<Step>)
    requires After(1, steps).Some?
    ensures var s := After(1, steps).value; Accounted(s.mode, s.fields, s.outcome)
  {
    hide Inv, Enabled, Apply, Accounted;
    if steps == [] {
      NoneAccounted();
    } else {
      CallsAccounted(steps[..|steps| - 1]);
      RunKeeps(1, steps[..|steps| - 1]);
      StepAccounts(After(1, steps[..|steps| - 1]).value, steps[|steps| - 1]);
    }
  }

  lemma NoneAccounted()
    ensures Accounted(Init().mode, Init().fields, Init().outcome)
  {
  }

  // ---------------------------------------------------------------------------------------------
  // events and timers

  /** The calls of `f` that returned with an event, and with a timer. */
  function WithEvent(outcome: map<Op, Outcome>, f: Fiber): set<Op> {
    set op | op in outcome && op.fiber == f && outcome[op].event
  }

  function WithTimer(outcome: map<Op, Outcome>, f: Fiber): set<Op> {
    set op | op in outcome && op.fiber == f && outcome[op].timer
  }

  /** The step brings a fiber event to `f`, from a fiber of its thread or from the poller's queue. */
  predicate Brings(s: State, st: Step, f: Fiber) {
    match st
    case SendEvent(_, g) => g == f
    case Dispatch(_) => s.batch != [] && s.batch[0].Notice? && s.batch[0].targets != [] && s.batch[0].targets[0] == f
    case _ => false
  }

  /** What the calls of `f` have delivered and what waits for it. */
  function Events(s: State, f: Fiber): nat {
    |WithEvent(s.outcome, f)| + Get(s.mail, f, 0)
  }

  function Timers(s: State, f: Fiber): nat {
    |WithTimer(s.outcome, f)| + Get(s.timers, f, 0)
  }

  lemma EventAdded(outcome: map<Op, Outcome>, op: Op, o: Outcome, f: Fiber)
    requires op !in outcome
    ensures |WithEvent(outcome[op := o], f)| == |WithEvent(outcome, f)| + if op.fiber == f && o.event then 1 else 0
  {
    assert WithEvent(outcome[op := o], f) == WithEvent(outcome, f) + if op.fiber == f && o.event then {op} else {};
  }

  lemma TimerAdded(outcome: map<Op, Outcome>, op: Op, o: Outcome, f: Fiber)
    requires op !in outcome
    ensures |WithTimer(outcome[op := o], f)| == |WithTimer(outcome, f)| + if op.fiber == f && o.timer then 1 else 0
  {
    assert WithTimer(outcome[op := o], f) == WithTimer(outcome, f) + if op.fiber == f && o.timer then {op} else {};
  }

  lemma TakenKeeps(s: State, op: Op, d: Fields, f: Fiber)
    requires op !in s.outcome
    ensures var t := TakeMail(s, op, d); Events(t, f) == Events(s, f) && Timers(t, f) == Timers(s, f)
  {
    hide WithEvent, WithTimer;
    EventAdded(s.outcome, op, TakeMail(s, op, d).outcome[op], f);
    TimerAdded(s.outcome, op, TakeMail(s, op, d).outcome[op], f);
  }

  lemma ReturnedKeeps(s: State, op: Op, f: Fiber)
    requires op !in s.outcome
    ensures var t := Returned(s, op); Events(t, f) == Events(s, f) && Timers(t, f) == Timers(s, f)
  {
    hide WithEvent, WithTimer;
    var d := Get(s.fields, op, CLEAR);
    if op.kind.Receives() {
      hide TakeMail;
      TakenKeeps(if d.done then s else s.(reg := s.reg[op.sock := Registration(true, Null)]), op, d, f);
    } else {
      EventAdded(s.outcome, op, Outcome(d, false, false), f);
      TimerAdded(s.outcome, op, Outcome(d, false, false), f);
    }
  }

  lemma WakeBringsNone(s: State, g: Fiber, f: Fiber)
    ensures Events(Wake(s, g), f) == Events(s, f) && Timers(Wake(s, g), f) == Timers(s, f)
  {
    hide WithEvent, WithTimer;
  }

  lemma HandledBringsNone(s: State, op: Op, reply: Reply, f: Fiber)
    ensures Events(Handled(s, op, reply), f) == Events(s, f) && Timers(Handled(s, op, reply), f) == Timers(s, f)
  {
    hide WithEvent, WithTimer, Handler;
  }

  lemma NoticeBrings(s: State, s1: State, g: Fiber, f: Fiber)
    requires s1.mail == s.mail[g := Get(s.mail, g, 0) + 1] && s1.timers == s.timers && s1.outcome == s.outcome
    ensures Events(Wake(s1, g), f) == Events(s, f) + (if g == f then 1 else 0)
    ensures Timers(Wake(s1, g), f) == Timers(s, f)
  {
    hide WithEvent, WithTimer, Wake;
    WakeBringsNone(s1, g, f);
  }

  lemma SameMailBrings(s: State, s1: State, f: Fiber)
    requires s1.mail == s.mail && s1.timers == s.timers && s1.outcome == s.outcome
    ensures Events(s1, f) == Events(s, f) && Timers(s1, f) == Timers(s, f)
  {
  }

  lemma RecordBrings(s: State, st: Step, f: Fiber)
    requires Enabled(1, s, st) && st.Dispatch? && s.batch[0].Pointed?
    ensures Brings(s, st, f) == false
    ensures Events(Apply(1, s, st), f) == Events(s, f) && Timers(Apply(1, s, st), f) == Timers(s, f)
  {
    hide Events, Timers, Wake, Handled;
    var rest := s.(batch := s.batch[1..]);
    SameMailBrings(s, rest, f);
    if HoldsRecord(s.batch) { HandledBringsNone(rest, s.batch[0].ptr.op, st.reply, f); }
  }

  lemma EventBrings(s: State, st: Step, f: Fiber)
    requires Enabled(1, s, st) && st.Dispatch? && s.batch[0].Notice?
    ensures Events(Apply(1, s, st), f) == Events(s, f) + (if Brings(s, st, f) then 1 else 0)
    ensures Timers(Apply(1, s, st), f) == Timers(s, f)
  {
    hide Events, Timers, Wake, Handled;
    var ts := s.batch[0].targets;
    if ts == [] {
      SameMailBrings(s, s.(batch := s.batch[1..]), f);
    } else {
      NoticeBrings(s, Mailed(s.(batch := [Notice(ts[1..])] + s.batch[1..]), ts[0]), ts[0], f);
    }
  }

  lemma DispatchBrings(s: State, reply: Reply, f: Fiber)
    requires Enabled(1, s, Dispatch(reply))
    ensures var t := Apply(1, s, Dispatch(reply));
            && Events(t, f) == Events(s, f) + (if Brings(s, Dispatch(reply), f) then 1 else 0)
            && Timers(t, f) == Timers(s, f)
  {
    hide Events, Timers, Apply, Brings;
    if s.batch[0].Notice? { EventBrings(s, Dispatch(reply), f); } else { RecordBrings(s, Dispatch(reply), f); }
  }

  lemma ReturnBrings(s: State, g: Fiber, f: Fiber)
    requires Inv(s) && Accounted(s.mode, s.fields, s.outcome) && Enabled(1, s, Return(g))
    ensures var t := Apply(1, s, Return(g)); Events(t, f) == Events(s, f) && Timers(t, f) == Timers(s, f)
  {
    hide WithEvent, WithTimer, Returned, Pointers, MailSeen, Delivered, OneFetched;
    assert InProgress(s.mode, s.mode[g].op);
    ReturnedKeeps(s, s.mode[g].op, f);
  }

  lemma MailBrings(s: State, st: Step, f: Fiber)
    requires Enabled(1, s, st) && !st.Dispatch? && !st.Return? && !st.ReturnAtOnce?
    ensures var t := Apply(1, s, st);
            && Events(t, f) == Events(s, f) + (if Brings(s, st, f) then 1 else 0)
            && Timers(t, f) == Timers(s, f) + (if st == Expire(f) then 1 else 0)
  {
    hide WithEvent, WithTimer, TakeMail, Returned, Handler;
  }

  lemma StepBrings(s: State, st: Step, f: Fiber)
    requires Inv(s) && Accounted(s.mode, s.fields, s.outcome) && Enabled(1, s, st)
    ensures var t := Apply(1, s, st);
            && Events(t, f) == Events(s, f) + (if Brings(s, st, f) then 1 else 0)
            && Timers(t, f) == Timers(s, f) + (if st == Expire(f) then 1 else 0)
  {
    hide WithEvent, WithTimer, TakeMail, Inv, Events, Timers;
    match st {
      case Return(g) => hide Apply; ReturnBrings(s, g, f);
      case ReturnAtOnce(op) => TakenKeeps(s.(fields := s.fields[op := CLEAR]), op, CLEAR, f); EventsSame(s, op, f);
      case Dispatch(reply) => hide Apply; DispatchBrings(s, reply, f);
      case _ => hide Apply; MailBrings(s, st, f);
    }
  }

  lemma EventsSame(s: State, op: Op, f: Fiber)
    ensures var s1 := s.(fields := s.fields[op := CLEAR]);
            Events(s1, f) == Events(s, f) && Timers(s1, f) == Timers(s, f)
  {
  }

  /** How many events and timers the steps of a run brought to `f`. */
  ghost function Brought(steps: seq<Step>, f: Fiber): nat
    requires After(1, steps).Some?
  {
    if steps == [] then 0
    else
      var before, st := steps[..|steps| - 1], steps[|steps| - 1];
      Brought(before, f) + if Brings(After(1, before).value, st, f) then 1 else 0
  }

  function Expirations(steps: seq<Step>, f: Fiber): nat {
    if steps == [] then 0
    else Expirations(steps[..|steps| - 1], f) + if steps[|steps| - 1] == Expire(f) then 1 else 0
  }

  /** Over every run: each fiber event that was brought to a fiber has been delivered by exactly one of its calls or
      still waits for it, and so has each timer that expired. */
  lemma {:induction false} EventsConserved(steps: seq<Step>, f: Fiber)
    requires After(1, steps).Some?
    ensures var s := After(1, steps).value;
            && Brought(steps, f) == |WithEvent(s.outcome, f)| + Get(s.mail, f, 0)
            && Expirations(steps, f) == |WithTimer(s.outcome, f)| + Get(s.timers, f, 0)
  {
    if steps == [] {
      assert WithEvent(Init().outcome, f) == {} && WithTimer(Init().outcome, f) == {};
    } else {
      hide Inv, Enabled, Apply, Accounted, WithEvent, WithTimer, Brings;
      var before, st := steps[..|steps| - 1], steps[|steps| - 1];
      EventsConserved(before, f);
      RunKeeps(1, before);
      CallsAccounted(before);
      StepBrings(After(1, before).value, st, f);
    }
  }

  // ---------------------------------------------------------------------------------------------
  // what a call returns

  /** The reply of the socket that completes `op`, if the step brings it. */
  function Heard(s: State, st: Step, op: Op): Option<Reply> {
    if st.Dispatch? && s.batch != [] && s.batch[0] == Pointed(Record(op)) &&
       !(st.reply == WouldBlock && (op.kind.Recv? || op.kind.Send?))
    then Some(st.reply) else None
  }

  /** The reply that completed `op` in a run. */
  ghost function Reported(steps: seq<Step>, op: Op): Option<Reply>
    requires After(1, steps).Some?
  {
    if steps == [] then None
    else
      var before, st := steps[..|steps| - 1], steps[|steps| - 1];
      var r := Heard(After(1, before).value, st, op);
      if r.Some? then r else Reported(before, op)
  }

  /** What a call has received when the socket has told it `r`, or nothing yet. */
  function BytesOf(kind: Kind, r: Option<Reply>): nat {
    if kind.Recv? && r.Some? && r.value.Bytes? then r.value.n + 1 else 0
  }

  function PeerOf(kind: Kind, r: Option<Reply>): bool {
    r.Some? && ((kind.Recv? && (r.value.Bytes? || r.value.Closed?) && r.value.skt) ||
                (kind.Accept? && r.value.Taken? && r.value.ok))
  }

  /** The connection has ended, or was reset. */
  predicate Ended(r: Option<Reply>) {
    r == Some(Reset) || (r.Some? && r.value.Closed?)
  }

  /** The result of a call that the socket told `r`: a receive that got anything succeeded, and otherwise tells the
      end of the connection from a failure; a connect or a send has the result of its socket. */
  function ResultOf(kind: Kind, r: Option<Reply>, got: bool): Result {
    match kind
    case Accept => Fail
    case Recv => if got then Success else if Ended(r) then End else Fail
    case _ => if r.Some? && r.value.Other? then r.value.r else Fail
  }

  predicate Tells(kind: Kind, r: Option<Reply>, d: Fields) {
    d == Fields(r.Some? && kind.Receives(), ResultOf(kind, r, BytesOf(kind, r) > 0 || PeerOf(kind, r)),
                BytesOf(kind, r), PeerOf(kind, r))
  }

  /** The fields of a record say what the socket has told. */
  ghost predicate Told(steps: seq<Step>, fields: map<Op, Fields>)
    requires After(1, steps).Some?
  {
    forall op :: if op in fields then Tells(op.kind, Reported(steps, op), fields[op]) else Reported(steps, op) == None
  }

  lemma HandlerTells(kind: Kind, reply: Reply)
    ensures Handler(kind, reply) == None <==> reply == WouldBlock && (kind.Recv? || kind.Send?)
    ensures Handler(kind, reply).Some? ==> Tells(kind, Some(reply), Handler(kind, reply).value)
  {
  }

  /** The fields after a step. */
  ghost predicate FieldsStep(s: State, st: Step, t: State) {
    forall op ::
      if Heard(s, st, op).Some? then op in s.fields && op in t.fields && Tells(op.kind, Heard(s, st, op), t.fields[op])
      else if op in s.fields then op in t.fields && t.fields[op] == s.fields[op]
      else op in t.fields ==> t.fields[op] == CLEAR
  }

  lemma HandledFields(s: State, op: Op, reply: Reply)
    requires HoldsRecord(s.batch) && s.batch[0].ptr.op == op && op in s.fields
    ensures FieldsStep(s, Dispatch(reply), Handled(s.(batch := s.batch[1..]), op, reply))
  {
    HandlerTells(op.kind, reply);
    hide Handler, Tells;
  }

  lemma OtherFields(s: State, st: Step, t: State)
    requires Enabled(1, s, st) && t == Apply(1, s, st) && !(st.Dispatch? && HoldsRecord(s.batch))
    ensures FieldsStep(s, st, t)
  {
    hide Tells, Handled, Returned, TakeMail;
    FieldsKept(s, st);
  }

  lemma ReturnKeepsFields(s: State, op: Op)
    ensures Returned(s, op).fields == s.fields
  {
  }

  lemma WakeKeepsFields(s: State, g: Fiber)
    ensures Wake(s, g).fields == s.fields
  {
  }

  lemma FieldsKept(s: State, st: Step)
    requires Enabled(1, s, st) && !(st.Dispatch? && HoldsRecord(s.batch))
    ensures Apply(1, s, st).fields == if st.Start? || st.ReturnAtOnce? then s.fields[st.op := CLEAR] else s.fields
  {
    hide Handled, Returned, Wake;
    match st {
      case Return(f) => ReturnKeepsFields(s, s.mode[f].op);
      case SendEvent(_, g) => WakeKeepsFields(Mailed(s, g), g);
      case Expire(g) => WakeKeepsFields(Expired(s, g), g);
      case Dispatch(_) =>
        if s.batch[0].Notice? && s.batch[0].targets != [] {
          var ts := s.batch[0].targets;
          WakeKeepsFields(Mailed(s.(batch := [Notice(ts[1..])] + s.batch[1..]), ts[0]), ts[0]);
        }
      case _ =>
    }
  }

  lemma StepFields(s: State, st: Step)
    requires Inv(s) && Enabled(1, s, st)
    ensures FieldsStep(s, st, Apply(1, s, st))
  {
    if st.Dispatch? && HoldsRecord(s.batch) {
      InHand(s);
      hide Inv, Handled, FieldsStep;
      HandledFields(s, s.batch[0].ptr.op, st.reply);
    } else {
      hide Inv, Enabled, Apply, FieldsStep;
      OtherFields(s, st, Apply(1, s, st));
    }
  }

  lemma {:induction false} FieldsTold(steps: seq<Step>)
    requires After(1, steps).Some?
    ensures Told(steps, After(1, steps).value.fields)
  {
    if steps != [] {
      var before, st := steps[..|steps| - 1], steps[|steps| - 1];
      hide Inv, Enabled, Apply, Heard, Tells;
      FieldsTold(before);
      RunKeeps(1, before);
      StepFields(After(1, before).value, st);
      hide After;
      assert forall kind :: Tells(kind, None, CLEAR) by { ClearTells(); }
    }
  }

  lemma ClearTells()
    ensures forall kind :: Tells(kind, None, CLEAR)
  {
  }

  /** What a call returns, given its record and what it took from its mailbox. */
  predicate Concludes(op: Op, d: Fields, o: Outcome) {
    && o.fields == d.(result := if op.kind.Recv? && (o.event || o.timer) then Success else d.result)
    && (if op.kind.Receives() then d.done || o.event || o.timer else !o.event && !o.timer)
  }

  /** The outcomes after a step. */
  ghost predicate OutcomeStep(s: State, st: Step, t: State) {
    forall op :: op in t.outcome ==>
      if op in s.outcome then t.outcome[op] == s.outcome[op]
      else
        && op in t.fields && Concludes(op, t.fields[op], t.outcome[op])
        && (st.Return? || op.kind.Receives())
        && (st.Return? ==> ModeOf(s.mode, op.fiber) == Woken(op) && op in s.fields)
  }

  lemma TakenConcludes(s: State, op: Op, d: Fields)
    requires d.done || HasMail(s.mail, s.timers, op.fiber)
    requires op.kind.Receives() && op !in s.outcome
    ensures var t := TakeMail(s, op, d);
            && t.outcome == s.outcome[op := t.outcome[op]] && t.fields == s.fields && op in t.outcome
            && Concludes(op, d, t.outcome[op])
  {
  }

  lemma ReturnConcludes(s: State, f: Fiber)
    requires Inv(s) && Accounted(s.mode, s.fields, s.outcome) && ModeOf(s.mode, f).Woken?
    ensures OutcomeStep(s, Return(f), Returned(s, s.mode[f].op))
  {
    hide Pointers, OneFetched, Delivered;
    var op := s.mode[f].op;
    var d := s.fields[op];
    assert InProgress(s.mode, op) && op !in s.outcome;
    if op.kind.Receives() {
      var s1 := if d.done then s else s.(reg := s.reg[op.sock := Registration(true, Null)]);
      assert d.done || HasMail(s.mail, s.timers, f);
      hide Inv, TakeMail, Concludes, HasMail, Accounted;
      TakenConcludes(s1, op, d);
    }
  }

  lemma AtOnceConcludes(s: State, op: Op)
    requires Accounted(s.mode, s.fields, s.outcome) && Enabled(1, s, ReturnAtOnce(op))
    ensures OutcomeStep(s, ReturnAtOnce(op), Apply(1, s, ReturnAtOnce(op)))
  {
    hide TakeMail, Concludes;
    TakenConcludes(s.(fields := s.fields[op := CLEAR]), op, CLEAR);
  }

  lemma WakeKeepsOutcome(s: State, g: Fiber)
    ensures Wake(s, g).outcome == s.outcome
  {
  }

  lemma HandledKeepsOutcome(s: State, op: Op, reply: Reply)
    ensures Handled(s, op, reply).outcome == s.outcome
  {
    hide Handler;
  }

  lemma OutcomesKept(s: State, st: Step)
    requires Enabled(1, s, st) && !st.Return? && !st.ReturnAtOnce?
    ensures Apply(1, s, st).outcome == s.outcome
  {
    hide Handled, Wake;
    match st {
      case SendEvent(_, g) => WakeKeepsOutcome(Mailed(s, g), g);
      case Expire(g) => WakeKeepsOutcome(Expired(s, g), g);
      case Dispatch(reply) =>
        if HoldsRecord(s.batch) { HandledKeepsOutcome(s.(batch := s.batch[1..]), s.batch[0].ptr.op, reply); }
        else if s.batch[0].Notice? && s.batch[0].targets != [] {
          var ts := s.batch[0].targets;
          WakeKeepsOutcome(Mailed(s.(batch := [Notice(ts[1..])] + s.batch[1..]), ts[0]), ts[0]);
        }
      case _ =>
    }
  }

  lemma StepConcludes(s: State, st: Step)
    requires Inv(s) && Accounted(s.mode, s.fields, s.outcome) && Enabled(1, s, st)
    ensures OutcomeStep(s, st, Apply(1, s, st))
  {
    hide Accounted, OutcomeStep, Returned, Inv;
    match st {
      case Return(f) => ReturnConcludes(s, f);
      case ReturnAtOnce(op) => AtOnceConcludes(s, op);
      case _ => hide Apply, Enabled; OutcomesKept(s, st); SameOutcomes(s, st, Apply(1, s, st));
    }
  }

  lemma SameOutcomes(s: State, st: Step, t: State)
    requires t.outcome == s.outcome
    ensures OutcomeStep(s, st, t)
  {
  }

  /** A connect or a send is resumed only by its socket. */
  ghost predicate WokenBySocket(steps: seq<Step>, mode: map<Fiber, Mode>)
    requires After(1, steps).Some?
  {
    forall f :: ModeOf(mode, f).Woken? && !ModeOf(mode, f).op.kind.Receives() ==>
      Reported(steps, ModeOf(mode, f).op).Some?
  }

  lemma WokenStep(s: State, st: Step, f: Fiber)
    requires Inv(s) && Enabled(1, s, st)
    ensures var m, m' := ModeOf(s.mode, f), ModeOf(Apply(1, s, st).mode, f);
            m'.Woken? && m' != m && !m'.op.kind.Receives() ==> Heard(s, st, m'.op).Some?
  {
    if st.Dispatch? && HoldsRecord(s.batch) {
      InHand(s);
      HandlerTells(s.batch[0].ptr.op.kind, st.reply);
      hide Inv, Handler, Tells;
    } else {
      hide Inv, Handled, Returned;
      WokenOtherwise(s, st, f);
    }
  }

  lemma WokenOtherwise(s: State, st: Step, f: Fiber)
    requires Enabled(1, s, st) && !(st.Dispatch? && HoldsRecord(s.batch))
    ensures var m, m' := ModeOf(s.mode, f), ModeOf(Apply(1, s, st).mode, f);
            m'.Woken? && m' != m ==> m'.op.kind.Receives()
  {
    hide Handled;
    match st {
      case Return(g) => ReturnWakesNone(s, s.mode[g].op, f);
      case _ => hide Returned;
    }
  }

  lemma ReturnWakesNone(s: State, op: Op, f: Fiber)
    ensures ModeOf(Returned(s, op).mode, f) == if f == op.fiber then Ready else ModeOf(s.mode, f)
  {
  }

  /** The outcomes of a run conclude its calls. */
  ghost predicate Concluded(steps: seq<Step>, s: State)
    requires After(1, steps).Some?
  {
    forall op :: op in s.outcome ==>
      && op in s.fields && Concludes(op, s.fields[op], s.outcome[op])
      && (!op.kind.Receives() ==> Reported(steps, op).Some?)
  }

  lemma ReportedStep(steps: seq<Step>, s: State, st: Step, op: Op)
    requires After(1, steps) == Some(s) && After(1, steps + [st]).Some?
    ensures Reported(steps + [st], op) == if Heard(s, st, op).Some? then Heard(s, st, op) else Reported(steps, op)
  {
    assert (steps + [st])[..|steps|] == steps;
  }

  lemma HeardInProgress(s: State, st: Step, op: Op)
    requires Inv(s) && Accounted(s.mode, s.fields, s.outcome) && Heard(s, st, op).Some?
    ensures op !in s.outcome
  {
    assert HoldsRecord(s.batch) && s.batch[0].ptr.op == op;
    InHand(s);
    hide Inv;
    assert InProgress(s.mode, op);
  }

  lemma ConcludedStep(steps: seq<Step>, s: State, st: Step, t: State)
    requires After(1, steps) == Some(s) && After(1, steps + [st]) == Some(t)
    requires Concluded(steps, s) && WokenBySocket(steps, s.mode) && Accounted(s.mode, s.fields, s.outcome)
    requires OutcomeStep(s, st, t) && FieldsStep(s, st, t) && Inv(s)
    ensures Concluded(steps + [st], t)
  {
    hide Inv, After, Heard, Reported, Concludes, Tells, Accounted;
    forall op { ReportedStep(steps, s, st, op); }
    forall op | Heard(s, st, op).Some? ensures op !in s.outcome { HeardInProgress(s, st, op); }
    forall op | op in t.outcome && op !in s.outcome && !op.kind.Receives() ensures Reported(steps + [st], op).Some? {
      assert ModeOf(s.mode, op.fiber) == Woken(op);
    }
  }

  lemma {:induction false} RunConcludes(steps: seq<Step>)
    requires After(1, steps).Some?
    ensures Concluded(steps, After(1, steps).value) && WokenBySocket(steps, After(1, steps).value.mode)
  {
    if steps != [] {
      hide Inv, Enabled, Apply, Heard, Tells, Concludes, Concluded, OutcomeStep, FieldsStep, Accounted;
      var before, st := steps[..|steps| - 1], steps[|steps| - 1];
      var s := After(1, before).value;
      RunConcludes(before);
      RunKeeps(1, before);
      CallsAccounted(before);
      StepConcludes(s, st);
      StepFields(s, st);
      assert before + [st] == steps;
      ConcludedStep(before, s, st, After(1, steps).value);
      forall f { WokenStep(s, st, f); }
    } else {
      NoneConcluded();
    }
  }

  lemma NoneConcluded()
    ensures Concluded([], Init()) && WokenBySocket([], Init().mode)
  {
  }

  /** Over every run: what a call that has returned has received, and its result, are what its socket told and what
      its mailbox held. A connect or a send returns only when its socket has told it something; an accept or a receive
      returns then, or with an event or a timer, which make a receive succeed. */
  lemma CallReturns(steps: seq<Step>, op: Op)
    requires After(1, steps).Some? && op in After(1, steps).value.outcome
    ensures var r, o := Reported(steps, op), After(1, steps).value.outcome[op];
            && o.fields.bytes == BytesOf(op.kind, r) && o.fields.peer == PeerOf(op.kind, r)
            && o.fields.result ==
                 ResultOf(op.kind, r, o.fields.bytes > 0 || o.fields.peer || o.event || o.timer)
            && (if op.kind.Receives() then r.Some? || o.event || o.timer else r.Some? && !o.event && !o.timer)
  {
    FieldsTold(steps);
    RunConcludes(steps);
    hide After, Reported;
  }
}
