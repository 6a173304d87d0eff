/** IPC operations as one-shot epoll registrations of records on fiber stacks.

    One thread: its poller (the main fiber) and its fibers, which take turns. The kernel keeps for each
    socket one pointer and whether it is armed; an operation arms it with its own record and suspends.
    The number of events fetched by one `epoll_wait` is a parameter of the runs. */
module IpcRegistration {
  import opened Basics

  type Fiber = nat
  type Socket = nat

  datatype Kind = Accept | Connect | Send | Recv
  {
    /** The call also ends when a fiber event or a timer arrives (`recving`). */
    predicate Receives() {
      Accept? || Recv?
    }
  }

  /** One call of an IPC operation, and at once the record in its stack frame. */
  datatype Op = Op(id: nat, kind: Kind, sock: Socket, fiber: Fiber)

  /** What `epoll_event.data.ptr` points to: the static null event or a record. */
  datatype Pointer = Null | Record(op: Op)
  datatype Registration = Registration(armed: bool, ptr: Pointer)

  datatype Result = Success | End | Fail

  /** The fields that handlers fill in: `done`, `result`, the number of bytes, a passed socket or accepted
      connection. */
  datatype Fields = Fields(done: bool, result: Result, bytes: nat, peer: bool)

  const CLEAR := Fields(false, Fail, 0, false)

  datatype Mode = Ready | Inside(op: Op) | Woken(op: Op)
  datatype Current = Main | Run(f: Fiber)

  /** A fetched event: a pointer, or the poller's eventfd with the targets of the fiber events queued there. */
  datatype Fetched = Pointed(ptr: Pointer) | Notice(targets: seq<Fiber>)
  datatype Source = Armed(s: Socket) | Queued(targets: seq<Fiber>)

  /** What the call returned: the fields, and whether it delivered a fiber event and a timer. */
  datatype Outcome = Outcome(fields: Fields, event: bool, timer: bool)

  datatype State = State(
    reg: map<Socket, Registration>, batch: seq<Fetched>, cur: Current, mode: map<Fiber, Mode>,
    fields: map<Op, Fields>, mail: map<Fiber, nat>, timers: map<Fiber, nat>, outcome: map<Op, Outcome>)

  function ModeOf(mode: map<Fiber, Mode>, f: Fiber): Mode {
    Get(mode, f, Ready)
  }

  function Init(): State {
    State(map[], [], Main, map[], map[], map[], map[], map[])
  }

  /** What the system calls of a handler come to, once interrupted calls are retried. */
  datatype Reply =
    | Bytes(n: nat, skt: bool)   // received n + 1 bytes, and perhaps a socket
    | Closed(skt: bool)          // received nothing
    | Reset
    | WouldBlock
    | Other(r: Result)           // the result of a connect, or of a send that ends
    | Taken(ok: bool)            // accept

  /** The handlers `__do_accept`, `__do_connect`, `__do_send` and `__do_recv`: the fields they leave, or
      nothing if they arm the registration again. */
  function Handler(kind: Kind, reply: Reply): Option<Fields> {
    match (kind, reply)
    case (Recv, Bytes(n, skt)) => Some(Fields(true, Success, n + 1, skt))
    case (Recv, Closed(skt)) => Some(Fields(true, if skt then Success else End, 0, skt))
    case (Recv, Reset) => Some(Fields(true, End, 0, false))
    case (Recv, WouldBlock) => None
    case (Recv, _) => Some(Fields(true, Fail, 0, false))
    case (Send, WouldBlock) => None
    case (Send, Other(r)) => Some(Fields(false, r, 0, false))
    case (Send, _) => Some(Fields(false, Fail, 0, false))
    case (Connect, Other(r)) => Some(Fields(false, r, 0, false))
    case (Connect, _) => Some(Fields(false, Fail, 0, false))
    case (Accept, Taken(ok)) => Some(Fields(true, Fail, 0, ok))
    case (Accept, _) => Some(Fields(true, Fail, 0, false))
  }

  datatype Step =
    | Open(s: Socket)                       // a new socket, registered with the null event
    | RunFiber(f: Fiber)                    // the main fiber yields to an active fiber
    | Yield(f: Fiber, next: Current)
    | Start(op: Op, next: Current)          // arms the registration and suspends
    | ReturnAtOnce(op: Op)                  // a receiving call that finds an event or a timer
    | SendEvent(f: Fiber, g: Fiber)         // to a fiber of the same thread
    | Expire(g: Fiber)                      // a timer of g
    | Fetch(sources: seq<Source>)           // epoll_wait
    | Dispatch(reply: Reply)                // the next fetched event
    | Return(f: Fiber)

  predicate Running(s: State, f: Fiber) {
    s.cur == Run(f) && ModeOf(s.mode, f) == Ready
  }

  predicate CanRun(s: State, c: Current) {
    c.Main? || ModeOf(s.mode, c.f) == Ready
  }

  /** The call is suspended with `recving` set. */
  predicate Recving(m: Mode) {
    m.Inside? && m.op.kind.Receives()
  }

  predicate HasMail(mail: map<Fiber, nat>, timers: map<Fiber, nat>, f: Fiber) {
    Get(mail, f, 0) > 0 || Get(timers, f, 0) > 0
  }

  predicate Sources(reg: map<Socket, Registration>, sources: seq<Source>) {
    && (forall i :: 0 <= i < |sources| && sources[i].Armed? ==> sources[i].s in reg && reg[sources[i].s].armed)
    && (forall i, j :: 0 <= i < j < |sources| && sources[i].Armed? ==> sources[i] != sources[j])
  }

  /** `max` bounds the number of events that one `epoll_wait` returns. */
  predicate Enabled(max: nat, s: State, st: Step) {
    match st
    case Open(k) => k !in s.reg
    case RunFiber(f) => s.cur == Main && s.batch == [] && ModeOf(s.mode, f) == Ready
    case Yield(f, next) => Running(s, f) && CanRun(s, next)
    case Start(op, next) =>
      Running(s, op.fiber) && op !in s.fields && op.sock in s.reg && CanRun(s, next) && next != Run(op.fiber) &&
      (op.kind.Receives() ==> !HasMail(s.mail, s.timers, op.fiber))
    case ReturnAtOnce(op) => Running(s, op.fiber) && op !in s.fields && op.kind.Receives() &&
        HasMail(s.mail, s.timers, op.fiber)
    case SendEvent(f, g) => Running(s, f)
    case Expire(g) => s.cur == Main && s.batch == []
    case Fetch(sources) => s.cur == Main && s.batch == [] && 0 < |sources| <= max && Sources(s.reg, sources)
    case Dispatch(reply) => s.cur == Main && s.batch != []
    case Return(f) => s.cur == Run(f) && ModeOf(s.mode, f).Woken?
  }

  /** One more event or timer for `g`; if `g` is suspended with `recving` set, it runs at once. */
  function Wake(s: State, g: Fiber): State {
    var m := ModeOf(s.mode, g);
    if Recving(m) then s.(mode := s.mode[g := Woken(m.op)], cur := Run(g)) else s
  }

  function Mailed(s: State, g: Fiber): State {
    s.(mail := s.mail[g := Get(s.mail, g, 0) + 1])
  }

  function Expired(s: State, g: Fiber): State {
    s.(timers := s.timers[g := Get(s.timers, g, 0) + 1])
  }

  /** `tt_fiber_recv` without waiting, at the end of a receiving call: it takes one event and one timer if
      there are any, and then the call succeeded whatever the socket said. */
  function TakeMail(s: State, op: Op, d: Fields): State {
    var f := op.fiber;
    var m, t := Get(s.mail, f, 0), Get(s.timers, f, 0);
    var r := if op.kind.Recv? && (m > 0 || t > 0) then Success else d.result;
    s.(mail := s.mail[f := if m > 0 then m - 1 else 0],
       timers := s.timers[f := if t > 0 then t - 1 else 0],
       mode := s.mode[f := Ready],
       outcome := s.outcome[op := Outcome(d.(result := r), m > 0, t > 0)])
  }

  function FetchedFrom(reg: map<Socket, Registration>, sources: seq<Source>): seq<Fetched>
    requires Sources(reg, sources)
  {
    seq(|sources|, i requires 0 <= i < |sources| =>
      match sources[i] case Armed(k) => Pointed(reg[k].ptr) case Queued(ts) => Notice(ts))
  }

  function Disarmed(reg: map<Socket, Registration>, sources: seq<Source>): map<Socket, Registration> {
    map k | k in reg :: if Armed(k) in sources then Registration(false, reg[k].ptr) else reg[k]
  }

  /** The end of a call after its fiber was resumed. */
  function Returned(s: State, op: Op): State {
    var d := Get(s.fields, op, CLEAR);
    if !op.kind.Receives() then
      s.(mode := s.mode[op.fiber := Ready], outcome := s.outcome[op := Outcome(d, false, false)])
    else
      TakeMail(if d.done then s else s.(reg := s.reg[op.sock := Registration(true, Null)]), op, d)
  }

  /** The handler of a fetched record: it arms the registration again, or completes the operation and
      resumes its fiber. */
  function Handled(s: State, op: Op, reply: Reply): State {
    match Handler(op.kind, reply)
    case None => s.(reg := s.reg[op.sock := Registration(true, Record(op))])
    case Some(d) =>
      s.(fields := s.fields[op := d], mode := s.mode[op.fiber := Woken(op)], cur := Run(op.fiber))
  }

  function Apply(max: nat, s: State, st: Step): State
    requires Enabled(max, s, st)
  {
    match st
    case Open(k) => s.(reg := s.reg[k := Registration(true, Null)])
    case RunFiber(f) => s.(cur := Run(f))
    case Yield(f, next) => s.(cur := next)
    case Start(op, next) =>
      s.(reg := s.reg[op.sock := Registration(true, Record(op))], fields := s.fields[op := CLEAR],
         mode := s.mode[op.fiber := Inside(op)], cur := next)
    case ReturnAtOnce(op) => TakeMail(s.(fields := s.fields[op := CLEAR]), op, CLEAR)
    case SendEvent(f, g) => Wake(Mailed(s, g), g)
    case Expire(g) => Wake(Expired(s, g), g)
    case Fetch(sources) => s.(batch := FetchedFrom(s.reg, sources), reg := Disarmed(s.reg, sources))
    case Dispatch(reply) =>
      var rest := s.(batch := s.batch[1..]);
      match s.batch[0] {
        case Notice(targets) =>
          if targets == [] then rest
          else Wake(Mailed(s.(batch := [Notice(targets[1..])] + s.batch[1..]), targets[0]), targets[0])
        case Pointed(p) => if p.Null? then rest else Handled(rest, p.op, reply)
      }
    case Return(f) => Returned(s, s.mode[f].op)
  }

  // ---------------------------------------------------------------------------------------------
  // runs

  function After(max: nat, steps: seq<Step>): Option<State> {
    if steps == [] then Some(Init())
    else
      match After(max, steps[..|steps| - 1])
      case None => None
      case Some(s) =>
        var st := steps[|steps| - 1];
        if Enabled(max, s, st) then Some(Apply(max, s, st)) else None
  }

  /** The call has not returned, so its record is valid memory. */
  predicate Live(s: State, op: Op) {
    ModeOf(s.mode, op.fiber) == Inside(op) || ModeOf(s.mode, op.fiber) == Woken(op)
  }

  /** The next event to dispatch is the record of a call that has returned. */
  predicate Dangling(s: State) {
    HoldsRecord(s.batch) && !Live(s, s.batch[0].ptr.op)
  }

  // ---------------------------------------------------------------------------------------------
  // what every step keeps

  /** Fibers and their calls. */
  ghost predicate Scheduled(cur: Current, mode: map<Fiber, Mode>, fields: map<Op, Fields>,
      reg: map<Socket, Registration>) {
    && (forall f :: f in mode && mode[f] != Ready ==>
          mode[f].op.fiber == f && mode[f].op in fields && mode[f].op.sock in reg)
    && (forall f :: f in mode && mode[f].Woken? ==> cur == Run(f))
    && (forall f :: f in mode && mode[f].Inside? ==> cur != Run(f) && !fields[mode[f].op].done)
  }

  /** An armed registration points to a call that is suspended, or that an event woke and that will replace
      the pointer before it returns. */
  predicate Safe(mode: map<Fiber, Mode>, fields: map<Op, Fields>, op: Op) {
    ModeOf(mode, op.fiber) == Inside(op) ||
    (ModeOf(mode, op.fiber) == Woken(op) && op.kind.Receives() && !Get(fields, op, CLEAR).done)
  }

  ghost predicate Pointers(reg: map<Socket, Registration>, mode: map<Fiber, Mode>, fields: map<Op, Fields>) {
    forall k :: k in reg && reg[k].armed && reg[k].ptr.Record? ==>
      reg[k].ptr.op.sock == k && Safe(mode, fields, reg[k].ptr.op)
  }

  predicate HoldsRecord(batch: seq<Fetched>) {
    batch != [] && batch[0].Pointed? && batch[0].ptr.Record?
  }

  /** At most one event is in hand; a record in hand belongs to a suspended call, and is not armed. */
  ghost predicate OneFetched(batch: seq<Fetched>, cur: Current, mode: map<Fiber, Mode>,
                             reg: map<Socket, Registration>)
  {
    && |batch| <= 1
    && (HoldsRecord(batch) ==>
          var op := batch[0].ptr.op;
          cur == Main && ModeOf(mode, op.fiber) == Inside(op) && op.sock in reg &&
              reg[op.sock] != Registration(true, Record(op)))
  }

  /** A receiving call is suspended only while its fiber has neither event nor timer, and is woken without a
      socket event only when there is one. */
  ghost predicate MailSeen(mode: map<Fiber, Mode>, fields: map<Op, Fields>, mail: map<Fiber, nat>,
      timers: map<Fiber, nat>) {
    forall f :: f in mode && mode[f] != Ready && mode[f].op.kind.Receives() ==>
      if mode[f].Inside? then !HasMail(mail, timers, f)
      else Get(fields, mode[f].op, CLEAR).done || HasMail(mail, timers, f)
  }

  /** A receive succeeded exactly if it delivered something, and failed only if the socket did. */
  predicate Explained(op: Op, o: Outcome) {
    op.kind.Recv? ==>
      && (o.fields.result == Success <==> o.fields.bytes > 0 || o.fields.peer || o.event || o.timer)
      && (o.fields.result != Success ==> o.fields.done)
  }

  predicate Filled(op: Op, d: Fields) {
    op.kind.Recv? ==> (d.result == Success <==> d.bytes > 0 || d.peer)
  }

  ghost predicate Delivered(fields: map<Op, Fields>, outcome: map<Op, Outcome>) {
    && (forall op :: op in fields ==> Filled(op, fields[op]))
    && (forall op :: op in outcome ==> Explained(op, outcome[op]))
  }

  ghost predicate Inv(s: State) {
    && Scheduled(s.cur, s.mode, s.fields, s.reg) && Pointers(s.reg, s.mode, s.fields)
    && OneFetched(s.batch, s.cur, s.mode, s.reg) && MailSeen(s.mode, s.fields, s.mail, s.timers)
    && Delivered(s.fields, s.outcome)
  }

  // ---------------------------------------------------------------------------------------------
  // resuming and returning

  /** `g` gets an event or a timer while it is suspended in the receiving call `op`. */
  lemma WokenByMail(s: State, g: Fiber, op: Op, mail: map<Fiber, nat>, timers: map<Fiber, nat>)
    requires Inv(s) && ModeOf(s.mode, g) == Inside(op) && op.kind.Receives()
    requires HasMail(mail, timers, g) && forall f :: f != g ==> HasMail(mail, timers, f) == HasMail(s.mail, s.timers, f)
    requires s.cur.Run? ==> ModeOf(s.mode, s.cur.f) == Ready
    ensures Scheduled(Run(g), s.mode[g := Woken(op)], s.fields, s.reg)
    ensures Pointers(s.reg, s.mode[g := Woken(op)], s.fields)
    ensures MailSeen(s.mode[g := Woken(op)], s.fields, mail, timers)
  {
    hide HasMail, Delivered, OneFetched;
    assert Scheduled(Run(g), s.mode[g := Woken(op)], s.fields, s.reg) by { hide Pointers, MailSeen; }
    assert Pointers(s.reg, s.mode[g := Woken(op)], s.fields) by { hide MailSeen; }
  }

  /** A fiber event or timer for `g`, which resumes `g` if it is suspended in a receiving call. */
  lemma KeepsWake(s: State, g: Fiber, s1: State)
    requires Inv(s) && (s1 == Mailed(s, g) || s1 == Expired(s, g))
    requires !HoldsRecord(s.batch)
    requires s.cur.Run? ==> ModeOf(s.mode, s.cur.f) == Ready
    ensures Inv(Wake(s1, g))
  {
    assert HasMail(s1.mail, s1.timers, g);
    assert forall f :: f != g ==> HasMail(s1.mail, s1.timers, f) == HasMail(s.mail, s.timers, f);
    if Recving(ModeOf(s.mode, g)) {
      hide Scheduled, Pointers, MailSeen, Delivered, HasMail;
      WokenByMail(s, g, s.mode[g].op, s1.mail, s1.timers);
    } else {
      hide Scheduled, Pointers, Delivered, HasMail;
    }
  }

  /** The fiber of `op` leaves its call, when no armed registration points to it any more. */
  lemma LeavesCall(s: State, op: Op)
    requires Scheduled(s.cur, s.mode, s.fields, s.reg) && Pointers(s.reg, s.mode, s.fields)
    requires OneFetched(s.batch, s.cur, s.mode, s.reg)
    requires s.cur == Run(op.fiber) && (ModeOf(s.mode, op.fiber) == Ready || ModeOf(s.mode, op.fiber) == Woken(op))
    requires forall k :: k in s.reg && s.reg[k].armed ==> s.reg[k].ptr != Record(op)
    ensures var mode := s.mode[op.fiber := Ready];
            Scheduled(s.cur, mode, s.fields, s.reg) && Pointers(s.reg, mode, s.fields) &&
                OneFetched(s.batch, s.cur, mode, s.reg)
  {
  }

  lemma KeepsTakeMail(s: State, op: Op, d: Fields)
    requires Scheduled(s.cur, s.mode, s.fields, s.reg) && Pointers(s.reg, s.mode, s.fields)
    requires OneFetched(s.batch, s.cur, s.mode, s.reg) && MailSeen(s.mode, s.fields, s.mail, s.timers)
    requires Delivered(s.fields, s.outcome)
    requires s.cur == Run(op.fiber) && (ModeOf(s.mode, op.fiber) == Ready || ModeOf(s.mode, op.fiber) == Woken(op))
    requires forall k :: k in s.reg && s.reg[k].armed ==> s.reg[k].ptr != Record(op)
    requires Filled(op, d) && (op.kind.Recv? && d.result != Success ==> d.done || HasMail(s.mail, s.timers, op.fiber))
    ensures Inv(TakeMail(s, op, d))
  {
    hide Scheduled, Pointers, OneFetched;
    LeavesCall(s, op);
    var s' := TakeMail(s, op, d);
    assert forall f :: f != op.fiber ==> HasMail(s'.mail, s'.timers, f) == HasMail(s.mail, s.timers, f);
    assert Delivered(s'.fields, s'.outcome) by { hide MailSeen; }
    assert MailSeen(s'.mode, s'.fields, s'.mail, s'.timers) by { hide Delivered, HasMail, Filled, Explained; }
  }

  /** The handler completes `op` and its fiber runs. */
  lemma KeepsCompleted(s: State, op: Op, d: Fields)
    requires Inv(s) && s.cur == Main && ModeOf(s.mode, op.fiber) == Inside(op)
    requires op.sock in s.reg && s.reg[op.sock] != Registration(true, Record(op))
    requires op.kind.Receives() ==> d.done
    ensures var mode, fields := s.mode[op.fiber := Woken(op)], s.fields[op := d];
            && Scheduled(Run(op.fiber), mode, fields, s.reg) && Pointers(s.reg, mode, fields)
            && MailSeen(mode, fields, s.mail, s.timers)
  {
    hide HasMail, Delivered, OneFetched;
    var mode, fields := s.mode[op.fiber := Woken(op)], s.fields[op := d];
    assert Scheduled(Run(op.fiber), mode, fields, s.reg) by { hide Pointers, MailSeen; }
    assert Pointers(s.reg, mode, fields) by { hide MailSeen; }
    assert MailSeen(mode, fields, s.mail, s.timers) by { hide Pointers; }
  }

  lemma KeepsHandled(s: State, op: Op, reply: Reply)
    requires Inv(s) && s.batch == [] && s.cur == Main
    requires ModeOf(s.mode, op.fiber) == Inside(op) && op.sock in s.reg &&
             s.reg[op.sock] != Registration(true, Record(op))
    ensures Inv(Handled(s, op, reply))
  {
    match Handler(op.kind, reply) {
      case Some(d) =>
        assert Filled(op, d) && (op.kind.Receives() ==> d.done);
        hide Handler, HasMail, Explained, Scheduled, Pointers, MailSeen;
        KeepsCompleted(s, op, d);
      case None =>
        hide Handler, MailSeen, Delivered;
    }
  }

  // ---------------------------------------------------------------------------------------------
  // each step keeps the invariant

  /** The fiber of the new call `op` enters it: `op` is armed and not in progress, and nothing is in hand. */
  lemma EntersCall(s: State, op: Op, next: Current)
    requires Inv(s) && s.cur == Run(op.fiber) && ModeOf(s.mode, op.fiber) == Ready
    requires op !in s.fields && op.sock in s.reg && next != Run(op.fiber) && CanRun(s, next)
    ensures var mode, fields, reg := s.mode[op.fiber := Inside(op)], s.fields[op := CLEAR],
            s.reg[op.sock := Registration(true, Record(op))];
            Scheduled(next, mode, fields, reg) && OneFetched(s.batch, next, mode, reg) && Pointers(reg, mode, fields)
  {
    hide MailSeen, Delivered, HasMail;
    var mode, fields, reg := s.mode[op.fiber := Inside(op)], s.fields[op := CLEAR],
        s.reg[op.sock := Registration(true, Record(op))];
    assert !HoldsRecord(s.batch) by { hide Scheduled, Pointers; }
    assert OneFetched(s.batch, next, mode, reg) by { hide Scheduled, Pointers; }
    hide OneFetched;
    assert Scheduled(next, mode, fields, reg) by { hide Pointers; }
    assert Pointers(reg, mode, fields) by { hide CanRun; }
  }

  lemma EntersMail(s: State, op: Op)
    requires MailSeen(s.mode, s.fields, s.mail, s.timers) && Delivered(s.fields, s.outcome) && op !in s.fields
    requires op.kind.Receives() ==> !HasMail(s.mail, s.timers, op.fiber)
    requires forall f :: f in s.mode && s.mode[f] != Ready ==> s.mode[f].op in s.fields
    ensures MailSeen(s.mode[op.fiber := Inside(op)], s.fields[op := CLEAR], s.mail, s.timers)
    ensures Delivered(s.fields[op := CLEAR], s.outcome)
  {
    hide HasMail, Explained;
  }

  lemma KeepsStart(s: State, op: Op, next: Current, max: nat)
    requires Inv(s) && Enabled(max, s, Start(op, next))
    ensures Inv(Apply(max, s, Start(op, next)))
  {
    assert forall f :: f in s.mode && s.mode[f] != Ready ==> s.mode[f].op in s.fields;
    hide Scheduled, Pointers, OneFetched, MailSeen, Delivered, HasMail, CanRun;
    EntersCall(s, op, next);
    EntersMail(s, op);
  }

  lemma KeepsReturnAtOnce(s: State, op: Op, max: nat)
    requires Inv(s) && Enabled(max, s, ReturnAtOnce(op))
    ensures Inv(Apply(max, s, ReturnAtOnce(op)))
  {
    hide HasMail, TakeMail, Explained;
    var s1 := s.(fields := s.fields[op := CLEAR]);
    KeepsTakeMail(s1, op, CLEAR);
  }

  lemma KeepsRunning(s: State, st: Step, max: nat)
    requires Inv(s) && Enabled(max, s, st) && (st.Open? || st.RunFiber? || st.Yield?)
    ensures Inv(Apply(max, s, st))
  {
    hide MailSeen, Delivered;
  }

  lemma KeepsMail(s: State, st: Step, max: nat)
    requires Inv(s) && Enabled(max, s, st) && (st.SendEvent? || st.Expire?)
    ensures Inv(Apply(max, s, st))
  {
    hide Scheduled, Pointers, MailSeen, Delivered, Wake, Mailed, Expired;
    KeepsWake(s, st.g, if st.SendEvent? then Mailed(s, st.g) else Expired(s, st.g));
  }

  lemma KeepsFetch(s: State, sources: seq<Source>, max: nat)
    requires Inv(s) && Enabled(max, s, Fetch(sources)) && max <= 1
    ensures Inv(Apply(max, s, Fetch(sources)))
  {
    hide MailSeen, Delivered;
  }

  lemma KeepsDispatch(s: State, reply: Reply, max: nat)
    requires Inv(s) && Enabled(max, s, Dispatch(reply))
    ensures Inv(Apply(max, s, Dispatch(reply)))
  {
    hide Handled, Wake, Mailed, Scheduled, Pointers, MailSeen, Delivered;
    var rest := s.(batch := s.batch[1..]);
    if s.batch[0].Notice? {
      var ts := s.batch[0].targets;
      if ts != [] {
        var s1 := s.(batch := [Notice(ts[1..])] + s.batch[1..]);
        assert Inv(s1);
        KeepsWake(s1, ts[0], Mailed(s1, ts[0]));
      }
    } else if s.batch[0].ptr.Record? {
      KeepsHandled(rest, s.batch[0].ptr.op, reply);
    }
  }

  lemma KeepsReturn(s: State, f: Fiber, max: nat)
    requires Inv(s) && Enabled(max, s, Return(f))
    ensures Inv(Apply(max, s, Return(f)))
  {
    var op := s.mode[f].op;
    var d := s.fields[op];
    if op.kind.Receives() {
      hide TakeMail, HasMail, Explained;
      var s1 := if d.done then s else s.(reg := s.reg[op.sock := Registration(true, Null)]);
      KeepsTakeMail(s1, op, d);
    } else {
      hide MailSeen;
    }
  }

  lemma StepKeeps(max: nat, s: State, st: Step)
    requires Inv(s) && Enabled(max, s, st) && max <= 1
    ensures Inv(Apply(max, s, st))
  {
    hide Inv, Enabled, Apply;
    match st {
      case Start(op, next) => KeepsStart(s, op, next, max);
      case ReturnAtOnce(op) => KeepsReturnAtOnce(s, op, max);
      case Fetch(sources) => KeepsFetch(s, sources, max);
      case Dispatch(reply) => KeepsDispatch(s, reply, max);
      case Return(f) => KeepsReturn(s, f, max);
      case SendEvent(_, _) => KeepsMail(s, st, max);
      case Expire(_) => KeepsMail(s, st, max);
      case _ => KeepsRunning(s, st, max);
    }
  }

  lemma {:induction false} RunKeeps(max: nat, steps: seq<Step>)
    requires max <= 1
    ensures After(max, steps).Some? ==> Inv(After(max, steps).value)
  {
    if steps != [] {
      hide Inv, Enabled, Apply;
      RunKeeps(max, steps[..|steps| - 1]);
      if After(max, steps).Some? {
        StepKeeps(max, After(max, steps[..|steps| - 1]).value, steps[|steps| - 1]);
      }
    }
  }

  // ---------------------------------------------------------------------------------------------
  // no record outlives its call

  /** In every run with batches of one event, every pointer that the kernel may still report or that is in
      hand is the null event or the record of a call that has not returned, even if several calls share a
      socket. */
  lemma PointersAreLive(steps: seq<Step>)
    requires After(1, steps).Some?
    ensures var s := After(1, steps).value;
            && !Dangling(s)
            && (forall k :: k in s.reg && s.reg[k].armed && s.reg[k].ptr.Record? ==> Live(s, s.reg[k].ptr.op))
  {
    RunKeeps(1, steps);
    hide Scheduled, MailSeen, Delivered;
  }

  lemma Extend(max: nat, steps: seq<Step>, s: State, st: Step)
    requires After(max, steps) == Some(s) && Enabled(max, s, st)
    ensures After(max, steps + [st]) == Some(Apply(max, s, st))
  {
    assert (steps + [st])[..|steps|] == steps;
  }

  lemma BothFetched(max: nat, op: Op) returns (steps: seq<Step>, s: State)
    requires max >= 2 && op == Op(0, Recv, 0, 0)
    ensures After(max, steps) == Some(s) && s.cur == Main && s.mode == map[0 := Inside(op)]
    ensures s.batch == [Notice([0]), Pointed(Record(op))] && s.fields == map[op := CLEAR]
  {
    var fetched := [Queued([0]), Armed(0)];
    var s0 := Init();
    Extend(max, [], s0, Open(0));
    var s1 := Apply(max, s0, Open(0));
    Extend(max, [Open(0)], s1, RunFiber(0));
    var s2 := s1.(cur := Run(0));
    steps := [Open(0)] + [RunFiber(0)];
    Extend(max, steps, s2, Start(op, Main));
    var s3 := Apply(max, s2, Start(op, Main));
    steps := steps + [Start(op, Main)];
    assert s3.reg[0] == Registration(true, Record(op));
    Extend(max, steps, s3, Fetch(fetched));
    s := Apply(max, s3, Fetch(fetched));
    steps := steps + [Fetch(fetched)];
  }

  /** With larger batches: an event for a receiving fiber and its socket are fetched together; the event
      makes the call return, and then the socket's entry points to a record that is gone. */
  lemma LargerBatchDangles(max: nat) returns (steps: seq<Step>)
    requires max >= 2
    ensures After(max, steps).Some? && Dangling(After(max, steps).value)
  {
    var op := Op(0, Recv, 0, 0);
    var s: State;
    steps, s := BothFetched(max, op);
    Extend(max, steps, s, Dispatch(WouldBlock));
    var s1 := Apply(max, s, Dispatch(WouldBlock));
    assert [0 as Fiber][1..] == [];
    assert s1.cur == Run(0) && s1.mode[0] == Woken(op) && s1.batch == [Notice([]), Pointed(Record(op))];
    steps := steps + [Dispatch(WouldBlock)];
    Extend(max, steps, s1, Return(0));
    var s2 := Apply(max, s1, Return(0));
    assert s2.cur == Run(0) && s2.mode[0] == Ready && s2.batch == s1.batch;
    steps := steps + [Return(0)];
    Extend(max, steps, s2, Yield(0, Main));
    var s3 := s2.(cur := Main);
    steps := steps + [Yield(0, Main)];
    Extend(max, steps, s3, Dispatch(WouldBlock));
    steps := steps + [Dispatch(WouldBlock)];
    assert s3.batch[1..] == [Pointed(Record(op))];
  }

  /** The poller is safe in every run exactly if it fetches at most one event at a time. */
  lemma BatchOfOneExactly(max: nat)
    ensures (forall steps :: After(max, steps).Some? ==> !Dangling(After(max, steps).value)) <==> max <= 1
  {
    if max <= 1 {
      forall steps | After(max, steps).Some? ensures !Dangling(After(max, steps).value) {
        hide Scheduled, Pointers, MailSeen, Delivered, After;
        RunKeeps(max, steps);
      }
    } else {
      hide After, Dangling;
      var steps := LargerBatchDangles(max);
    }
  }

  // ---------------------------------------------------------------------------------------------
  // no call is forgotten

  /** The kernel will report the call, or its event is in hand. */
  predicate Remembered(reg: map<Socket, Registration>, batch: seq<Fetched>, op: Op) {
    (op.sock in reg && reg[op.sock] == Registration(true, Record(op))) || batch == [Pointed(Record(op))]
  }

  ghost predicate AllRemembered(mode: map<Fiber, Mode>, reg: map<Socket, Registration>, batch: seq<Fetched>) {
    forall f :: f in mode && mode[f].Inside? ==> Remembered(reg, batch, mode[f].op)
  }

  /** No two calls in progress are on the same socket. */
  ghost predicate Exclusive(mode: map<Fiber, Mode>) {
    forall f, g ::
      f in mode && g in mode && mode[f] != Ready && mode[g] != Ready && mode[f].op.sock == mode[g].op.sock ==> f == g
  }

  /** Every state of the run is exclusive. */
  ghost predicate OnePerSocket(max: nat, steps: seq<Step>) {
    After(max, steps).Some? && Exclusive(After(max, steps).value.mode) &&
    (steps != [] ==> OnePerSocket(max, steps[..|steps| - 1]))
  }

  ghost predicate Remembers(s: State) {
    AllRemembered(s.mode, s.reg, s.batch)
  }

  lemma StartRemembers(s: State, op: Op, next: Current)
    requires Enabled(1, s, Start(op, next)) && Remembers(s) && Exclusive(Apply(1, s, Start(op, next)).mode)
    ensures Remembers(Apply(1, s, Start(op, next)))
  {
    hide HasMail;
    var mode := s.mode[op.fiber := Inside(op)];
    var reg := s.reg[op.sock := Registration(true, Record(op))];
    assert Exclusive(mode);
    forall g | g in mode && mode[g].Inside? ensures Remembered(reg, s.batch, mode[g].op) {
      if g != op.fiber { assert mode[op.fiber].op == op; }
    }
  }

  lemma FetchRemembers(s: State, sources: seq<Source>)
    requires Enabled(1, s, Fetch(sources)) && Remembers(s)
    ensures Remembers(Apply(1, s, Fetch(sources)))
  {
    assert FetchedFrom(s.reg, sources) == [FetchedFrom(s.reg, sources)[0]];
  }

  lemma HandledRemembers(s: State, op: Op, reply: Reply)
    requires AllRemembered(s.mode, s.reg, [Pointed(Record(op))]) && s.batch == []
    requires ModeOf(s.mode, op.fiber) == Inside(op) && Exclusive(s.mode) && op.sock in s.reg
    ensures Remembers(Handled(s, op, reply))
  {
    hide Handler;
  }

  lemma DispatchRemembers(s: State, reply: Reply)
    requires Inv(s) && Enabled(1, s, Dispatch(reply)) && Remembers(s) && Exclusive(s.mode)
    ensures Remembers(Apply(1, s, Dispatch(reply)))
  {
    hide Scheduled, Pointers, MailSeen, Delivered, Exclusive, Handled;
    if HoldsRecord(s.batch) {
      var op := s.batch[0].ptr.op;
      assert s.batch == [Pointed(Record(op))];
      HandledRemembers(s.(batch := s.batch[1..]), op, reply);
    }
  }

  lemma ReturnRemembers(s: State, f: Fiber)
    requires Inv(s) && Enabled(1, s, Return(f)) && Remembers(s) && Exclusive(s.mode)
    ensures Remembers(Apply(1, s, Return(f)))
  {
    hide Pointers, MailSeen, Delivered, HasMail, OneFetched;
  }

  lemma StepRemembers(s: State, st: Step)
    requires Inv(s) && Enabled(1, s, st) && Remembers(s) && Exclusive(s.mode) && Exclusive(Apply(1, s, st).mode)
    ensures Remembers(Apply(1, s, st))
  {
    hide Scheduled, Pointers, OneFetched, MailSeen, Delivered, HasMail, Exclusive;
    match st {
      case Fetch(sources) => FetchRemembers(s, sources);
      case Dispatch(reply) => DispatchRemembers(s, reply);
      case Return(f) => ReturnRemembers(s, f);
      case Start(op, next) => StartRemembers(s, op, next);
      case _ =>
    }
  }

  /** A call that starts on the socket of a suspended one takes its registration away. */
  lemma StartForgets(s: State, op: Op, next: Current)
    requires Inv(s) && Enabled(1, s, Start(op, next)) && Exclusive(s.mode) && Remembers(Apply(1, s, Start(op, next)))
    ensures Exclusive(Apply(1, s, Start(op, next)).mode)
  {
    hide Pointers, MailSeen, Delivered, HasMail;
    var mode := s.mode[op.fiber := Inside(op)];
    var reg := s.reg[op.sock := Registration(true, Record(op))];
    assert AllRemembered(mode, reg, s.batch);
    forall g | g in s.mode && g != op.fiber && s.mode[g] != Ready ensures s.mode[g].op.sock != op.sock {
      assert mode[g] == s.mode[g] && s.mode[g].Inside?;
      assert Remembered(reg, s.batch, s.mode[g].op);
      assert s.mode[g].op.fiber == g;
    }
  }

  /** Every call in progress was in progress before. */
  ghost predicate NoneStarts(mode: map<Fiber, Mode>, mode': map<Fiber, Mode>) {
    forall f :: f in mode' && mode'[f] != Ready ==> f in mode && mode[f] != Ready && mode[f].op == mode'[f].op
  }

  lemma WakeStartsNone(s: State, g: Fiber)
    ensures NoneStarts(s.mode, Wake(s, g).mode)
  {
  }

  lemma ReturnedStartsNone(s: State, op: Op)
    ensures NoneStarts(s.mode, Returned(s, op).mode)
  {
  }

  lemma DispatchStartsNone(s: State, reply: Reply)
    requires Inv(s) && Enabled(1, s, Dispatch(reply))
    ensures NoneStarts(s.mode, Apply(1, s, Dispatch(reply)).mode)
  {
    hide Scheduled, Pointers, MailSeen, Delivered, Wake, Handler;
    if s.batch[0].Notice? && s.batch[0].targets != [] {
      var ts := s.batch[0].targets;
      WakeStartsNone(Mailed(s.(batch := [Notice(ts[1..])] + s.batch[1..]), ts[0]), ts[0]);
    }
  }

  /** No other step brings two calls together. */
  lemma StaysExclusive(s: State, st: Step)
    requires Inv(s) && Enabled(1, s, st) && Exclusive(s.mode) && !st.Start?
    ensures Exclusive(Apply(1, s, st).mode)
  {
    assert NoneStarts(s.mode, Apply(1, s, st).mode) by {
      hide Inv, HasMail, Wake, Returned, Exclusive;
      match st {
        case SendEvent(_, g) => WakeStartsNone(Mailed(s, g), g);
        case Expire(g) => WakeStartsNone(Expired(s, g), g);
        case Dispatch(reply) => DispatchStartsNone(s, reply);
        case Return(f) => ReturnedStartsNone(s, s.mode[f].op);
        case _ =>
      }
    }
    hide Inv, Enabled, Apply;
  }

  /** Every state of the run holds every suspended call. */
  ghost predicate AlwaysRemembers(max: nat, steps: seq<Step>) {
    After(max, steps).Some? && Remembers(After(max, steps).value) &&
    (steps != [] ==> AlwaysRemembers(max, steps[..|steps| - 1]))
  }

  /** The kernel or the poller holds every suspended call throughout a run exactly if there is at most one
      call per socket at any time in it. */
  lemma {:induction false} NoneForgotten(steps: seq<Step>)
    requires After(1, steps).Some?
    ensures AlwaysRemembers(1, steps) <==> OnePerSocket(1, steps)
  {
    if steps != [] {
      var prefix, st := steps[..|steps| - 1], steps[|steps| - 1];
      hide Inv, Enabled, Apply, Remembers, Exclusive;
      NoneForgotten(prefix);
      RunKeeps(1, prefix);
      var s := After(1, prefix).value;
      if OnePerSocket(1, steps) {
        StepRemembers(s, st);
      } else if AlwaysRemembers(1, steps) {
        if st.Start? { StartForgets(s, st.op, st.next); } else { StaysExclusive(s, st); }
      }
    }
  }

  /** Two calls on one socket: the second replaces the registration of the first, which stays suspended. */
  lemma SharedSocketForgets() returns (steps: seq<Step>)
    ensures After(1, steps).Some? && !Remembers(After(1, steps).value)
  {
    var a, b := Op(0, Send, 0, 0), Op(1, Recv, 0, 1);
    var s0 := Init();
    Extend(1, [], s0, Open(0));
    var s1 := Apply(1, s0, Open(0));
    Extend(1, [Open(0)], s1, RunFiber(0));
    var s2 := Apply(1, s1, RunFiber(0));
    steps := [Open(0)] + [RunFiber(0)];
    Extend(1, steps, s2, Start(a, Run(1)));
    var s3 := Apply(1, s2, Start(a, Run(1)));
    steps := steps + [Start(a, Run(1))];
    Extend(1, steps, s3, Start(b, Main));
    var s4 := Apply(1, s3, Start(b, Main));
    steps := steps + [Start(b, Main)];
    assert s4.mode[0] == Inside(a) && s4.reg[0] == Registration(true, Record(b));
  }

  // ---------------------------------------------------------------------------------------------
  // receiving

  /** Over every run: a receive returns success exactly if it delivers bytes, a socket, a fiber event or a
      timer, in whatever order these arrive, and any other result only after the socket was read. */
  lemma ReceiveDelivers(steps: seq<Step>, op: Op)
    requires After(1, steps).Some? && op in After(1, steps).value.outcome && op.kind.Recv?
    ensures var o := After(1, steps).value.outcome[op];
            && (o.fields.result == Success <==> o.fields.bytes > 0 || o.fields.peer || o.event || o.timer)
            && (o.fields.result != Success ==> o.fields.done)
  {
    hide Scheduled, MailSeen, Pointers, OneFetched;
    RunKeeps(1, steps);
  }

  /** Over every run: a fiber suspended in a receiving call has neither a fiber event nor a timer, whatever
      arrived between its first look and its suspension. */
  lemma ReceiverHasNoMail(steps: seq<Step>, f: Fiber)
    requires After(1, steps).Some? && Recving(ModeOf(After(1, steps).value.mode, f))
    ensures !HasMail(After(1, steps).value.mail, After(1, steps).value.timers, f)
  {
    hide Scheduled, Delivered, Pointers, OneFetched;
    RunKeeps(1, steps);
  }
}
