/** The completion protocol between fibers, file-system workers and the pollers of task threads.

    Every thread runs one poller (its main fiber) and its own fibers. A step is one region that the
    code executes without interleaving: a locked region, one eventfd access, one semaphore access, or
    a stretch of fiber code between two scheduling points. Steps of different threads interleave freely. */
module FiberIo {
  import opened Basics

  type Tid = nat
  type Wid = nat

  /** A fiber and the task thread that owns it: fibers never migrate. */
  datatype Fiber = Fiber(home: Tid, id: nat)

  /** An I/O event record (`tt_io_ev_t`), identified by the fields that never change after its
      initialisation. `from` is the fiber that filled it. */
  datatype Event =
    | FileOp(id: nat, from: Fiber)
    | Message(id: nat, from: Fiber, dst: Fiber, wait: bool)
    | TaskRequest(id: nat, from: Fiber, task: Tid)
    | ExitRequest(id: nat, task: Tid)
  {
    /** The fiber in whose stack frame the record lives and which is resumed when it completes
        (`src`); a record with no source is on the heap. */
    function Owner(): Option<Fiber> {
      match this
      case FileOp(_, f) => Some(f)
      case Message(_, f, _, wait) => if wait then Some(f) else None
      case TaskRequest(_, f, _) => Some(f)
      case ExitRequest(_, _) => None
    }

    /** True of a fiber event that crosses threads and so travels through the target's poller queue. */
    predicate CrossesThreads() {
      Message? && from.home != dst.home
    }

    /** True of an event that may sit on the poller queue of thread `t`. */
    predicate PolledBy(t: Tid) {
      match this
      case FileOp(_, _) => false
      case Message(_, _, _, _) => CrossesThreads() && dst.home == t
      case TaskRequest(_, f, task) => task == t && f.home != t
      case ExitRequest(_, task) => task == t
    }
  }

  /** What a fiber is doing. `Ready` covers the running fiber and the scheduler's active list; the
      others say where in an operation the fiber is. */
  datatype Mode =
    | Ready
    | Submitted(op: Event)   // handed `op` over, has not suspended yet
    | Waiting(op: Event)     // suspended until `op` completes
    | Woken(op: Event)       // resumed, about to read the result and return from the operation
    | Receiving              // suspended with `recving` set, waiting for its mailbox

  datatype Current = Main | Run(f: Fiber)

  /** The two queues of a poller: `worker_ev` with its eventfd, and `poller_ev` with its eventfd. */
  datatype Channel = Finished | Events
  datatype Signal = Signal(ch: Channel, t: Tid)

  /** Where a poller is: waiting, between `epoll_wait` and the eventfd read, between the read and the
      locked move, draining its local list, or between handling a task request and answering it. */
  datatype Poller =
    Idle | Fetched(ch: Channel) | HasRead(ch: Channel) | Draining(ch: Channel) | Answering(e: Event) | Exited

  datatype WorkerMode = Free | Got(e: Event) | Handled(e: Event)

  /** Whoever may have pushed an event and not yet bumped the counter that announces it. */
  datatype Agent = OfFiber(f: Fiber) | OfWorker(w: Wid) | OfPoller(t: Tid) | Outside(n: nat)

  /** Where an event is. */
  datatype Place =
    | WorkQueue | AtWorker(w: Wid)
    | Queue(ch: Channel, t: Tid) | Local(ch: Channel, t: Tid) | AtPoller(t: Tid)
    | Mailbox(f: Fiber) | Held(f: Fiber)
    | Done | Freed
  {
    predicate IsList() {
      WorkQueue? || Queue? || Local? || Mailbox?
    }
  }

  /** The least and the largest number of workers of the group. */
  datatype Pool = Pool(min: nat, max: nat)

  /** - `cur`, `pc`, `mode`, `wkr`: who runs on each thread, and where each poller, fiber and worker is;
      - `max`, `reserved`, `spawns`, `failed`, `workers`: how many workers the group may have, how many it counts,
        how many are still to be created, could not be created, and run;
      - `sem`, `tokens`, `semOwers`: the worker semaphore, the workers between acquiring it and popping,
        and the fibers between queueing work and releasing it;
      - `owes`, `count`: the eventfd writes still to be done, and the eventfd counters;
      - `lists`, `place`: the contents of every event list, and where each event is;
      - `stored`: the operations whose result has been stored. */
  datatype State = State(
    cur: map<Tid, Current>, pc: map<Tid, Poller>, mode: map<Fiber, Mode>, wkr: map<Wid, WorkerMode>,
    max: nat, reserved: nat, spawns: nat, failed: nat, workers: nat,
    sem: nat, tokens: set<Wid>, semOwers: set<Fiber>,
    owes: map<Agent, Signal>, count: map<Signal, nat>,
    lists: map<Place, seq<Event>>, place: map<Event, Place>, stored: set<Event>)

  function Seq<K>(m: map<K, seq<Event>>, k: K): seq<Event> {
    Get(m, k, [])
  }

  /** Every thread polls with empty queues, every fiber is ready, every worker of the first ones is free. */
  function Init(pool: Pool): State {
    State(map[], map[], map[], map[], pool.max, pool.min, 0, 0, pool.min, 0,
          {}, {}, map[], map[], map[], map[], {})
  }

  // ---------------------------------------------------------------------------------------------
  // who may act

  /** Fiber `f` runs ordinary code: it is current on its thread, in no operation, and owes no signal. */
  predicate Running(s: State, f: Fiber) {
    Get(s.cur, f.home, Main) == Run(f) && f !in s.semOwers && OfFiber(f) !in s.owes
  }

  predicate RunningFree(s: State, f: Fiber) {
    Running(s, f) && Get(s.mode, f, Ready) == Ready
  }

  /** The poller of `t` runs and owes no signal. */
  predicate Polling(s: State, t: Tid, pc: Poller) {
    Get(s.cur, t, Main) == Main && OfPoller(t) !in s.owes && Get(s.pc, t, Idle) == pc
  }

  /** What the scheduler may run next on `t`: an active fiber or the main fiber. */
  predicate CanRun(s: State, t: Tid, c: Current) {
    c.Main? || (c.f.home == t && Get(s.mode, c.f, Ready) == Ready)
  }

  // ---------------------------------------------------------------------------------------------
  // state change

  /** Appends `e` to the sequence at `k`. */
  function Put<K>(m: map<K, seq<Event>>, k: K, e: Event): map<K, seq<Event>> {
    m[k := Seq(m, k) + [e]]
  }

  /** Drops the first element of the sequence at `k`. */
  function Drop<K>(m: map<K, seq<Event>>, k: K): map<K, seq<Event>>
    requires Seq(m, k) != []
  {
    m[k := Seq(m, k)[1..]]
  }

  function Relabel(place: map<Event, Place>, q: seq<Event>, p: Place): map<Event, Place> {
    map e | e in place :: if e in q then p else place[e]
  }

  /** The push that makes the queue `count` long counts one more worker if there may be more and the queue is
      longer than there are. */
  function ReservedAfter(max: nat, reserved: nat, count: nat): nat {
    if reserved < max && count > reserved then reserved + 1 else reserved
  }

  /** The slot of the worker that a push creates, if it is below `max`; the variable that holds it has 8 bits. */
  function SpawnSlot(max: nat, reserved: nat, count: nat): nat {
    (if reserved < max && count > reserved then reserved else max) % 256
  }

  /** How many workers a push goes on to create. */
  function SpawnsAfter(max: nat, reserved: nat, count: nat): nat {
    if SpawnSlot(max, reserved, count) < max then 1 else 0
  }

  /** A push creates a worker exactly if it counts one, for all group sizes below 256; from 256 on it also
      creates one that it does not count. */
  lemma SpawnsExactly(max: nat, reserved: nat, count: nat)
    ensures (SpawnsAfter(max, reserved, count) == 1 <==> ReservedAfter(max, reserved, count) == reserved + 1)
       <==> max < 256 || (reserved < max && count > reserved)
  {
  }

  /** The sender of a message goes to `m` if it waits for the reply. */
  function AfterSend(e: Event, m: Mode): Mode
    requires e.Message?
  {
    if e.wait then m else Ready
  }

  // ---------------------------------------------------------------------------------------------
  // transitions

  datatype Step =
    | SubmitFile(f: Fiber, e: Event)
    | ReleaseSem(f: Fiber)
    | SendRemote(f: Fiber, e: Event)
    | SendLocal(f: Fiber, e: Event)
    | SendWaking(f: Fiber, e: Event)
    | RequestTask(f: Fiber, e: Event)
    | RequestExit(a: Agent, e: Event)
    | Suspend(f: Fiber, next: Current)
    | Yield(f: Fiber, next: Current)
    | Return(f: Fiber)
    | Receive(f: Fiber)
    | Block(f: Fiber, next: Current)
    | FreeEvent(f: Fiber, e: Event)
    | FinishHere(f: Fiber, e: Event)
    | FinishThere(f: Fiber, e: Event)
    | Write(a: Agent)
    | Spawn
    | SpawnFails
    | Acquire(w: Wid)
    | PopWork(w: Wid)
    | Handle(w: Wid)
    | FinishWork(w: Wid)
    | RunFiber(t: Tid, f: Fiber)
    | Fetch(t: Tid, ch: Channel)
    | ReadCount(t: Tid, ch: Channel)
    | MoveAll(t: Tid, ch: Channel)
    | EndDrain(t: Tid, ch: Channel)
    | PopFinished(t: Tid)
    | PopExit(t: Tid)
    | PopTask(t: Tid)
    | PopMessage(t: Tid)
    | PopWaking(t: Tid)
    | Answer(t: Tid)

  predicate Enabled(s: State, st: Step) {
    match st
    case SubmitFile(f, e) =>
      RunningFree(s, f) && e.FileOp? && e.from == f && e !in s.place
    case ReleaseSem(f) =>
      f in s.semOwers
    case SendRemote(f, e) =>
      RunningFree(s, f) && e.CrossesThreads() && e.from == f && e !in s.place
    case SendLocal(f, e) =>
      RunningFree(s, f) && e.Message? && e.dst.home == f.home && e.from == f && e !in s.place &&
      Get(s.mode, e.dst, Ready) != Receiving
    case SendWaking(f, e) =>
      RunningFree(s, f) && e.Message? && e.dst.home == f.home && e.from == f && e !in s.place &&
      Get(s.mode, e.dst, Ready) == Receiving
    case RequestTask(f, e) =>
      RunningFree(s, f) && e.TaskRequest? && e.from == f && e !in s.place && e.task != f.home
    case RequestExit(a, e) =>
      a !in s.owes && (a.Outside? || (a.OfFiber? && RunningFree(s, a.f))) && e.ExitRequest? && e !in s.place
    case Suspend(f, next) =>
      Running(s, f) && Get(s.mode, f, Ready).Submitted? && CanRun(s, f.home, next)
    case Yield(f, next) =>
      RunningFree(s, f) && CanRun(s, f.home, next)
    case Return(f) =>
      Running(s, f) && Get(s.mode, f, Ready).Woken?
    case Receive(f) =>
      RunningFree(s, f) && Seq(s.lists, Mailbox(f)) != []
    case Block(f, next) =>
      RunningFree(s, f) && Seq(s.lists, Mailbox(f)) == [] && CanRun(s, f.home, next) && next != Run(f)
    case FreeEvent(f, e) =>
      RunningFree(s, f) && e in s.place && s.place[e] == Held(f) && e.Owner().None?
    case FinishHere(f, e) =>
      RunningFree(s, f) && e in s.place && s.place[e] == Held(f) && e.Owner().Some? && e.Owner().value.home == f.home
    case FinishThere(f, e) =>
      RunningFree(s, f) && e in s.place && s.place[e] == Held(f) && e.Owner().Some? && e.Owner().value.home != f.home
    case Write(a) =>
      a in s.owes
    case Spawn =>
      s.spawns > 0
    case SpawnFails =>
      s.spawns > 0
    case Acquire(w) =>
      w < s.workers && Get(s.wkr, w, Free) == Free && w !in s.tokens && OfWorker(w) !in s.owes && s.sem > 0
    case PopWork(w) =>
      w in s.tokens && Seq(s.lists, WorkQueue) != []
    case Handle(w) =>
      Get(s.wkr, w, Free).Got?
    case FinishWork(w) =>
      Get(s.wkr, w, Free).Handled? && s.wkr[w].e.Owner().Some?
    case RunFiber(t, f) =>
      Polling(s, t, Idle) && f.home == t && Get(s.mode, f, Ready) == Ready
    case Fetch(t, ch) =>
      Polling(s, t, Idle) && Get(s.count, Signal(ch, t), 0) > 0
    case ReadCount(t, ch) =>
      Polling(s, t, Fetched(ch))
    case MoveAll(t, ch) =>
      Polling(s, t, HasRead(ch))
    case EndDrain(t, ch) =>
      Polling(s, t, Draining(ch)) && Seq(s.lists, Local(ch, t)) == []
    case PopFinished(t) =>
      Polling(s, t, Draining(Finished)) && Seq(s.lists, Local(Finished, t)) != [] &&
      Seq(s.lists, Local(Finished, t))[0].Owner().Some?
    case PopExit(t) =>
      Polling(s, t, Draining(Events)) && Seq(s.lists, Local(Events, t)) != [] &&
      Seq(s.lists, Local(Events, t))[0].ExitRequest?
    case PopTask(t) =>
      Polling(s, t, Draining(Events)) && Seq(s.lists, Local(Events, t)) != [] &&
      Seq(s.lists, Local(Events, t))[0].TaskRequest?
    case PopMessage(t) =>
      Polling(s, t, Draining(Events)) && Seq(s.lists, Local(Events, t)) != [] &&
      var e := Seq(s.lists, Local(Events, t))[0]; e.Message? && Get(s.mode, e.dst, Ready) != Receiving
    case PopWaking(t) =>
      Polling(s, t, Draining(Events)) && Seq(s.lists, Local(Events, t)) != [] &&
      var e := Seq(s.lists, Local(Events, t))[0]; e.Message? && Get(s.mode, e.dst, Ready) == Receiving
    case Answer(t) =>
      Get(s.pc, t, Idle).Answering? && Polling(s, t, Get(s.pc, t, Idle)) && s.pc[t].e.Owner().Some?
  }

  predicate ByFiber(st: Step) {
    st.SubmitFile? || st.ReleaseSem? || st.SendRemote? || st.SendLocal? || st.SendWaking? || st.RequestTask? ||
    st.RequestExit? || st.Suspend? || st.Yield? || st.Return? || st.Receive? || st.Block? ||
    st.FreeEvent? || st.FinishHere? || st.FinishThere? || st.Write?
  }

  predicate ByWorker(st: Step) {
    st.Spawn? || st.SpawnFails? || st.Acquire? || st.PopWork? || st.Handle? || st.FinishWork?
  }

  function ApplyFiber(s: State, st: Step): State
    requires Enabled(s, st) && ByFiber(st)
  {
    match st
    case SubmitFile(f, e) =>
      s.(mode := s.mode[f := Submitted(e)], semOwers := s.semOwers + {f},
         lists := Put(s.lists, WorkQueue, e), place := s.place[e := WorkQueue],
         reserved := ReservedAfter(s.max, s.reserved, |Seq(s.lists, WorkQueue)| + 1),
         spawns := s.spawns + SpawnsAfter(s.max, s.reserved, |Seq(s.lists, WorkQueue)| + 1))
    case ReleaseSem(f) =>
      s.(semOwers := s.semOwers - {f}, sem := s.sem + 1)
    case SendRemote(f, e) =>
      var t := e.dst.home;
      s.(mode := s.mode[f := AfterSend(e, Submitted(e))],
         lists := Put(s.lists, Queue(Events, t), e), place := s.place[e := Queue(Events, t)],
         owes := s.owes[OfFiber(f) := Signal(Events, t)])
    case SendLocal(f, e) =>
      s.(mode := s.mode[f := AfterSend(e, Submitted(e))],
         lists := Put(s.lists, Mailbox(e.dst), e), place := s.place[e := Mailbox(e.dst)])
    case SendWaking(f, e) =>
      s.(mode := s.mode[f := AfterSend(e, Waiting(e))][e.dst := Ready], cur := s.cur[f.home := Run(e.dst)],
         lists := Put(s.lists, Mailbox(e.dst), e), place := s.place[e := Mailbox(e.dst)])
    case RequestTask(f, e) =>
      s.(mode := s.mode[f := Submitted(e)],
         lists := Put(s.lists, Queue(Events, e.task), e), place := s.place[e := Queue(Events, e.task)],
         owes := s.owes[OfFiber(f) := Signal(Events, e.task)])
    case RequestExit(a, e) =>
      s.(lists := Put(s.lists, Queue(Events, e.task), e), place := s.place[e := Queue(Events, e.task)],
         owes := s.owes[a := Signal(Events, e.task)])
    case Suspend(f, next) =>
      s.(mode := s.mode[f := Waiting(s.mode[f].op)], cur := s.cur[f.home := next])
    case Yield(f, next) =>
      s.(cur := s.cur[f.home := next])
    case Return(f) =>
      s.(mode := s.mode[f := Ready])
    case Receive(f) =>
      var e := Seq(s.lists, Mailbox(f))[0];
      s.(lists := Drop(s.lists, Mailbox(f)), place := s.place[e := Held(f)])
    case Block(f, next) =>
      s.(mode := s.mode[f := Receiving], cur := s.cur[f.home := next])
    case FreeEvent(f, e) =>
      s.(place := s.place[e := Freed])
    case FinishHere(f, e) =>
      s.(place := s.place[e := Done], mode := s.mode[e.Owner().value := Woken(e)],
         cur := s.cur[f.home := Run(e.Owner().value)])
    case FinishThere(f, e) =>
      var q := Queue(Finished, e.Owner().value.home);
      s.(lists := Put(s.lists, q, e), place := s.place[e := q],
         owes := s.owes[OfFiber(f) := Signal(Finished, q.t)])
    case Write(a) =>
      s.(owes := s.owes - {a}, count := s.count[s.owes[a] := Get(s.count, s.owes[a], 0) + 1])
  }

  function ApplyWorker(s: State, st: Step): State
    requires Enabled(s, st) && ByWorker(st)
  {
    match st
    case Spawn =>
      s.(spawns := s.spawns - 1, workers := s.workers + 1)
    case SpawnFails =>
      s.(spawns := s.spawns - 1, failed := s.failed + 1)
    case Acquire(w) =>
      s.(sem := s.sem - 1, tokens := s.tokens + {w})
    case PopWork(w) =>
      var e := Seq(s.lists, WorkQueue)[0];
      s.(lists := Drop(s.lists, WorkQueue), place := s.place[e := AtWorker(w)],
         tokens := s.tokens - {w}, wkr := s.wkr[w := Got(e)])
    case Handle(w) =>
      s.(wkr := s.wkr[w := Handled(s.wkr[w].e)], stored := s.stored + {s.wkr[w].e})
    case FinishWork(w) =>
      var e := s.wkr[w].e;
      var q := Queue(Finished, e.Owner().value.home);
      s.(lists := Put(s.lists, q, e), place := s.place[e := q], wkr := s.wkr[w := Free],
         owes := s.owes[OfWorker(w) := Signal(Finished, q.t)])
  }

  function ApplyPoller(s: State, st: Step): State
    requires Enabled(s, st) && !ByFiber(st) && !ByWorker(st)
  {
    match st
    case RunFiber(t, f) =>
      s.(cur := s.cur[t := Run(f)])
    case Fetch(t, ch) =>
      s.(pc := s.pc[t := Fetched(ch)])
    case ReadCount(t, ch) =>
      s.(pc := s.pc[t := HasRead(ch)], count := s.count[Signal(ch, t) := 0])
    case MoveAll(t, ch) =>
      var q := Seq(s.lists, Queue(ch, t));
      s.(pc := s.pc[t := Draining(ch)],
         lists := s.lists[Queue(ch, t) := []][Local(ch, t) := q],
         place := Relabel(s.place, q, Local(ch, t)))
    case EndDrain(t, ch) =>
      s.(pc := s.pc[t := Idle])
    case PopFinished(t) =>
      var e := Seq(s.lists, Local(Finished, t))[0];
      var g := e.Owner().value;
      s.(lists := Drop(s.lists, Local(Finished, t)), place := s.place[e := Done],
         mode := s.mode[g := Woken(e)], cur := s.cur[g.home := Run(g)])
    case PopExit(t) =>
      var e := Seq(s.lists, Local(Events, t))[0];
      s.(lists := Drop(s.lists, Local(Events, t)), place := s.place[e := Freed], pc := s.pc[t := Exited])
    case PopTask(t) =>
      var e := Seq(s.lists, Local(Events, t))[0];
      s.(lists := Drop(s.lists, Local(Events, t)), place := s.place[e := AtPoller(t)],
         pc := s.pc[t := Answering(e)])
    case PopMessage(t) =>
      var e := Seq(s.lists, Local(Events, t))[0];
      s.(lists := Put(Drop(s.lists, Local(Events, t)), Mailbox(e.dst), e), place := s.place[e := Mailbox(e.dst)])
    case PopWaking(t) =>
      var e := Seq(s.lists, Local(Events, t))[0];
      s.(lists := Put(Drop(s.lists, Local(Events, t)), Mailbox(e.dst), e), place := s.place[e := Mailbox(e.dst)],
         mode := s.mode[e.dst := Ready], cur := s.cur[e.dst.home := Run(e.dst)])
    case Answer(t) =>
      var e := s.pc[t].e;
      var q := Queue(Finished, e.Owner().value.home);
      s.(lists := Put(s.lists, q, e), place := s.place[e := q], stored := s.stored + {e},
         pc := s.pc[t := Draining(Events)], owes := s.owes[OfPoller(t) := Signal(Finished, q.t)])
  }

  function Apply(s: State, st: Step): State
    requires Enabled(s, st)
  {
    if ByFiber(st) then ApplyFiber(s, st) else if ByWorker(st) then ApplyWorker(s, st) else ApplyPoller(s, st)
  }
}
