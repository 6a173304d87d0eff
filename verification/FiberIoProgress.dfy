/** Without fiber code the completion protocol comes to rest: each of its own steps uses up some of a finite
    amount of work. */
module FiberIoProgress {
  import opened Basics
  import opened Totals
  import opened FiberIo
  import opened FiberIoInvariant
  import opened FiberIoRuns
  import opened FiberIoSafety
  import opened FiberIoCompletion

  // ---------------------------------------------------------------------------------------------
  // the work left

  /** The steps that a record at `p` can still cause, without fiber code. */
  function PlaceCost(p: Place): nat {
    match p
    case WorkQueue => 10
    case AtWorker(_) => 8
    case Queue(ch, _) => if ch == Finished then 1 else 10
    case Local(ch, _) => if ch == Finished then 1 else 10
    case AtPoller(_) => 9
    case _ => 0
  }

  function PollerCost(m: Poller): nat {
    match m case HasRead(_) => 2 case Draining(_) => 1 case _ => 0
  }

  function WorkerCost(m: WorkerMode): nat {
    if m.Got? then 1 else 0
  }

  /** A counter that has been fetched costs one less than before. */
  function SignalCost(count: map<Signal, nat>, pc: map<Tid, Poller>, sg: Signal): nat {
    var c := Get(count, sg, 0);
    if c == 0 then 0 else 4 * c + if Get(pc, sg.t, Idle) == Fetched(sg.ch) then 0 else 1
  }

  ghost function SignalEnergy(count: map<Signal, nat>, pc: map<Tid, Poller>): nat {
    Total(count.Keys, sg => SignalCost(count, pc, sg))
  }

  ghost function Energy(s: State): nat {
    6 * |s.owes| + SignalEnergy(s.count, s.pc) + MapTotal(s.pc, PollerCost) + MapTotal(s.place, PlaceCost)
    + MapTotal(s.wkr, WorkerCost) + 3 * |s.semOwers| + 2 * s.sem + |s.tokens| + s.spawns
  }

  // ---------------------------------------------------------------------------------------------
  // how single changes act on it

  lemma PlaceEnergySet(place: map<Event, Place>, e: Event, p: Place)
    requires e in place
    ensures MapTotal(place[e := p], PlaceCost) + PlaceCost(place[e]) == MapTotal(place, PlaceCost) + PlaceCost(p)
  {
    MapTotalSet(place, PlaceCost, e, p);
  }

  lemma PollerEnergySet(pc: map<Tid, Poller>, t: Tid, m: Poller)
    ensures MapTotal(pc[t := m], PollerCost) + PollerCost(Get(pc, t, Idle)) == MapTotal(pc, PollerCost) + PollerCost(m)
  {
    MapTotalSet(pc, PollerCost, t, m);
  }

  lemma WorkerEnergySet(wkr: map<Wid, WorkerMode>, w: Wid, m: WorkerMode)
    ensures MapTotal(wkr[w := m], WorkerCost) + WorkerCost(Get(wkr, w, Free))
         == MapTotal(wkr, WorkerCost) + WorkerCost(m)
  {
    MapTotalSet(wkr, WorkerCost, w, m);
  }

  /** A counter changes. */
  lemma SignalEnergyCount(count: map<Signal, nat>, pc: map<Tid, Poller>, sg: Signal, n: nat)
    ensures SignalEnergy(count[sg := n], pc) + SignalCost(count, pc, sg)
         == SignalEnergy(count, pc) + SignalCost(count[sg := n], pc, sg)
  {
    var count' := count[sg := n];
    assert count'.Keys == count.Keys + {sg};
    TotalSet(count.Keys, x => SignalCost(count, pc, x), x => SignalCost(count', pc, x), sg);
  }

  /** A poller that has fetched nothing fetches nothing. */
  lemma SignalEnergySame(count: map<Signal, nat>, pc: map<Tid, Poller>, t: Tid, m: Poller)
    requires !Get(pc, t, Idle).Fetched? && !m.Fetched?
    ensures SignalEnergy(count, pc[t := m]) == SignalEnergy(count, pc)
  {
    var pc' := pc[t := m];
    TotalSame(count.Keys, x => SignalCost(count, pc, x), x => SignalCost(count, pc', x));
  }

  /** A poller fetches a positive counter, or goes on from one that is zero. */
  lemma SignalEnergyPoller(count: map<Signal, nat>, pc: map<Tid, Poller>, t: Tid, ch: Channel, m: Poller)
    requires Get(pc, t, Idle) == Fetched(ch) || m == Fetched(ch)
    requires Get(pc, t, Idle).Fetched? ==> Get(pc, t, Idle) == Fetched(ch)
    requires m.Fetched? ==> m == Fetched(ch)
    ensures SignalEnergy(count, pc[t := m]) + SignalCost(count, pc, Signal(ch, t))
         == SignalEnergy(count, pc) + SignalCost(count, pc[t := m], Signal(ch, t))
  {
    var pc', sg := pc[t := m], Signal(ch, t);
    if sg in count {
      assert count.Keys + {sg} == count.Keys;
      TotalSet(count.Keys, x => SignalCost(count, pc, x), x => SignalCost(count, pc', x), sg);
    } else {
      TotalSame(count.Keys, x => SignalCost(count, pc, x), x => SignalCost(count, pc', x));
    }
  }

  lemma RelabelEnergy(place: map<Event, Place>, q: seq<Event>, p: Place)
    requires forall e :: e in q && e in place ==> PlaceCost(place[e]) == PlaceCost(p)
    ensures MapTotal(Relabel(place, q, p), PlaceCost) == MapTotal(place, PlaceCost)
  {
    assert Relabel(place, q, p).Keys == place.Keys;
    MapTotalSame(place, Relabel(place, q, p), PlaceCost);
  }

  // ---------------------------------------------------------------------------------------------
  // each step uses some up

  /** Of what counts, only these parts may differ. */
  ghost predicate Changed(s: State, s': State, owes: map<Agent, Signal>, count: map<Signal, nat>, pc: map<Tid, Poller>,
                          place: map<Event, Place>) {
    && s'.owes == owes && s'.count == count && s'.pc == pc && s'.place == place && s'.wkr == s.wkr
    && s'.semOwers == s.semOwers && s'.sem == s.sem && s'.tokens == s.tokens && s'.spawns == s.spawns
  }

  lemma FallsReleaseSem(s: State, f: Fiber, s': State)
    requires Enabled(s, ReleaseSem(f)) && s' == ApplyFiber(s, ReleaseSem(f))
    ensures Energy(s') < Energy(s)
  {
    hide MapTotal, SignalEnergy;
  }

  lemma WriteChanges(s: State, a: Agent, s': State)
    requires Enabled(s, Write(a)) && s' == ApplyFiber(s, Write(a))
    ensures a in s.owes
    ensures Changed(s, s', s.owes - {a}, s.count[s.owes[a] := Get(s.count, s.owes[a], 0) + 1], s.pc, s.place)
  {
  }

  lemma FallsWrite(s: State, a: Agent, s': State)
    requires a in s.owes
    requires Changed(s, s', s.owes - {a}, s.count[s.owes[a] := Get(s.count, s.owes[a], 0) + 1], s.pc, s.place)
    ensures Energy(s') < Energy(s)
  {
    hide MapTotal, SignalEnergy;
    SizeOfDrop(s.owes, a);
    SignalEnergyCount(s.count, s.pc, s.owes[a], Get(s.count, s.owes[a], 0) + 1);
  }

  lemma FallsSpawn(s: State, st: Step, s': State)
    requires Enabled(s, st) && (st.Spawn? || st.SpawnFails?) && s' == ApplyWorker(s, st)
    ensures Energy(s') < Energy(s)
  {
    hide MapTotal, SignalEnergy;
  }

  lemma FallsAcquire(s: State, w: Wid, s': State)
    requires Enabled(s, Acquire(w)) && s' == ApplyWorker(s, Acquire(w))
    ensures Energy(s') < Energy(s)
  {
    hide MapTotal, SignalEnergy;
  }

  lemma FallsPopWork(s: State, w: Wid, s': State)
    requires Enabled(s, PopWork(w)) && s' == ApplyWorker(s, PopWork(w))
    requires Seq(s.lists, WorkQueue) != [] && HeadPlaced(s, WorkQueue)
    ensures Energy(s') < Energy(s)
  {
    var e := Seq(s.lists, WorkQueue)[0];
    hide MapTotal, SignalEnergy;
    PlaceEnergySet(s.place, e, AtWorker(w));
    WorkerEnergySet(s.wkr, w, Got(e));
  }

  lemma FallsHandle(s: State, w: Wid, s': State)
    requires Enabled(s, Handle(w)) && s' == ApplyWorker(s, Handle(w))
    ensures Energy(s') < Energy(s)
  {
    hide MapTotal, SignalEnergy;
    WorkerEnergySet(s.wkr, w, Handled(s.wkr[w].e));
  }

  lemma FallsFinishWork(s: State, w: Wid, s': State)
    requires HandsKnown(s) && Enabled(s, FinishWork(w)) && s' == ApplyWorker(s, FinishWork(w))
    ensures Energy(s') < Energy(s)
  {
    var e := s.wkr[w].e;
    assert e in s.place && s.place[e] == AtWorker(w);
    hide MapTotal, SignalEnergy, HandsKnown;
    var q := Queue(Finished, e.Owner().value.home);
    PlaceEnergySet(s.place, e, q);
    WorkerEnergySet(s.wkr, w, Free);
    SizeOfSet(s.owes, OfWorker(w), Signal(Finished, q.t));
  }

  lemma FallsFetch(s: State, t: Tid, ch: Channel, s': State)
    requires Enabled(s, Fetch(t, ch)) && s' == ApplyPoller(s, Fetch(t, ch))
    ensures Energy(s') < Energy(s)
  {
    hide MapTotal, SignalEnergy;
    PollerEnergySet(s.pc, t, Fetched(ch));
    SignalEnergyPoller(s.count, s.pc, t, ch, Fetched(ch));
  }

  lemma FallsReadCount(s: State, t: Tid, ch: Channel, s': State)
    requires Enabled(s, ReadCount(t, ch)) && s' == ApplyPoller(s, ReadCount(t, ch))
    requires Get(s.count, Signal(ch, t), 0) > 0
    ensures Energy(s') < Energy(s)
  {
    hide MapTotal, SignalEnergy;
    PollerEnergySet(s.pc, t, HasRead(ch));
    SignalEnergyCount(s.count, s.pc, Signal(ch, t), 0);
    SignalEnergyPoller(s.count[Signal(ch, t) := 0], s.pc, t, ch, HasRead(ch));
  }

  lemma FallsMoveAll(s: State, t: Tid, ch: Channel, s': State)
    requires Enabled(s, MoveAll(t, ch)) && s' == ApplyPoller(s, MoveAll(t, ch))
    requires MapTotal(s'.place, PlaceCost) == MapTotal(s.place, PlaceCost)
    ensures Energy(s') < Energy(s)
  {
    hide MapTotal, SignalEnergy;
    PollerEnergySet(s.pc, t, Draining(ch));
    SignalEnergySame(s.count, s.pc, t, Draining(ch));
  }

  lemma FallsEndDrain(s: State, t: Tid, ch: Channel, s': State)
    requires Enabled(s, EndDrain(t, ch)) && s' == ApplyPoller(s, EndDrain(t, ch))
    ensures Energy(s') < Energy(s)
  {
    hide MapTotal, SignalEnergy;
    PollerEnergySet(s.pc, t, Idle);
    SignalEnergySame(s.count, s.pc, t, Idle);
  }

  lemma PopFinishedChanges(s: State, t: Tid, s': State)
    requires Enabled(s, PopFinished(t)) && s' == ApplyPoller(s, PopFinished(t))
    ensures Get(s.pc, t, Idle) == Draining(Finished) && Seq(s.lists, Local(Finished, t)) != []
    ensures var e := Seq(s.lists, Local(Finished, t))[0];
            Changed(s, s', s.owes, s.count, s.pc, s.place[e := Done])
  {
  }

  /** A record leaves a drained list for good. */
  lemma FallsPop(s: State, e: Event, p: Place, s': State)
    requires e in s.place && s.place[e].Local? && PlaceCost(p) == 0
    requires Changed(s, s', s.owes, s.count, s.pc, s.place[e := p])
    ensures Energy(s') < Energy(s)
  {
    hide MapTotal, SignalEnergy;
    PlaceEnergySet(s.place, e, p);
  }

  lemma PopExitChanges(s: State, t: Tid, s': State)
    requires Enabled(s, PopExit(t)) && s' == ApplyPoller(s, PopExit(t))
    ensures Get(s.pc, t, Idle) == Draining(Events) && Seq(s.lists, Local(Events, t)) != []
    ensures var e := Seq(s.lists, Local(Events, t))[0];
            Changed(s, s', s.owes, s.count, s.pc[t := Exited], s.place[e := Freed])
  {
  }

  lemma FallsPopExit(s: State, t: Tid, e: Event, s': State)
    requires e in s.place && s.place[e] == Local(Events, t) && Get(s.pc, t, Idle) == Draining(Events)
    requires Changed(s, s', s.owes, s.count, s.pc[t := Exited], s.place[e := Freed])
    ensures Energy(s') < Energy(s)
  {
    hide MapTotal, SignalEnergy;
    PlaceEnergySet(s.place, e, Freed);
    PollerEnergySet(s.pc, t, Exited);
    SignalEnergySame(s.count, s.pc, t, Exited);
  }

  lemma PopTaskChanges(s: State, t: Tid, s': State)
    requires Enabled(s, PopTask(t)) && s' == ApplyPoller(s, PopTask(t))
    ensures Get(s.pc, t, Idle) == Draining(Events) && Seq(s.lists, Local(Events, t)) != []
    ensures var e := Seq(s.lists, Local(Events, t))[0];
            Changed(s, s', s.owes, s.count, s.pc[t := Answering(e)], s.place[e := AtPoller(t)])
  {
  }

  lemma FallsPopTask(s: State, t: Tid, e: Event, s': State)
    requires e in s.place && s.place[e] == Local(Events, t) && Get(s.pc, t, Idle) == Draining(Events)
    requires Changed(s, s', s.owes, s.count, s.pc[t := Answering(e)], s.place[e := AtPoller(t)])
    ensures Energy(s') < Energy(s)
  {
    hide MapTotal, SignalEnergy;
    PlaceEnergySet(s.place, e, AtPoller(t));
    PollerEnergySet(s.pc, t, Answering(e));
    SignalEnergySame(s.count, s.pc, t, Answering(e));
  }

  lemma PopMessageChanges(s: State, t: Tid, s': State)
    requires Enabled(s, PopMessage(t)) && s' == ApplyPoller(s, PopMessage(t))
    ensures Get(s.pc, t, Idle) == Draining(Events) && Seq(s.lists, Local(Events, t)) != []
    ensures var e := Seq(s.lists, Local(Events, t))[0];
            e.Message? && Changed(s, s', s.owes, s.count, s.pc, s.place[e := Mailbox(e.dst)])
  {
  }

  lemma PopWakingChanges(s: State, t: Tid, s': State)
    requires Enabled(s, PopWaking(t)) && s' == ApplyPoller(s, PopWaking(t))
    ensures Get(s.pc, t, Idle) == Draining(Events) && Seq(s.lists, Local(Events, t)) != []
    ensures var e := Seq(s.lists, Local(Events, t))[0];
            e.Message? && Changed(s, s', s.owes, s.count, s.pc, s.place[e := Mailbox(e.dst)])
  {
  }

  lemma AnswerChanges(s: State, t: Tid, s': State)
    requires Enabled(s, Answer(t)) && s' == ApplyPoller(s, Answer(t))
    ensures Get(s.pc, t, Idle).Answering? && s.pc[t].e.Owner().Some?
    ensures var e := s.pc[t].e; var q := Queue(Finished, e.Owner().value.home);
            Changed(s, s', s.owes[OfPoller(t) := Signal(Finished, q.t)], s.count, s.pc[t := Draining(Events)],
                    s.place[e := q])
  {
  }

  lemma FallsAnswer(s: State, t: Tid, e: Event, u: Tid, s': State)
    requires Get(s.pc, t, Idle) == Answering(e) && e in s.place && s.place[e] == AtPoller(t)
    requires Changed(s, s', s.owes[OfPoller(t) := Signal(Finished, u)], s.count, s.pc[t := Draining(Events)],
                     s.place[e := Queue(Finished, u)])
    ensures Energy(s') < Energy(s)
  {
    hide MapTotal, SignalEnergy;
    PlaceEnergySet(s.place, e, Queue(Finished, u));
    PollerEnergySet(s.pc, t, Draining(Events));
    SignalEnergySame(s.count, s.pc, t, Draining(Events));
    SizeOfSet(s.owes, OfPoller(t), Signal(Finished, u));
  }

  lemma AnswerHeld(s: State, t: Tid)
    requires HandsKnown(s) && Get(s.pc, t, Idle).Answering?
    ensures s.pc[t].e in s.place && s.place[s.pc[t].e] == AtPoller(t)
  {
  }

  /** The first record of a list is placed there. */
  lemma HeadOf(s: State, p: Place)
    requires ListsKnown(s) && Seq(s.lists, p) != []
    ensures HeadPlaced(s, p)
  {
  }

  lemma MoveAllEnergy(s: State, t: Tid, ch: Channel)
    requires ListsKnown(s) && Enabled(s, MoveAll(t, ch))
    ensures MapTotal(ApplyPoller(s, MoveAll(t, ch)).place, PlaceCost) == MapTotal(s.place, PlaceCost)
  {
    hide MapTotal;
    var q := Seq(s.lists, Queue(ch, t));
    assert forall e :: e in q ==> s.place[e] == Queue(ch, t);
    RelabelEnergy(s.place, q, Local(ch, t));
  }

  lemma FallsByPopWork(s: State, w: Wid, s': State)
    requires ListsKnown(s) && Enabled(s, PopWork(w)) && s' == ApplyWorker(s, PopWork(w))
    requires Seq(s.lists, WorkQueue) != []
    ensures Energy(s') < Energy(s)
  {
    hide ListsKnown, Energy, Enabled, ApplyWorker, HeadPlaced;
    HeadOf(s, WorkQueue);
    FallsPopWork(s, w, s');
  }

  lemma EnergyFallsByWorker(s: State, st: Step, s': State)
    requires ListsKnown(s) && HandsKnown(s) && Enabled(s, st) && ByWorker(st) && s' == ApplyWorker(s, st)
    requires st.PopWork? ==> Seq(s.lists, WorkQueue) != []
    ensures Energy(s') < Energy(s)
  {
    hide ListsKnown, HandsKnown, ApplyWorker, Energy, Enabled;
    match st {
      case Spawn => FallsSpawn(s, st, s');
      case SpawnFails => FallsSpawn(s, st, s');
      case Acquire(w) => FallsAcquire(s, w, s');
      case PopWork(w) => FallsByPopWork(s, w, s');
      case Handle(w) => FallsHandle(s, w, s');
      case FinishWork(w) => FallsFinishWork(s, w, s');
    }
  }

  lemma WorkToPop(s: State, w: Wid)
    requires Enabled(s, PopWork(w))
    ensures Seq(s.lists, WorkQueue) != []
  {
  }

  lemma FallsByPopFinished(s: State, t: Tid, s': State)
    requires ListsKnown(s) && Enabled(s, PopFinished(t)) && s' == ApplyPoller(s, PopFinished(t))
    ensures Energy(s') < Energy(s)
  {
    PopFinishedChanges(s, t, s');
    hide Energy, Enabled, Changed, ListsKnown, ApplyPoller;
    HeadOf(s, Local(Finished, t));
    var e := Seq(s.lists, Local(Finished, t))[0];
    FallsPop(s, e, Done, s');
  }

  lemma FallsByPopExit(s: State, t: Tid, s': State)
    requires ListsKnown(s) && Enabled(s, PopExit(t)) && s' == ApplyPoller(s, PopExit(t))
    ensures Energy(s') < Energy(s)
  {
    PopExitChanges(s, t, s');
    hide Energy, Enabled, Changed, ListsKnown, ApplyPoller;
    HeadOf(s, Local(Events, t));
    var e := Seq(s.lists, Local(Events, t))[0];
    FallsPopExit(s, t, e, s');
  }

  lemma FallsByPopTask(s: State, t: Tid, s': State)
    requires ListsKnown(s) && Enabled(s, PopTask(t)) && s' == ApplyPoller(s, PopTask(t))
    ensures Energy(s') < Energy(s)
  {
    PopTaskChanges(s, t, s');
    hide Energy, Enabled, Changed, ListsKnown, ApplyPoller;
    HeadOf(s, Local(Events, t));
    var e := Seq(s.lists, Local(Events, t))[0];
    FallsPopTask(s, t, e, s');
  }

  lemma FallsByPopMessage(s: State, t: Tid, s': State)
    requires ListsKnown(s) && Enabled(s, PopMessage(t)) && s' == ApplyPoller(s, PopMessage(t))
    ensures Energy(s') < Energy(s)
  {
    PopMessageChanges(s, t, s');
    hide Energy, Enabled, Changed, ListsKnown, ApplyPoller;
    HeadOf(s, Local(Events, t));
    var e := Seq(s.lists, Local(Events, t))[0];
    FallsPop(s, e, Mailbox(e.dst), s');
  }

  lemma FallsByPopWaking(s: State, t: Tid, s': State)
    requires ListsKnown(s) && Enabled(s, PopWaking(t)) && s' == ApplyPoller(s, PopWaking(t))
    ensures Energy(s') < Energy(s)
  {
    PopWakingChanges(s, t, s');
    hide Energy, Enabled, Changed, ListsKnown, ApplyPoller;
    HeadOf(s, Local(Events, t));
    var e := Seq(s.lists, Local(Events, t))[0];
    FallsPop(s, e, Mailbox(e.dst), s');
  }

  lemma EnergyFallsByPoller(s: State, st: Step)
    requires ListsKnown(s) && HandsKnown(s) && Signalled(s.lists, s.count, s.pc, s.owes)
    requires Enabled(s, st) && !ByFiber(st) && !ByWorker(st) && !st.RunFiber?
    ensures Energy(ApplyPoller(s, st)) < Energy(s)
  {
    hide ListsKnown, HandsKnown, ApplyPoller, Energy, Enabled, Signalled, Changed;
    var s' := ApplyPoller(s, st);
    match st {
      case Fetch(t, ch) => FallsFetch(s, t, ch, s');
      case ReadCount(t, ch) => FetchedPositive(s, t, ch); FallsReadCount(s, t, ch, s');
      case MoveAll(t, ch) => MoveAllEnergy(s, t, ch); FallsMoveAll(s, t, ch, s');
      case EndDrain(t, ch) => FallsEndDrain(s, t, ch, s');
      case PopFinished(t) => FallsByPopFinished(s, t, s');
      case PopExit(t) => FallsByPopExit(s, t, s');
      case PopTask(t) => FallsByPopTask(s, t, s');
      case PopMessage(t) => FallsByPopMessage(s, t, s');
      case PopWaking(t) => FallsByPopWaking(s, t, s');
      case Answer(t) =>
        AnswerChanges(s, t, s');
        AnswerHeld(s, t);
        FallsAnswer(s, t, s.pc[t].e, s.pc[t].e.Owner().value.home, s');
    }
  }

  /** Every step of the protocol's own uses up some of the work left. */
  lemma EnergyFalls(s: State, st: Step)
    requires ListsKnown(s) && HandsKnown(s) && Signalled(s.lists, s.count, s.pc, s.owes)
    requires Enabled(s, st) && Internal(st)
    ensures Energy(Apply(s, st)) < Energy(s)
  {
    hide ListsKnown, HandsKnown, ApplyFiber, ApplyWorker, ApplyPoller, Energy, Enabled, Signalled, HeadPlaced, Changed;
    var s' := Apply(s, st);
    if st.ReleaseSem? { FallsReleaseSem(s, st.f, s'); }
    else if st.Write? { WriteChanges(s, st.a, s'); FallsWrite(s, st.a, s'); }
    else if ByWorker(st) {
      if st.PopWork? { WorkToPop(s, st.w); }
      EnergyFallsByWorker(s, st, s');
    }
    else { EnergyFallsByPoller(s, st); }
  }

  lemma KnowProgress(s: State)
    requires Inv(s)
    ensures ListsKnown(s) && HandsKnown(s) && Signalled(s.lists, s.count, s.pc, s.owes)
  {
    hide ListsKnown, HandsKnown, Signalled, OwnersKnown;
    KnowAll(s);
  }

  lemma FetchedPositive(s: State, t: Tid, ch: Channel)
    requires Signalled(s.lists, s.count, s.pc, s.owes) && Enabled(s, ReadCount(t, ch))
    ensures Get(s.count, Signal(ch, t), 0) > 0
  {
  }

  // ---------------------------------------------------------------------------------------------
  // runs without fiber code

  /** All the steps are internal. */
  predicate AllInternal(steps: seq<Step>) {
    forall i :: 0 <= i < |steps| ==> Internal(steps[i])
  }

  /** A run cannot go on for longer than its energy without fiber code. */
  lemma {:induction false} InternalRunsEnd(pool: Pool, steps: seq<Step>, more: seq<Step>)
    requires After(pool, steps).Some? && After(pool, steps + more).Some? && AllInternal(more)
    ensures Energy(After(pool, steps + more).value) + |more| <= Energy(After(pool, steps).value)
    decreases |more|
  {
    hide Inv, Enabled, Apply, Energy, Internal, ListsKnown, HandsKnown, Signalled;
    if more == [] {
      assert steps + more == steps;
    } else {
      var front, st := more[..|more| - 1], more[|more| - 1];
      assert (steps + more)[..|steps + more| - 1] == steps + front;
      InternalRunsEnd(pool, steps, front);
      RunKeeps(pool, steps + front);
      KnowProgress(After(pool, steps + front).value);
      EnergyFalls(After(pool, steps + front).value, st);
    }
  }

  /** From every state of a run, without any fiber code, the protocol comes to a state in which nothing but
      fiber code can move, whichever of its own steps it takes. */
  lemma {:induction false} ComesToRest(pool: Pool, steps: seq<Step>) returns (more: seq<Step>)
    requires After(pool, steps).Some?
    ensures AllInternal(more) && After(pool, steps + more).Some? && Settled(After(pool, steps + more).value)
    decreases Energy(After(pool, steps).value)
  {
    hide Inv, Enabled, Apply, Energy, Internal, ListsKnown, HandsKnown, Signalled;
    var s := After(pool, steps).value;
    if Settled(s) {
      more := [];
      assert steps + more == steps;
    } else {
      var st :| Internal(st) && Enabled(s, st);
      assert (steps + [st])[..|steps|] == steps;
      RunKeeps(pool, steps);
      KnowProgress(s);
      EnergyFalls(s, st);
      var rest := ComesToRest(pool, steps + [st]);
      more := [st] + rest;
      assert steps + [st] + rest == steps + more;
    }
  }

  /** In a run that has come to rest, every operation handed over has been served exactly once, unless it ends
      behind a fiber, with its receiver, with a poller that has exited, or without any worker. */
  lemma EveryRunServes(pool: Pool, steps: seq<Step>, e: Event)
    requires pool.max > 0 && After(pool, steps).Some? && Settled(After(pool, steps).value)
    requires e.Owner().Some? && e in After(pool, steps).value.place
    ensures var s := After(pool, steps).value; var p := s.place[e];
            Count(pool, steps, e).woken == 1 || WithReceiver(p, e) || BehindFiber(s.cur, p) ||
            WithExited(s.pc, p) || (p == WorkQueue && NoWorker(s))
  {
    hide Inv, Enabled, Apply, Settled, NoWorker;
    var s := After(pool, steps).value;
    assert Reachable(s);
    MaxKept(pool, steps);
    SettledMeansServed(s, e);
    ServedOnce(pool, steps, e);
    RunKeeps(pool, steps);
    NotFreed(s, e);
  }

  lemma NotFreed(s: State, e: Event)
    requires Inv(s) && e in s.place && e.Owner().Some?
    ensures s.place[e] != Freed
  {
    assert PlaceOk(e, s.place[e], s.stored);
  }

  predicate Creates(st: Step) {
    st.SubmitFile? || st.SendRemote? || st.SendLocal? || st.SendWaking? || st.RequestTask? || st.RequestExit?
  }

  lemma CreationKeepsMax(s: State, st: Step, s': State)
    requires Enabled(s, st) && Creates(st) && s' == ApplyFiber(s, st)
    ensures s'.max == s.max
  {
  }

  lemma FiberKeepsMax(s: State, st: Step, s': State)
    requires Enabled(s, st) && ByFiber(st) && !Creates(st) && s' == ApplyFiber(s, st)
    ensures s'.max == s.max
  {
  }

  lemma WorkerKeepsMax(s: State, st: Step, s': State)
    requires Enabled(s, st) && ByWorker(st) && s' == ApplyWorker(s, st)
    ensures s'.max == s.max
  {
  }

  lemma PollerKeepsMax(s: State, st: Step, s': State)
    requires Enabled(s, st) && !ByFiber(st) && !ByWorker(st) && s' == ApplyPoller(s, st)
    ensures s'.max == s.max
  {
  }

  lemma StepKeepsMax(s: State, st: Step)
    requires Enabled(s, st)
    ensures Apply(s, st).max == s.max
  {
    hide Enabled, ApplyFiber, ApplyWorker, ApplyPoller;
    var s' := Apply(s, st);
    if Creates(st) { CreationKeepsMax(s, st, s'); }
    else if ByFiber(st) { FiberKeepsMax(s, st, s'); }
    else if ByWorker(st) { WorkerKeepsMax(s, st, s'); }
    else { PollerKeepsMax(s, st, s'); }
  }

  lemma {:induction false} MaxKept(pool: Pool, steps: seq<Step>)
    requires After(pool, steps).Some?
    ensures After(pool, steps).value.max == pool.max
  {
    hide Enabled, Apply;
    if steps != [] {
      MaxKept(pool, steps[..|steps| - 1]);
      StepKeepsMax(After(pool, steps[..|steps| - 1]).value, steps[|steps| - 1]);
    }
  }
}
