/** Order over whole runs: every event list passes on, in order, exactly what the steps of the run give it. What
    they give it is read off the steps, and what they take off it from the places that records leave. */
module FiberIoHistory {
  import opened Basics
  import opened FiberIo
  import opened FiberIoInvariant
  import opened FiberIoRuns
  import opened FiberIoSafety
  import opened FiberIoCompletion
  import opened FiberIoStations

  // ---------------------------------------------------------------------------------------------
  // what a step gives to a list, and what it takes off

  ghost predicate Leaves(s: State, s': State, e: Event, p: Place) {
    p.IsList() && e in s.place && s.place[e] == p && e in s'.place && s'.place[e] != p
  }

  /** The records that a step takes off the list `p`, in order: a poller takes a whole queue to its local list,
      and everything else leaves one by one. */
  ghost function TakenBy(s: State, st: Step, s': State, p: Place): seq<Event> {
    if st.MoveAll? then if p == Queue(st.ch, st.t) then Seq(s.lists, p) else []
    else if exists e :: Leaves(s, s', e, p) then var e :| Leaves(s, s', e, p); [e]
    else []
  }

  /** Where the record of a completed operation goes, if its owner's poller is to resume the owner. */
  function Home(e: Event): Option<Place> {
    match e.Owner() case None => None case Some(f) => Some(Queue(Finished, f.home))
  }

  /** The list that a step hands the record `e` to. */
  function HandsTo(s: State, st: Step, e: Event): Option<Place> {
    match st
    case SubmitFile(_, x) => if x == e then Some(WorkQueue) else None
    case SendRemote(_, x) => if x == e && e.Message? then Some(Queue(Events, e.dst.home)) else None
    case SendLocal(_, x) => if x == e && e.Message? then Some(Mailbox(e.dst)) else None
    case SendWaking(_, x) => if x == e && e.Message? then Some(Mailbox(e.dst)) else None
    case RequestTask(_, x) => if x == e && e.TaskRequest? then Some(Queue(Events, e.task)) else None
    case RequestExit(_, x) => if x == e && e.ExitRequest? then Some(Queue(Events, e.task)) else None
    case FinishThere(_, x) => if x == e then Home(e) else None
    case FinishWork(w) => if Get(s.wkr, w, Free) == Handled(e) then Home(e) else None
    case Answer(t) => if Get(s.pc, t, Idle) == Answering(e) then Home(e) else None
    case _ => None
  }

  /** A record that a poller takes off its local list for the mailbox `p`. */
  ghost predicate Delivered(s: State, s': State, e: Event, p: Place) {
    p.Mailbox? && Leaves(s, s', e, Local(Events, p.f.home)) && s'.place[e] == p
  }

  /** What a step gives to the list `p`: a record that it hands over, a whole queue, or one that it delivers. */
  ghost function GivenBy(s: State, st: Step, s': State, p: Place): seq<Event> {
    if st.MoveAll? then if p == Local(st.ch, st.t) then Seq(s.lists, Queue(st.ch, st.t)) else []
    else if exists e :: HandsTo(s, st, e) == Some(p) then var e :| HandsTo(s, st, e) == Some(p); [e]
    else if exists e :: Delivered(s, s', e, p) then var e :| Delivered(s, s', e, p); [e]
    else []
  }

  /** What a list holds before a step and is given by it is what the step takes off, followed by what it holds
      then. */
  ghost predicate Flows(s: State, st: Step, s': State) {
    forall p :: TakenBy(s, st, s', p) + Seq(s'.lists, p) == Seq(s.lists, p) + GivenBy(s, st, s', p)
  }

  // ---------------------------------------------------------------------------------------------
  // each step

  /** The list that the moved record leaves. */
  function From(place: map<Event, Place>, m: Move): Option<Place> {
    if m.Move? && m.e in place && place[m.e].IsList() then Some(place[m.e]) else None
  }

  function To(m: Move): Option<Place> {
    if m.Move? && m.to.IsList() then Some(m.to) else None
  }

  function Relisted(lists: map<Place, seq<Event>>, from: Option<Place>, m: Move): map<Place, seq<Event>>
    requires from.Some? ==> Seq(lists, from.value) != []
  {
    var rest := if from.Some? then Drop(lists, from.value) else lists;
    if To(m).Some? then Put(rest, m.to, m.e) else rest
  }

  /** The moved record is the first of the list that it leaves. */
  ghost predicate FromHead(s: State, m: Move) {
    var p := From(s.place, m);
    p.Some? ==> Seq(s.lists, p.value) != [] && Seq(s.lists, p.value)[0] == m.e
  }

  /** A record that leaves no list but goes to one is handed over; one that leaves a list for another is
      delivered. */
  ghost predicate Handed(s: State, st: Step, m: Move) {
    && (forall e, p :: HandsTo(s, st, e) == Some(p) <==>
          m == Move(e, p) && p.IsList() && From(s.place, m) == None)
    && (From(s.place, m).Some? && To(m).Some? ==> m.to.Mailbox? && s.place[m.e] == Local(Events, m.to.f.home))
  }

  /** The only record that leaves a list is the moved one. */
  lemma MoveLeaves(s: State, s': State, m: Move, e: Event, p: Place)
    requires s'.place == Moved(s.place, m) && OnItsWay(s, m)
    ensures Leaves(s, s', e, p) <==> m.Move? && e == m.e && From(s.place, m) == Some(p)
  {
  }

  lemma MoveTakesOff(s: State, st: Step, s': State, m: Move, p: Place)
    requires !st.MoveAll? && s'.place == Moved(s.place, m) && OnItsWay(s, m)
    ensures TakenBy(s, st, s', p) == if From(s.place, m) == Some(p) then [m.e] else []
  {
    hide OnItsWay, Leaves, Moved, From;
    forall e { MoveLeaves(s, s', m, e, p); }
    MovedIfFrom(s.place, m);
    if From(s.place, m) == Some(p) { assert Leaves(s, s', m.e, p); }
  }

  lemma MovedIfFrom(place: map<Event, Place>, m: Move)
    ensures From(place, m).Some? ==> m.Move?
    ensures To(m).Some? ==> m.Move?
  {
  }

  /** The moved record is the only one that can be delivered. */
  lemma MoveDelivers(s: State, s': State, m: Move, e: Event, p: Place)
    requires s'.place == Moved(s.place, m) && OnItsWay(s, m)
    ensures Delivered(s, s', e, p) <==>
              m.Move? && e == m.e && p.Mailbox? && m.to == p && From(s.place, m) == Some(Local(Events, p.f.home))
  {
    hide OnItsWay;
    if p.Mailbox? { MoveLeaves(s, s', m, e, Local(Events, p.f.home)); }
  }

  lemma HandedOrDelivered(s: State, st: Step, s': State, m: Move, e: Event, p: Place)
    requires s'.place == Moved(s.place, m) && OnItsWay(s, m) && Handed(s, st, m)
    ensures HandsTo(s, st, e) == Some(p) <==> m.Move? && e == m.e && To(m) == Some(p) && From(s.place, m) == None
    ensures Delivered(s, s', e, p) <==> m.Move? && e == m.e && To(m) == Some(p) && From(s.place, m) != None
  {
    MoveDelivers(s, s', m, e, p);
    hide OnItsWay, Delivered, HandsTo, Moved;
  }

  lemma MoveGives(s: State, st: Step, s': State, m: Move, p: Place)
    requires !st.MoveAll? && s'.place == Moved(s.place, m) && OnItsWay(s, m) && Handed(s, st, m)
    ensures GivenBy(s, st, s', p) == if To(m) == Some(p) then [m.e] else []
  {
    hide OnItsWay, Delivered, HandsTo, Moved, Handed, From, To;
    forall e { HandedOrDelivered(s, st, s', m, e, p); }
    MovedIfFrom(s.place, m);
    if To(m) == Some(p) {
      assert HandsTo(s, st, m.e) == Some(p) || Delivered(s, s', m.e, p);
    }
  }

  /** What is taken and given, read off the move. */
  lemma MoveTakes(s: State, st: Step, s': State, m: Move, p: Place)
    requires !st.MoveAll? && s'.place == Moved(s.place, m) && OnItsWay(s, m) && Handed(s, st, m)
    ensures TakenBy(s, st, s', p) == if From(s.place, m) == Some(p) then [m.e] else []
    ensures GivenBy(s, st, s', p) == if To(m) == Some(p) then [m.e] else []
  {
    hide OnItsWay, HandsTo, Leaves, Handed, TakenBy, GivenBy, From, To, Moved;
    MoveTakesOff(s, st, s', m, p);
    MoveGives(s, st, s', m, p);
  }

  lemma ListsFlow(s: State, st: Step, s': State, m: Move)
    requires !st.MoveAll? && s'.place == Moved(s.place, m) && OnItsWay(s, m) && Handed(s, st, m)
    requires FromHead(s, m) && s'.lists == Relisted(s.lists, From(s.place, m), m)
    ensures Flows(s, st, s')
  {
    forall p ensures TakenBy(s, st, s', p) + Seq(s'.lists, p) == Seq(s.lists, p) + GivenBy(s, st, s', p) {
      MoveTakes(s, st, s', m, p);
      hide TakenBy, GivenBy, OnItsWay, Handed;
      if From(s.place, m) == Some(p) { assert [m.e] + Seq(s.lists, p)[1..] == Seq(s.lists, p); }
    }
  }

  lemma MoveAllFlows(s: State, st: Step, s': State)
    requires LocalsOf(s.lists, s.pc) && Enabled(s, st) && st.MoveAll? && s' == ApplyPoller(s, st)
    ensures Flows(s, st, s')
  {
    assert Seq(s.lists, Local(st.ch, st.t)) == [];
  }

  /** What every step but the move of a whole queue does to lists and places. */
  ghost predicate Steps(s: State, st: Step, s': State) {
    && Enabled(s, st)
    && var m := MoveOf(s, st);
       && s'.place == Moved(s.place, m) && OnItsWay(s, m) && Handed(s, st, m)
       && FromHead(s, m) && s'.lists == Relisted(s.lists, From(s.place, m), m)
  }

  /** The step hands nothing over. */
  predicate NoHand(st: Step) {
    !(st.SubmitFile? || st.SendRemote? || st.SendLocal? || st.SendWaking? || st.RequestTask? || st.RequestExit? ||
      st.FinishThere? || st.FinishWork? || st.Answer?)
  }

  lemma NoneHanded(s: State, st: Step)
    requires NoHand(st)
    ensures forall e :: HandsTo(s, st, e) == None
  {
  }

  lemma OneHanded(s: State, st: Step, x: Event)
    requires HandsTo(s, st, x).Some?
    ensures forall e :: HandsTo(s, st, e).Some? ==> e == x
  {
  }

  /** A step that moves nothing. */
  lemma StaySteps(s: State, st: Step, s': State)
    requires Enabled(s, st) && MoveOf(s, st) == NoMove && NoHand(st) && s'.place == s.place && s'.lists == s.lists
    ensures Steps(s, st, s')
  {
    hide Enabled, MoveOf, HandsTo, NoHand;
    NoneHanded(s, st);
  }

  /** A step that hands over a record that is on no list. */
  lemma HandSteps(s: State, st: Step, s': State, e: Event, p: Place)
    requires Enabled(s, st) && MoveOf(s, st) == Move(e, p) && p.IsList() && HandsTo(s, st, e) == Some(p)
    requires if e in s.place then !s.place[e].IsList() && Follows(e, s.place[e], p) else p == Start(e)
    requires s'.place == s.place[e := p] && s'.lists == Put(s.lists, p, e)
    ensures Steps(s, st, s')
  {
    hide Enabled, MoveOf, HandsTo, Follows, Start, Put, Drop;
    OneHanded(s, st, e);
  }

  /** A step that ends the way of a record that is in somebody's hand. */
  lemma EndSteps(s: State, st: Step, s': State, e: Event, q: Place)
    requires Enabled(s, st) && MoveOf(s, st) == Move(e, q) && !q.IsList() && NoHand(st)
    requires e in s.place && !s.place[e].IsList() && Follows(e, s.place[e], q)
    requires s'.place == s.place[e := q] && s'.lists == s.lists
    ensures Steps(s, st, s')
  {
    hide Enabled, MoveOf, HandsTo, NoHand, Follows, Start, Put, Drop;
    NoneHanded(s, st);
  }

  /** A step that takes the first record off a list, to a hand or to a mailbox. */
  lemma TakeSteps(s: State, st: Step, s': State, e: Event, p: Place, q: Place)
    requires Enabled(s, st) && MoveOf(s, st) == Move(e, q) && NoHand(st) && p.IsList()
    requires Seq(s.lists, p) != [] && Seq(s.lists, p)[0] == e && e in s.place && s.place[e] == p && Follows(e, p, q)
    requires q.IsList() ==> q.Mailbox? && p == Local(Events, q.f.home)
    requires s'.place == s.place[e := q]
    requires s'.lists == if q.IsList() then Put(Drop(s.lists, p), q, e) else Drop(s.lists, p)
    ensures Steps(s, st, s')
  {
    hide Enabled, MoveOf, HandsTo, NoHand, Follows, Start, Put, Drop;
    NoneHanded(s, st);
  }

  lemma SubmitSteps(s: State, st: Step, s': State)
    requires Enabled(s, st) && (st.SubmitFile? || st.RequestTask? || st.RequestExit?) && s' == ApplyFiber(s, st)
    ensures Steps(s, st, s')
  {
    hide Steps, Put;
    HandSteps(s, st, s', st.e, Start(st.e));
  }

  lemma SendSteps(s: State, st: Step, s': State)
    requires Enabled(s, st) && (st.SendRemote? || st.SendLocal? || st.SendWaking?) && s' == ApplyFiber(s, st)
    ensures Steps(s, st, s')
  {
    hide Steps, Put;
    HandSteps(s, st, s', st.e, Start(st.e));
  }

  lemma FinishThereSteps(s: State, st: Step, s': State)
    requires Enabled(s, st) && st.FinishThere? && s' == ApplyFiber(s, st)
    ensures Steps(s, st, s')
  {
    hide Steps, Put;
    HandSteps(s, st, s', st.e, Queue(Finished, st.e.Owner().value.home));
  }

  lemma FinishWorkSteps(s: State, st: Step, s': State)
    requires HandsKnown(s) && Enabled(s, st) && st.FinishWork? && s' == ApplyWorker(s, st)
    ensures Steps(s, st, s')
  {
    hide Steps, Put;
    var e := s.wkr[st.w].e;
    HandSteps(s, st, s', e, Queue(Finished, e.Owner().value.home));
  }

  lemma AnswerSteps(s: State, st: Step, s': State)
    requires HandsKnown(s) && Enabled(s, st) && st.Answer? && s' == ApplyPoller(s, st)
    ensures Steps(s, st, s')
  {
    hide Steps, Put;
    var e := s.pc[st.t].e;
    HandSteps(s, st, s', e, Queue(Finished, e.Owner().value.home));
  }

  lemma FreeSteps(s: State, st: Step, s': State)
    requires Placed(s.place, s.stored) && Enabled(s, st) && (st.FreeEvent? || st.FinishHere?)
    requires s' == ApplyFiber(s, st)
    ensures Steps(s, st, s')
  {
    hide Steps;
    assert PlaceOk(st.e, s.place[st.e], s.stored);
    EndSteps(s, st, s', st.e, if st.FreeEvent? then Freed else Done);
  }

  lemma ReceiveSteps(s: State, st: Step, s': State)
    requires ListsKnown(s) && Enabled(s, st) && st.Receive? && s' == ApplyFiber(s, st)
    ensures Steps(s, st, s')
  {
    hide Steps, Drop;
    TakeSteps(s, st, s', Seq(s.lists, Mailbox(st.f))[0], Mailbox(st.f), Held(st.f));
  }

  lemma PopWorkSteps(s: State, st: Step, s': State)
    requires ListsKnown(s) && Enabled(s, st) && st.PopWork? && s' == ApplyWorker(s, st)
    ensures Steps(s, st, s')
  {
    hide Steps, Drop;
    TakeSteps(s, st, s', Seq(s.lists, WorkQueue)[0], WorkQueue, AtWorker(st.w));
  }

  lemma PopFinishedSteps(s: State, st: Step, s': State)
    requires ListsKnown(s) && Enabled(s, st) && st.PopFinished? && s' == ApplyPoller(s, st)
    ensures Steps(s, st, s')
  {
    hide Steps, Drop;
    var p := Local(Finished, st.t);
    TakeSteps(s, st, s', Seq(s.lists, p)[0], p, Done);
  }

  lemma PopExitSteps(s: State, st: Step, s': State)
    requires ListsKnown(s) && Enabled(s, st) && st.PopExit? && s' == ApplyPoller(s, st)
    ensures Steps(s, st, s')
  {
    hide Steps, Drop;
    var p := Local(Events, st.t);
    TakeSteps(s, st, s', Seq(s.lists, p)[0], p, Freed);
  }

  lemma PopTaskSteps(s: State, st: Step, s': State)
    requires ListsKnown(s) && Enabled(s, st) && st.PopTask? && s' == ApplyPoller(s, st)
    ensures Steps(s, st, s')
  {
    hide Steps, Drop;
    var p := Local(Events, st.t);
    TakeSteps(s, st, s', Seq(s.lists, p)[0], p, AtPoller(st.t));
  }

  /** The message that a poller dispatches. */
  lemma MailToPop(s: State, st: Step, s': State) returns (e: Event)
    requires Enabled(s, st) && (st.PopMessage? || st.PopWaking?) && s' == ApplyPoller(s, st)
    ensures var p := Local(Events, st.t);
            && Seq(s.lists, p) != [] && e == Seq(s.lists, p)[0] && e.Message? && NoHand(st)
            && MoveOf(s, st) == Move(e, Mailbox(e.dst)) && s'.place == s.place[e := Mailbox(e.dst)]
            && s'.lists == Put(Drop(s.lists, p), Mailbox(e.dst), e)
  {
    hide Put, Drop;
    e := Seq(s.lists, Local(Events, st.t))[0];
  }

  lemma PopMailSteps(s: State, st: Step, s': State)
    requires ListsKnown(s) && Placed(s.place, s.stored) && Enabled(s, st) && (st.PopMessage? || st.PopWaking?)
    requires s' == ApplyPoller(s, st)
    ensures Steps(s, st, s')
  {
    hide Steps, Put, Drop, Enabled, ApplyPoller, MoveOf, NoHand;
    var p := Local(Events, st.t);
    var e := MailToPop(s, st, s');
    assert e in s.place && s.place[e] == p && PlaceOk(e, p, s.stored);
    TakeSteps(s, st, s', e, p, Mailbox(e.dst));
  }

  lemma FiberStaySteps(s: State, st: Step, s': State)
    requires Enabled(s, st) && (st.ReleaseSem? || st.Suspend? || st.Yield? || st.Return? || st.Block? || st.Write?)
    requires s' == ApplyFiber(s, st)
    ensures Steps(s, st, s')
  {
    hide Steps;
    StaySteps(s, st, s');
  }

  lemma WorkerStaySteps(s: State, st: Step, s': State)
    requires Enabled(s, st) && (st.Acquire? || st.Handle? || st.Spawn? || st.SpawnFails?)
    requires s' == ApplyWorker(s, st)
    ensures Steps(s, st, s')
  {
    hide Steps;
    StaySteps(s, st, s');
  }

  lemma PollerStaySteps(s: State, st: Step, s': State)
    requires Enabled(s, st) && (st.RunFiber? || st.Fetch? || st.ReadCount? || st.EndDrain?)
    requires s' == ApplyPoller(s, st)
    ensures Steps(s, st, s')
  {
    hide Steps;
    StaySteps(s, st, s');
  }

  lemma StepMoves(s: State, st: Step)
    requires Inv(s) && Enabled(s, st) && !st.MoveAll?
    ensures Steps(s, st, Apply(s, st))
  {
    hide ListsKnown, HandsKnown, OwnersKnown, Enabled, ApplyFiber, ApplyWorker, ApplyPoller, Placed, Steps;
    KnowAll(s);
    var s' := Apply(s, st);
    if PlacesStay(st) {
      if ByFiber(st) { FiberStaySteps(s, st, s'); }
      else if ByWorker(st) { WorkerStaySteps(s, st, s'); }
      else { PollerStaySteps(s, st, s'); }
    }
    else if st.SubmitFile? || st.RequestTask? || st.RequestExit? { SubmitSteps(s, st, s'); }
    else if st.SendRemote? || st.SendLocal? || st.SendWaking? { SendSteps(s, st, s'); }
    else if st.Receive? { ReceiveSteps(s, st, s'); }
    else if st.FreeEvent? || st.FinishHere? { FreeSteps(s, st, s'); }
    else if st.FinishThere? { FinishThereSteps(s, st, s'); }
    else if st.PopWork? { PopWorkSteps(s, st, s'); }
    else if st.FinishWork? { FinishWorkSteps(s, st, s'); }
    else if st.PopFinished? { PopFinishedSteps(s, st, s'); }
    else if st.PopExit? { PopExitSteps(s, st, s'); }
    else if st.PopTask? { PopTaskSteps(s, st, s'); }
    else if st.Answer? { AnswerSteps(s, st, s'); }
    else { PopMailSteps(s, st, s'); }
  }

  /** Every step lets every list flow in order. */
  lemma StepFlows(s: State, st: Step)
    requires Inv(s) && Enabled(s, st)
    ensures Flows(s, st, Apply(s, st))
  {
    hide Enabled, ApplyFiber, ApplyWorker, ApplyPoller, Flows, MoveOf, Moved, OnItsWay, Handed, FromHead, Relisted;
    if st.MoveAll? {
      hide LocalsOf;
      MoveAllFlows(s, st, Apply(s, st));
    } else {
      hide Inv;
      StepMoves(s, st);
      ListsFlow(s, st, Apply(s, st), MoveOf(s, st));
    }
  }

  // ---------------------------------------------------------------------------------------------
  // runs

  /** Everything that the steps of a run gave to the list `p`, in order. */
  ghost function Given(pool: Pool, steps: seq<Step>, p: Place): seq<Event>
    requires After(pool, steps).Some?
  {
    if steps == [] then []
    else
      var before, st := steps[..|steps| - 1], steps[|steps| - 1];
      Given(pool, before, p) + GivenBy(After(pool, before).value, st, After(pool, steps).value, p)
  }

  /** Everything that they took off it. */
  ghost function Taken(pool: Pool, steps: seq<Step>, p: Place): seq<Event>
    requires After(pool, steps).Some?
  {
    if steps == [] then []
    else
      var before, st := steps[..|steps| - 1], steps[|steps| - 1];
      Taken(pool, before, p) + TakenBy(After(pool, before).value, st, After(pool, steps).value, p)
  }

  /** In every run, every list is first in, first out, and loses nothing. */
  lemma {:induction false} FirstInFirstOut(pool: Pool, steps: seq<Step>, p: Place)
    requires After(pool, steps).Some?
    ensures Taken(pool, steps, p) + Seq(After(pool, steps).value.lists, p) == Given(pool, steps, p)
  {
    if steps != [] {
      var before, st := steps[..|steps| - 1], steps[|steps| - 1];
      var s, s' := After(pool, before).value, After(pool, steps).value;
      FirstInFirstOut(pool, before, p);
      RunKeeps(pool, before);
      hide Inv, Enabled, Apply, GivenBy, TakenBy;
      StepFlows(s, st);
      FlowsOn(Taken(pool, before, p), Seq(s.lists, p), Given(pool, before, p), TakenBy(s, st, s', p),
              Seq(s'.lists, p), GivenBy(s, st, s', p));
    }
  }

  lemma QueueThenLocal(s: State, m: Move, ch: Channel, t: Tid)
    requires OnItsWay(s, m)
    ensures From(s.place, m) == Some(Queue(ch, t)) <==> To(m) == Some(Local(ch, t))
  {
  }

  /** What a poller takes off a queue it gives to its local list. */
  lemma QueueToLocal(s: State, st: Step, ch: Channel, t: Tid)
    requires Inv(s) && Enabled(s, st)
    ensures TakenBy(s, st, Apply(s, st), Queue(ch, t)) == GivenBy(s, st, Apply(s, st), Local(ch, t))
  {
    if !st.MoveAll? {
      hide Inv, Enabled, Apply, MoveOf, Moved, FromHead, Relisted, TakenBy, GivenBy, HandsTo, OnItsWay,
           Handed, From, To;
      StepMoves(s, st);
      var m := MoveOf(s, st);
      MoveTakes(s, st, Apply(s, st), m, Queue(ch, t));
      MoveTakes(s, st, Apply(s, st), m, Local(ch, t));
      QueueThenLocal(s, m, ch, t);
    }
  }

  /** Of what was ever queued for a poller, in the order of the steps that queued it, what the poller has taken off
      its local list is the first part, the local list holds the next one, and the queue the last. */
  lemma {:induction false} PollerInOrder(pool: Pool, steps: seq<Step>, ch: Channel, t: Tid)
    requires After(pool, steps).Some?
    ensures var lists := After(pool, steps).value.lists;
            Given(pool, steps, Queue(ch, t)) ==
              Taken(pool, steps, Local(ch, t)) + Seq(lists, Local(ch, t)) + Seq(lists, Queue(ch, t))
  {
    FirstInFirstOut(pool, steps, Queue(ch, t));
    FirstInFirstOut(pool, steps, Local(ch, t));
    QueuesMoved(pool, steps, ch, t);
  }

  lemma {:induction false} QueuesMoved(pool: Pool, steps: seq<Step>, ch: Channel, t: Tid)
    requires After(pool, steps).Some?
    ensures Taken(pool, steps, Queue(ch, t)) == Given(pool, steps, Local(ch, t))
  {
    hide Inv, Enabled, Apply, TakenBy, GivenBy;
    if steps != [] {
      var before, st := steps[..|steps| - 1], steps[|steps| - 1];
      QueuesMoved(pool, before, ch, t);
      RunKeeps(pool, before);
      QueueToLocal(After(pool, before).value, st, ch, t);
    }
  }

  // ---------------------------------------------------------------------------------------------
  // every record goes its way

  lemma FollowsRanks(e: Event, p: Place, q: Place)
    requires Follows(e, p, q)
    ensures Rank(p) < Rank(q)
  {
  }

  lemma MoveAllMovesOn(s: State, st: Step, e: Event)
    requires ListsKnown(s) && Enabled(s, st) && st.MoveAll? && e in s.place
    ensures var place := ApplyPoller(s, st).place;
            e in place && (place[e] == s.place[e] || Follows(e, s.place[e], place[e]))
  {
  }

  lemma MoveAllAddsNone(s: State, st: Step, e: Event)
    requires Enabled(s, st) && st.MoveAll? && e in ApplyPoller(s, st).place
    ensures e in s.place
  {
  }

  /** Every record starts where its kind starts, goes from station to station as its kind goes, and is never
      forgotten, in any step of any run. */
  lemma RecordsMoveOn(s: State, st: Step, e: Event)
    requires Inv(s) && Enabled(s, st)
    ensures var place := Apply(s, st).place;
            && (e in s.place ==> e in place && (place[e] == s.place[e] || Follows(e, s.place[e], place[e])))
            && (e !in s.place && e in place ==> place[e] == Start(e))
  {
    hide Enabled, ApplyFiber, ApplyWorker, ApplyPoller, MoveOf, Handed, FromHead, Relisted, Follows;
    if st.MoveAll? {
      hide ListsKnown, HandsKnown, OwnersKnown;
      KnowAll(s);
      hide Inv;
      if e in s.place { MoveAllMovesOn(s, st, e); }
      if e in ApplyPoller(s, st).place { MoveAllAddsNone(s, st, e); }
    } else {
      hide Inv;
      StepMoves(s, st);
    }
  }

  /** What is given to a list is new to it. */
  lemma GivenNew(s: State, st: Step, p: Place)
    requires Inv(s) && Enabled(s, st)
    ensures var s' := Apply(s, st);
            && Distinct(GivenBy(s, st, s', p))
            && forall e :: e in GivenBy(s, st, s', p) ==>
                 e in s'.place && s'.place[e] == p && (e in s.place ==> Rank(s.place[e]) < Rank(p))
  {
    hide Enabled, ApplyFiber, ApplyWorker, ApplyPoller, MoveOf, Handed, FromHead, Relisted, Follows, Rank;
    var s' := Apply(s, st);
    if st.MoveAll? {
      MoveAllGivesNew(s, st, s', p);
    } else {
      hide Inv, TakenBy, GivenBy;
      StepMoves(s, st);
      var m := MoveOf(s, st);
      MoveTakes(s, st, s', m, p);
      if To(m) == Some(p) && m.e in s.place { FollowsRanks(m.e, s.place[m.e], p); }
    }
  }

  lemma MoveAllGivesNew(s: State, st: Step, s': State, p: Place)
    requires Linked(s.lists, s.place) && Enabled(s, st) && st.MoveAll? && s' == ApplyPoller(s, st)
    ensures Distinct(GivenBy(s, st, s', p))
    ensures forall e :: e in GivenBy(s, st, s', p) ==>
              e in s'.place && s'.place[e] == p && e in s.place && Rank(s.place[e]) < Rank(p)
  {
  }

  lemma RanksGrow(s: State, st: Step, e: Event)
    requires Inv(s) && Enabled(s, st) && e in s.place
    ensures e in Apply(s, st).place && Rank(s.place[e]) <= Rank(Apply(s, st).place[e])
  {
    hide Inv, Enabled, Apply, Follows, Rank;
    RecordsMoveOn(s, st, e);
    var q := Apply(s, st).place[e];
    if q != s.place[e] { FollowsRanks(e, s.place[e], q); }
  }

  /** What was ever given to a list has reached it or gone on. */
  lemma {:induction false} GivenReached(pool: Pool, steps: seq<Step>, p: Place, e: Event)
    requires After(pool, steps).Some? && e in Given(pool, steps, p)
    ensures var place := After(pool, steps).value.place; e in place && Rank(p) <= Rank(place[e])
  {
    hide Inv, Enabled, Apply, GivenBy, Rank;
    var before, st := steps[..|steps| - 1], steps[|steps| - 1];
    var s := After(pool, before).value;
    RunKeeps(pool, before);
    if e in Given(pool, before, p) {
      GivenReached(pool, before, p, e);
      RanksGrow(s, st, e);
    } else {
      GivenNew(s, st, p);
    }
  }

  /** No record is on any list twice in a run. */
  lemma {:induction false} NothingTwice(pool: Pool, steps: seq<Step>, p: Place)
    requires After(pool, steps).Some?
    ensures Distinct(Given(pool, steps, p)) && Distinct(Taken(pool, steps, p))
  {
    GivenOnce(pool, steps, p);
    FirstInFirstOut(pool, steps, p);
    assert forall i :: 0 <= i < |Taken(pool, steps, p)| ==> Taken(pool, steps, p)[i] == Given(pool, steps, p)[i];
  }

  lemma {:induction false} GivenOnce(pool: Pool, steps: seq<Step>, p: Place)
    requires After(pool, steps).Some?
    ensures Distinct(Given(pool, steps, p))
  {
    hide Inv, Enabled, Apply, GivenBy, Rank;
    if steps != [] {
      var before, st := steps[..|steps| - 1], steps[|steps| - 1];
      var s, s' := After(pool, before).value, After(pool, steps).value;
      GivenOnce(pool, before, p);
      RunKeeps(pool, before);
      GivenNew(s, st, p);
      forall e | e in Given(pool, before, p) ensures e !in GivenBy(s, st, s', p) {
        GivenReached(pool, before, p, e);
      }
      DistinctJoined(Given(pool, before, p), GivenBy(s, st, s', p));
    }
  }
}
