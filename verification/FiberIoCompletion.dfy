/** Each operation completes exactly once, and none is left behind when nothing can move any more. */
module FiberIoCompletion {
  import opened Basics
  import opened FiberIo
  import opened FiberIoInvariant
  import opened FiberIoParts
  import opened FiberIoRuns
  import opened FiberIoSafety

  // ---------------------------------------------------------------------------------------------
  // exactly once

  /** The step runs the handler of `e`, which stores its result. */
  predicate Handles(s: State, st: Step, e: Event) {
    st.Handle? && Get(s.wkr, st.w, Free) == Got(e)
  }

  /** The step resumes the owner of `e` because `e` is complete. */
  predicate Wakes(s: State, st: Step, e: Event) {
    match st
    case PopFinished(t) => Seq(s.lists, Local(Finished, t)) != [] && Seq(s.lists, Local(Finished, t))[0] == e
    case FinishHere(f, x) => x == e
    case _ => false
  }

  /** The step returns from the call that `e` belongs to. */
  predicate Returns(s: State, st: Step, e: Event) {
    st.Return? && Get(s.mode, st.f, Ready) == Woken(e)
  }

  predicate CompletedIn(place: map<Event, Place>, e: Event) {
    e in place && place[e] == Done
  }

  predicate Completed(s: State, e: Event) {
    CompletedIn(s.place, e)
  }

  predicate ReturningIn(mode: map<Fiber, Mode>, e: Event) {
    e.Owner().Some? && Get(mode, e.Owner().value, Ready) == Woken(e)
  }

  predicate Returning(s: State, e: Event) {
    ReturningIn(s.mode, e)
  }

  /** The result of a file operation is stored only after a worker took it. */
  predicate ResultFresh(s: State, e: Event) {
    e.FileOp? && e in s.stored ==>
      e in s.place && s.place[e] != WorkQueue && (s.place[e].AtWorker? ==> Get(s.wkr, s.place[e].w, Free) == Handled(e))
  }

  ghost predicate ListsKnown(s: State) {
    && (forall p, x :: x in Seq(s.lists, p) ==> x in s.place && s.place[x] == p && p.IsList())
    && (forall p :: Seq(s.lists, p) != [] ==> HeadPlaced(s, p))
  }

  predicate HeadPlaced(s: State, p: Place)
    requires Seq(s.lists, p) != []
  {
    var x := Seq(s.lists, p)[0];
    x in s.place && s.place[x] == p && p.IsList()
  }

  ghost predicate HandsKnown(s: State) {
    && (forall w :: Get(s.wkr, w, Free) != Free ==> s.wkr[w].e in s.place && s.place[s.wkr[w].e] == AtWorker(w))
    && (forall e :: e in s.place && s.place[e].AtWorker? ==>
          s.place[e].w !in s.tokens && Get(s.wkr, s.place[e].w, Free) != Free && s.wkr[s.place[e].w].e == e)
    && (forall t :: Get(s.pc, t, Idle).Answering? ==>
          s.pc[t].e.TaskRequest? && s.pc[t].e in s.place && s.place[s.pc[t].e] == AtPoller(t))
  }

  ghost predicate OwnersKnown(s: State) {
    && (forall e :: e in s.place && e.Owner().Some? && s.place[e] != Done ==>
        Inside(Get(s.mode, e.Owner().value, Ready), e))
    && (forall g :: Get(s.mode, g, Ready).Woken? ==> s.mode[g].op.Owner() == Some(g))
  }

  lemma KnowLists(s: State)
    requires Linked(s.lists, s.place)
    ensures ListsKnown(s)
  {
    forall p | Seq(s.lists, p) != [] ensures HeadPlaced(s, p) {
      assert Seq(s.lists, p)[0] in s.lists[p];
    }
  }

  lemma KnowHands(s: State)
    requires InHand(s.place, s.wkr, s.pc, s.stored) && Placed(s.place, s.stored)
    requires SemCounted(Seq(s.lists, WorkQueue), s.sem, s.tokens, s.semOwers, s.wkr)
    ensures HandsKnown(s)
  {
    assert forall t :: Get(s.pc, t, Idle).Answering? ==> PlaceOk(s.pc[t].e, s.place[s.pc[t].e], s.stored);
  }

  lemma KnowOwners(s: State)
    requires Owned(s.place, s.mode)
    ensures OwnersKnown(s)
  {
  }

  lemma KnowAll(s: State)
    requires Inv(s)
    ensures ListsKnown(s) && HandsKnown(s) && OwnersKnown(s)
  {
    hide ListsKnown, HandsKnown, OwnersKnown;
    KnowLists(s);
    KnowHands(s);
    KnowOwners(s);
  }

  // An operation completes exactly by the step that wakes its owner.

  ghost predicate CompletedBy(s: State, st: Step, s': State, e: Event) {
    && (Completed(s', e) <==> Completed(s, e) || Wakes(s, st, e))
    && (Wakes(s, st, e) ==> !Completed(s, e))
  }

  /** A record that is not done gets a place that is not `Done`. */
  ghost predicate OnePlace(place: map<Event, Place>, place': map<Event, Place>, x: Event) {
    x in place' && place' == place[x := place'[x]] && place'[x] != Done && (x in place ==> place[x] != Done)
  }

  ghost predicate PlaceMoved(place: map<Event, Place>, place': map<Event, Place>) {
    place' == place || exists x :: OnePlace(place, place', x)
  }

  lemma PlaceSubmitted(s: State, st: Step, s': State)
    requires Enabled(s, st) && (st.SubmitFile? || st.RequestTask? || st.RequestExit?)
    requires s' == ApplyFiber(s, st)
    ensures PlaceMoved(s.place, s'.place)
  {
    assert OnePlace(s.place, s'.place, st.e);
  }

  lemma PlaceSent(s: State, st: Step, s': State)
    requires Enabled(s, st) && (st.SendRemote? || st.SendLocal? || st.SendWaking?)
    requires s' == ApplyFiber(s, st)
    ensures PlaceMoved(s.place, s'.place)
  {
    assert OnePlace(s.place, s'.place, st.e);
  }

  lemma PlaceFreed(s: State, st: Step, s': State)
    requires Enabled(s, st) && (st.FreeEvent? || st.FinishThere?)
    requires s' == ApplyFiber(s, st)
    ensures PlaceMoved(s.place, s'.place)
  {
    assert OnePlace(s.place, s'.place, st.e);
  }

  lemma PlaceReceived(s: State, st: Step, s': State)
    requires ListsKnown(s) && Enabled(s, st) && st.Receive?
    requires s' == ApplyFiber(s, st)
    ensures PlaceMoved(s.place, s'.place)
  {
    assert OnePlace(s.place, s'.place, Seq(s.lists, Mailbox(st.f))[0]);
  }

  lemma PlaceTaken(s: State, st: Step, s': State)
    requires ListsKnown(s) && Enabled(s, st) && st.PopWork?
    requires s' == ApplyWorker(s, st)
    ensures PlaceMoved(s.place, s'.place)
  {
    assert OnePlace(s.place, s'.place, Seq(s.lists, WorkQueue)[0]);
  }

  lemma PlaceFinished(s: State, st: Step, s': State)
    requires HandsKnown(s) && Enabled(s, st) && st.FinishWork?
    requires s' == ApplyWorker(s, st)
    ensures PlaceMoved(s.place, s'.place)
  {
    assert OnePlace(s.place, s'.place, s.wkr[st.w].e);
  }

  lemma PlacePoppedExit(s: State, st: Step, s': State)
    requires ListsKnown(s) && Enabled(s, st) && st.PopExit?
    requires s' == ApplyPoller(s, st)
    ensures PlaceMoved(s.place, s'.place)
  {
    assert OnePlace(s.place, s'.place, Seq(s.lists, Local(Events, st.t))[0]);
  }

  lemma PlacePoppedTask(s: State, st: Step, s': State)
    requires ListsKnown(s) && Enabled(s, st) && st.PopTask?
    requires s' == ApplyPoller(s, st)
    ensures PlaceMoved(s.place, s'.place)
  {
    assert OnePlace(s.place, s'.place, Seq(s.lists, Local(Events, st.t))[0]);
  }

  lemma PlaceMailed(s: State, st: Step, s': State)
    requires ListsKnown(s) && Enabled(s, st) && st.PopMessage?
    requires s' == ApplyPoller(s, st)
    ensures PlaceMoved(s.place, s'.place)
  {
    assert OnePlace(s.place, s'.place, Seq(s.lists, Local(Events, st.t))[0]);
  }

  lemma PlaceMailedWaking(s: State, st: Step, s': State)
    requires ListsKnown(s) && Enabled(s, st) && st.PopWaking?
    requires s' == ApplyPoller(s, st)
    ensures PlaceMoved(s.place, s'.place)
  {
    assert OnePlace(s.place, s'.place, Seq(s.lists, Local(Events, st.t))[0]);
  }

  lemma PlaceAnswered(s: State, st: Step, s': State)
    requires HandsKnown(s) && Enabled(s, st) && st.Answer?
    requires s' == ApplyPoller(s, st)
    ensures PlaceMoved(s.place, s'.place)
  {
    assert OnePlace(s.place, s'.place, s.pc[st.t].e);
  }

  /** The steps that move no single record. */
  predicate PlacesStay(st: Step) {
    st.ReleaseSem? || st.Suspend? || st.Yield? || st.Return? || st.Block? || st.Write? || st.Acquire? || st.Handle? ||
    st.Spawn? || st.SpawnFails? ||
    st.RunFiber? || st.Fetch? || st.ReadCount? || st.EndDrain?
  }

  lemma PlaceKeptFiber(s: State, st: Step, s': State)
    requires Enabled(s, st) && (st.ReleaseSem? || st.Suspend? || st.Yield? || st.Return? || st.Block? || st.Write?)
    requires s' == ApplyFiber(s, st)
    ensures s'.place == s.place
  {
  }

  lemma PlaceKeptWorker(s: State, st: Step, s': State)
    requires Enabled(s, st) && (st.Acquire? || st.Handle? || st.Spawn? || st.SpawnFails?)
    requires s' == ApplyWorker(s, st)
    ensures s'.place == s.place
  {
  }

  lemma PlaceKeptPoller(s: State, st: Step, s': State)
    requires Enabled(s, st) && (st.RunFiber? || st.Fetch? || st.ReadCount? || st.EndDrain?)
    requires s' == ApplyPoller(s, st)
    ensures s'.place == s.place
  {
  }

  lemma SamePlace(place: map<Event, Place>)
    ensures PlaceMoved(place, place)
  {
  }

  lemma CompletedKept(s: State, st: Step, s': State, e: Event)
    requires PlaceMoved(s.place, s'.place) && !st.PopFinished? && !st.FinishHere?
    ensures CompletedBy(s, st, s', e)
  {
  }

  lemma CompletedByFinishHere(s: State, st: Step, s': State, e: Event)
    requires Enabled(s, st) && st.FinishHere? && s' == ApplyFiber(s, st)
    ensures CompletedBy(s, st, s', e)
  {
  }

  lemma CompletedByPopFinished(s: State, st: Step, s': State, e: Event)
    requires ListsKnown(s) && Enabled(s, st) && st.PopFinished? && s' == ApplyPoller(s, st)
    ensures CompletedBy(s, st, s', e)
  {
  }

  lemma CompletedByMoveAll(s: State, st: Step, s': State, e: Event)
    requires ListsKnown(s) && Enabled(s, st) && st.MoveAll? && s' == ApplyPoller(s, st)
    ensures CompletedBy(s, st, s', e)
  {
  }

  lemma PlaceStep(s: State, st: Step)
    requires ListsKnown(s) && HandsKnown(s) && Enabled(s, st) && !st.PopFinished? && !st.FinishHere? && !st.MoveAll?
    ensures PlaceMoved(s.place, Apply(s, st).place)
  {
    hide ListsKnown, HandsKnown, Enabled, ApplyFiber, ApplyWorker, ApplyPoller, PlaceMoved;
    var s' := Apply(s, st);
    SamePlace(s.place);
    if PlacesStay(st) {
      if ByFiber(st) { PlaceKeptFiber(s, st, s'); }
      else if ByWorker(st) { PlaceKeptWorker(s, st, s'); }
      else { PlaceKeptPoller(s, st, s'); }
    }
    else if st.Receive? { PlaceReceived(s, st, s'); }
    else if st.FreeEvent? || st.FinishThere? { PlaceFreed(s, st, s'); }
    else if st.SubmitFile? || st.RequestTask? || st.RequestExit? { PlaceSubmitted(s, st, s'); }
    else if ByFiber(st) { PlaceSent(s, st, s'); }
    else if st.PopWork? { PlaceTaken(s, st, s'); }
    else if st.FinishWork? { PlaceFinished(s, st, s'); }
    else if st.PopExit? { PlacePoppedExit(s, st, s'); }
    else if st.PopTask? { PlacePoppedTask(s, st, s'); }
    else if st.Answer? { PlaceAnswered(s, st, s'); }
    else if st.PopMessage? { PlaceMailed(s, st, s'); }
    else { PlaceMailedWaking(s, st, s'); }
  }

  lemma StepCompletes(s: State, st: Step, e: Event)
    requires ListsKnown(s) && HandsKnown(s) && Enabled(s, st)
    ensures CompletedBy(s, st, Apply(s, st), e)
  {
    hide ListsKnown, HandsKnown, Enabled, ApplyFiber, ApplyWorker, ApplyPoller, CompletedBy, PlaceMoved;
    var s' := Apply(s, st);
    if st.FinishHere? { CompletedByFinishHere(s, st, s', e); }
    else if st.PopFinished? { CompletedByPopFinished(s, st, s', e); }
    else if st.MoveAll? { CompletedByMoveAll(s, st, s', e); }
    else { PlaceStep(s, st); CompletedKept(s, st, s', e); }
  }

  // A fiber is about to return from an operation from the step that wakes it to the step that returns.

  ghost predicate ReturningBy(s: State, st: Step, s': State, e: Event) {
    && (Returning(s', e) <==> (Returning(s, e) && !Returns(s, st, e)) || Wakes(s, st, e))
    && (Wakes(s, st, e) ==> !Returning(s, e))
    && (Returns(s, st, e) ==> Returning(s, e))
  }

  /** A fiber that is not about to return gets a mode that is not about to return either. */
  ghost predicate OneMode(mode: map<Fiber, Mode>, mode': map<Fiber, Mode>, f: Fiber) {
    f in mode' && mode' == mode[f := mode'[f]] && !mode'[f].Woken? && !Get(mode, f, Ready).Woken?
  }

  ghost predicate ModeMoved(mode: map<Fiber, Mode>, mode': map<Fiber, Mode>) {
    mode' == mode || exists f :: OneMode(mode, mode', f)
  }

  lemma ModeSubmitted(s: State, st: Step, s': State)
    requires Enabled(s, st) && (st.SubmitFile? || st.SendRemote? || st.SendLocal? || st.RequestTask?)
    requires s' == ApplyFiber(s, st)
    ensures ModeMoved(s.mode, s'.mode)
  {
    assert OneMode(s.mode, s'.mode, st.f);
  }

  lemma ModePaused(s: State, st: Step, s': State)
    requires Enabled(s, st) && (st.Suspend? || st.Block?)
    requires s' == ApplyFiber(s, st)
    ensures ModeMoved(s.mode, s'.mode)
  {
    assert OneMode(s.mode, s'.mode, st.f);
  }

  lemma ModeSendWaking(s: State, st: Step, s': State)
    requires Enabled(s, st) && st.SendWaking? && s' == ApplyFiber(s, st)
    ensures exists mode :: ModeMoved(s.mode, mode) && ModeMoved(mode, s'.mode)
  {
    var mode := s.mode[st.f := AfterSend(st.e, Waiting(st.e))];
    assert s'.mode == mode[st.e.dst := Ready];
    assert OneMode(s.mode, mode, st.f) && OneMode(mode, s'.mode, st.e.dst);
    assert ModeMoved(s.mode, mode) && ModeMoved(mode, s'.mode);
  }

  lemma ModePopWaking(s: State, st: Step, s': State)
    requires Enabled(s, st) && st.PopWaking?
    requires s' == ApplyPoller(s, st)
    ensures ModeMoved(s.mode, s'.mode)
  {
    assert OneMode(s.mode, s'.mode, Seq(s.lists, Local(Events, st.t))[0].dst);
  }

  /** The steps that leave the modes of all fibers. */
  predicate ModesStay(st: Step) {
    st.ReleaseSem? || st.RequestExit? || st.Yield? || st.FreeEvent? || st.FinishThere? || st.Receive? || st.Write? ||
    ByWorker(st) || st.RunFiber? || st.Fetch? || st.ReadCount? || st.MoveAll? || st.EndDrain? || st.PopExit? ||
    st.PopTask? || st.PopMessage? || st.Answer?
  }

  lemma ModeKeptFiber(s: State, st: Step, s': State)
    requires Enabled(s, st) && (st.ReleaseSem? || st.RequestExit? || st.Yield? || st.FreeEvent? ||
             st.FinishThere? || st.Receive? || st.Write?)
    requires s' == ApplyFiber(s, st)
    ensures s'.mode == s.mode
  {
  }

  lemma ModeKeptWorker(s: State, st: Step, s': State)
    requires Enabled(s, st)
    requires st.Acquire? || st.PopWork? || st.Handle? || st.FinishWork? || st.Spawn? || st.SpawnFails?
    requires s' == ApplyWorker(s, st)
    ensures s'.mode == s.mode
  {
  }

  lemma ModeKeptPoller(s: State, st: Step, s': State)
    requires Enabled(s, st) && (st.RunFiber? || st.Fetch? || st.ReadCount? || st.MoveAll? || st.EndDrain? ||
             st.PopExit? || st.PopTask? || st.PopMessage? || st.Answer?)
    requires s' == ApplyPoller(s, st)
    ensures s'.mode == s.mode
  {
  }

  lemma SameMode(mode: map<Fiber, Mode>)
    ensures ModeMoved(mode, mode)
  {
  }

  lemma ReturningKept(mode: map<Fiber, Mode>, mode': map<Fiber, Mode>, e: Event)
    requires ModeMoved(mode, mode')
    ensures ReturningIn(mode', e) <==> ReturningIn(mode, e)
  {
    if f :| OneMode(mode, mode', f) { assert e.Owner() == Some(f) ==> !ReturningIn(mode, e) && !ReturningIn(mode', e); }
  }

  lemma PlainReturning(s: State, st: Step, s': State, e: Event)
    requires Returning(s', e) <==> Returning(s, e)
    requires !st.PopFinished? && !st.FinishHere? && !st.Return?
    ensures ReturningBy(s, st, s', e)
  {
  }

  lemma ReturningByReturn(s: State, st: Step, s': State, e: Event)
    requires OwnersKnown(s) && Enabled(s, st) && st.Return? && s' == ApplyFiber(s, st)
    ensures ReturningBy(s, st, s', e)
  {
  }

  lemma ReturningByFinishHere(s: State, st: Step, s': State, e: Event)
    requires OwnersKnown(s) && Enabled(s, st) && st.FinishHere? && s' == ApplyFiber(s, st)
    ensures ReturningBy(s, st, s', e)
  {
  }

  lemma ModePopFinished(s: State, st: Step, s': State)
    requires ListsKnown(s) && OwnersKnown(s) && Enabled(s, st) && st.PopFinished? && s' == ApplyPoller(s, st)
    ensures Seq(s.lists, Local(Finished, st.t)) != [] && var x := Seq(s.lists, Local(Finished, st.t))[0];
            x.Owner().Some? && s'.mode == s.mode[x.Owner().value := Woken(x)] &&
                !Get(s.mode, x.Owner().value, Ready).Woken?
  {
  }

  lemma ReturningByPopFinished(s: State, st: Step, s': State, x: Event, e: Event)
    requires st.PopFinished? && Seq(s.lists, Local(Finished, st.t)) != [] && x == Seq(s.lists, Local(Finished, st.t))[0]
    requires x.Owner().Some? && s'.mode == s.mode[x.Owner().value := Woken(x)] &&
             !Get(s.mode, x.Owner().value, Ready).Woken?
    ensures ReturningBy(s, st, s', e)
  {
  }

  lemma ModeStep(s: State, st: Step, e: Event)
    requires Enabled(s, st) && !st.PopFinished? && !st.FinishHere? && !st.Return? && !st.SendWaking?
    ensures ModeMoved(s.mode, Apply(s, st).mode)
  {
    hide Enabled, ApplyFiber, ApplyWorker, ApplyPoller, ModeMoved;
    var s' := Apply(s, st);
    SameMode(s.mode);
    if ModesStay(st) {
      if ByFiber(st) { ModeKeptFiber(s, st, s'); }
      else if ByWorker(st) { ModeKeptWorker(s, st, s'); }
      else { ModeKeptPoller(s, st, s'); }
    }
    else if st.Suspend? || st.Block? { ModePaused(s, st, s'); }
    else if st.PopWaking? { ModePopWaking(s, st, s'); }
    else { ModeSubmitted(s, st, s'); }
  }

  lemma StepReturns(s: State, st: Step, e: Event)
    requires ListsKnown(s) && OwnersKnown(s) && Enabled(s, st)
    ensures ReturningBy(s, st, Apply(s, st), e)
  {
    hide ListsKnown, OwnersKnown, Enabled, ApplyFiber, ApplyWorker, ApplyPoller, ReturningBy, ModeMoved, ReturningIn;
    var s' := Apply(s, st);
    if st.Return? { ReturningByReturn(s, st, s', e); }
    else if st.FinishHere? { ReturningByFinishHere(s, st, s', e); }
    else if st.PopFinished? {
      ModePopFinished(s, st, s');
      ReturningByPopFinished(s, st, s', Seq(s.lists, Local(Finished, st.t))[0], e);
    } else if st.SendWaking? {
      ModeSendWaking(s, st, s');
      var mode :| ModeMoved(s.mode, mode) && ModeMoved(mode, s'.mode);
      ReturningKept(s.mode, mode, e);
      ReturningKept(mode, s'.mode, e);
      PlainReturning(s, st, s', e);
    } else {
      ModeStep(s, st, e);
      ReturningKept(s.mode, s'.mode, e);
      PlainReturning(s, st, s', e);
    }
  }

  // The result of a file operation is stored exactly by the step that handles it.

  ghost predicate StoredBy(s: State, st: Step, s': State, e: Event) {
    && (e in s'.stored <==> e in s.stored || Handles(s, st, e))
    && (Handles(s, st, e) ==> e !in s.stored)
  }

  lemma StoredByCreation(s: State, st: Step, s': State, e: Event)
    requires Enabled(s, st) && e.FileOp?
    requires st.SubmitFile? || st.SendRemote? || st.SendLocal? || st.SendWaking? || st.RequestTask? || st.RequestExit?
    requires s' == ApplyFiber(s, st)
    ensures StoredBy(s, st, s', e)
  {
  }

  lemma StoredByFinish(s: State, st: Step, s': State, e: Event)
    requires Enabled(s, st) && e.FileOp? && (st.FreeEvent? || st.FinishHere? || st.FinishThere? || st.Receive?)
    requires s' == ApplyFiber(s, st)
    ensures StoredBy(s, st, s', e)
  {
  }

  lemma StoredByFiber(s: State, st: Step, s': State, e: Event)
    requires Enabled(s, st) && e.FileOp?
    requires st.ReleaseSem? || st.Suspend? || st.Yield? || st.Return? || st.Block? || st.Write?
    requires s' == ApplyFiber(s, st)
    ensures StoredBy(s, st, s', e)
  {
  }

  lemma StoredByHandle(s: State, st: Step, s': State, e: Event)
    requires HandsKnown(s) && ResultFresh(s, e) && Enabled(s, st) && e.FileOp? && st.Handle?
    requires s' == ApplyWorker(s, st)
    ensures StoredBy(s, st, s', e)
  {
  }

  lemma StoredByWorker(s: State, st: Step, s': State, e: Event)
    requires Enabled(s, st) && ByWorker(st) && !st.Handle?
    requires s' == ApplyWorker(s, st)
    ensures StoredBy(s, st, s', e)
  {
  }

  lemma StoredByPoller(s: State, st: Step, s': State, e: Event)
    requires HandsKnown(s) && Enabled(s, st) && !ByFiber(st) && !ByWorker(st) && e.FileOp?
    requires s' == ApplyPoller(s, st)
    ensures StoredBy(s, st, s', e)
  {
  }

  lemma StepStores(s: State, st: Step, e: Event)
    requires HandsKnown(s) && Enabled(s, st) && ResultFresh(s, e) && e.FileOp?
    ensures StoredBy(s, st, Apply(s, st), e)
  {
    hide HandsKnown, Enabled, ApplyFiber, ApplyWorker, ApplyPoller, StoredBy, ResultFresh;
    var s' := Apply(s, st);
    if st.SubmitFile? || st.SendRemote? || st.SendLocal? || st.SendWaking? || st.RequestTask? || st.RequestExit? {
      StoredByCreation(s, st, s', e);
    }
    else if st.FreeEvent? || st.FinishHere? || st.FinishThere? || st.Receive? { StoredByFinish(s, st, s', e); }
    else if ByFiber(st) { StoredByFiber(s, st, s', e); }
    else if st.Handle? { StoredByHandle(s, st, s', e); }
    else if ByWorker(st) { StoredByWorker(s, st, s', e); }
    else { StoredByPoller(s, st, s', e); }
  }

  lemma FreshCreated(s: State, st: Step, s': State, e: Event)
    requires ResultFresh(s, e)
    requires Enabled(s, st) && (st.SubmitFile? || st.SendRemote? || st.SendLocal?)
    requires s' == ApplyFiber(s, st)
    ensures ResultFresh(s', e)
  {
  }

  lemma FreshRequested(s: State, st: Step, s': State, e: Event)
    requires ResultFresh(s, e)
    requires Enabled(s, st) && (st.SendWaking? || st.RequestTask? || st.RequestExit?)
    requires s' == ApplyFiber(s, st)
    ensures ResultFresh(s', e)
  {
  }

  lemma FreshKept(s: State, st: Step, s': State, e: Event)
    requires ResultFresh(s, e)
    requires Enabled(s, st) && (st.ReleaseSem? || st.Suspend? || st.Yield? || st.Return? || st.Block? || st.Write?)
    requires s' == ApplyFiber(s, st)
    ensures ResultFresh(s', e)
  {
  }

  lemma FreshFinished(s: State, st: Step, s': State, e: Event)
    requires ResultFresh(s, e)
    requires Enabled(s, st) && (st.FreeEvent? || st.FinishHere? || st.FinishThere?)
    requires s' == ApplyFiber(s, st)
    ensures ResultFresh(s', e)
  {
  }

  lemma FreshReceived(s: State, st: Step, s': State, e: Event)
    requires ListsKnown(s) && ResultFresh(s, e)
    requires Enabled(s, st) && st.Receive?
    requires s' == ApplyFiber(s, st)
    ensures ResultFresh(s', e)
  {
  }

  lemma FreshAcquired(s: State, st: Step, s': State, e: Event)
    requires ResultFresh(s, e)
    requires Enabled(s, st) && (st.Spawn? || st.SpawnFails? || st.Acquire?)
    requires s' == ApplyWorker(s, st)
    ensures ResultFresh(s', e)
  {
  }

  lemma FreshTaken(s: State, st: Step, s': State, e: Event)
    requires ListsKnown(s) && HandsKnown(s) && ResultFresh(s, e)
    requires Enabled(s, st) && st.PopWork?
    requires s' == ApplyWorker(s, st)
    ensures ResultFresh(s', e)
  {
  }

  lemma FreshHandled(s: State, st: Step, s': State, e: Event)
    requires HandsKnown(s) && ResultFresh(s, e)
    requires Enabled(s, st) && st.Handle?
    requires s' == ApplyWorker(s, st)
    ensures ResultFresh(s', e)
  {
  }

  lemma FreshWorked(s: State, st: Step, s': State, e: Event)
    requires HandsKnown(s) && ResultFresh(s, e)
    requires Enabled(s, st) && st.FinishWork?
    requires s' == ApplyWorker(s, st)
    ensures ResultFresh(s', e)
  {
  }

  lemma FreshPolled(s: State, st: Step, s': State, e: Event)
    requires ListsKnown(s) && ResultFresh(s, e)
    requires Enabled(s, st) && (st.RunFiber? || st.Fetch? || st.ReadCount? || st.MoveAll? || st.EndDrain?)
    requires s' == ApplyPoller(s, st)
    ensures ResultFresh(s', e)
  {
  }

  lemma FreshPopFinished(s: State, st: Step, s': State, e: Event)
    requires ListsKnown(s) && ResultFresh(s, e)
    requires Enabled(s, st) && st.PopFinished?
    requires s' == ApplyPoller(s, st)
    ensures ResultFresh(s', e)
  {
  }

  lemma FreshPopExit(s: State, st: Step, s': State, e: Event)
    requires ListsKnown(s) && ResultFresh(s, e)
    requires Enabled(s, st) && st.PopExit?
    requires s' == ApplyPoller(s, st)
    ensures ResultFresh(s', e)
  {
  }

  lemma FreshPopTask(s: State, st: Step, s': State, e: Event)
    requires ListsKnown(s) && ResultFresh(s, e)
    requires Enabled(s, st) && st.PopTask?
    requires s' == ApplyPoller(s, st)
    ensures ResultFresh(s', e)
  {
  }

  lemma FreshPopMessage(s: State, st: Step, s': State, e: Event)
    requires ListsKnown(s) && ResultFresh(s, e)
    requires Enabled(s, st) && st.PopMessage?
    requires s' == ApplyPoller(s, st)
    ensures ResultFresh(s', e)
  {
  }

  lemma FreshPopWaking(s: State, st: Step, s': State, e: Event)
    requires ListsKnown(s) && ResultFresh(s, e)
    requires Enabled(s, st) && st.PopWaking?
    requires s' == ApplyPoller(s, st)
    ensures ResultFresh(s', e)
  {
  }

  lemma FreshAnswered(s: State, st: Step, s': State, e: Event)
    requires HandsKnown(s) && ResultFresh(s, e)
    requires Enabled(s, st) && st.Answer?
    requires s' == ApplyPoller(s, st)
    ensures ResultFresh(s', e)
  {
  }

  lemma StepFresh(s: State, st: Step, e: Event)
    requires ListsKnown(s) && HandsKnown(s) && Enabled(s, st) && ResultFresh(s, e)
    ensures ResultFresh(Apply(s, st), e)
  {
    hide ListsKnown, HandsKnown, Enabled, ApplyFiber, ApplyWorker, ApplyPoller, ResultFresh;
    var s' := Apply(s, st);
    if st.SubmitFile? || st.SendRemote? || st.SendLocal? { FreshCreated(s, st, s', e); }
    else if st.SendWaking? || st.RequestTask? || st.RequestExit? { FreshRequested(s, st, s', e); }
    else if st.ReleaseSem? || st.Suspend? || st.Yield? || st.Return? || st.Block? || st.Write? {
      FreshKept(s, st, s', e);
    }
    else if st.FreeEvent? || st.FinishHere? || st.FinishThere? { FreshFinished(s, st, s', e); }
    else if st.Receive? { FreshReceived(s, st, s', e); }
    else if st.Spawn? || st.SpawnFails? || st.Acquire? { FreshAcquired(s, st, s', e); }
    else if st.PopWork? { FreshTaken(s, st, s', e); }
    else if st.Handle? { FreshHandled(s, st, s', e); }
    else if st.FinishWork? { FreshWorked(s, st, s', e); }
    else if st.RunFiber? || st.Fetch? || st.ReadCount? || st.MoveAll? || st.EndDrain? { FreshPolled(s, st, s', e); }
    else if st.PopFinished? { FreshPopFinished(s, st, s', e); }
    else if st.PopExit? { FreshPopExit(s, st, s', e); }
    else if st.PopTask? { FreshPopTask(s, st, s', e); }
    else if st.PopMessage? { FreshPopMessage(s, st, s', e); }
    else if st.PopWaking? { FreshPopWaking(s, st, s', e); }
    else { FreshAnswered(s, st, s', e); }
  }

  // ---------------------------------------------------------------------------------------------
  // counting over a run

  /** How often, in the run `steps`, the handler of `e` ran, its owner was resumed for it, and the call it
      belongs to returned. */
  datatype Tally = Tally(handled: nat, woken: nat, returned: nat)

  function Count(pool: Pool, steps: seq<Step>, e: Event): Tally {
    if steps == [] then Tally(0, 0, 0)
    else
      var c := Count(pool, steps[..|steps| - 1], e);
      var st := steps[|steps| - 1];
      match After(pool, steps[..|steps| - 1])
      case None => c
      case Some(s) =>
        Tally(c.handled + (if Handles(s, st, e) then 1 else 0), c.woken + (if Wakes(s, st, e) then 1 else 0),
              c.returned + (if Returns(s, st, e) then 1 else 0))
  }

  /** The counts follow from the state the run ends in. */
  lemma {:induction false} CountFollows(pool: Pool, steps: seq<Step>, e: Event)
    requires After(pool, steps).Some?
    ensures var s, c := After(pool, steps).value, Count(pool, steps, e);
            && c.woken == (if Completed(s, e) then 1 else 0)
            && c.returned + (if Returning(s, e) then 1 else 0) == c.woken
            && (e.FileOp? ==> c.handled == if e in s.stored then 1 else 0)
            && ResultFresh(s, e)
  {
    if steps != [] {
      hide Enabled, Apply, Handles, Wakes, Returns, Inv, ListsKnown, HandsKnown, OwnersKnown, ResultFresh;
      var prefix, st := steps[..|steps| - 1], steps[|steps| - 1];
      CountFollows(pool, prefix, e);
      var s := After(pool, prefix).value;
      RunKeeps(pool, prefix);
      KnowAll(s);
      StepCompletes(s, st, e);
      StepReturns(s, st, e);
      if e.FileOp? { StepStores(s, st, e); }
      StepFresh(s, st, e);
    }
  }

  /** Over every run: an operation resumes its fiber at most once and returns at most once, only after it
      was resumed; a file operation's handler runs at most once, and before its fiber is resumed; and the
      operation has resumed its fiber exactly if its record is no longer in flight. */
  lemma ServedOnce(pool: Pool, steps: seq<Step>, e: Event)
    requires After(pool, steps).Some?
    ensures var c := Count(pool, steps, e);
            && c.returned <= c.woken <= 1
            && (e.FileOp? ==> c.woken <= c.handled <= 1)
            && (c.woken == 1 <==> Completed(After(pool, steps).value, e))
  {
    CountFollows(pool, steps, e);
    RunKeeps(pool, steps);
    var s := After(pool, steps).value;
    if e.FileOp? && Completed(s, e) {
      PlacedAt(s.place, s.stored, e);
    }
  }

  // ---------------------------------------------------------------------------------------------
  // nothing is left behind

  /** A step that needs nothing but its thread: everything except running fiber code. */
  predicate Internal(st: Step) {
    st.ReleaseSem? || st.Write? || ByWorker(st) || (!ByFiber(st) && !st.RunFiber?)
  }

  /** Nothing but fiber code could move. */
  ghost predicate Settled(s: State) {
    forall st :: Internal(st) ==> !Enabled(s, st)
  }

  /** `e` is done with, or waits for fiber code of its receiver. */
  predicate WithReceiver(p: Place, e: Event) {
    e.Message? && (p == Mailbox(e.dst) || p == Held(e.dst))
  }

  /** `e` is stuck on a queue of a poller that an exit event has stopped. */
  predicate WithExited(pc: map<Tid, Poller>, p: Place) {
    (p.Queue? || p.Local?) && Get(pc, p.t, Idle) == Exited
  }

  /** `e` is with a poller whose thread runs one of its fibers. */
  predicate BehindFiber(cur: map<Tid, Current>, p: Place) {
    (p.Queue? || p.Local? || p.AtPoller?) && Get(cur, p.t, Main) != Main
  }

  /** Every worker that was ever asked for could not be created. */
  predicate NoWorker(s: State) {
    s.workers == 0 && 0 < s.reserved <= s.failed
  }

  lemma SettledOwes(s: State)
    requires Settled(s)
    ensures s.owes == map[] && s.semOwers == {} && s.spawns == 0
  {
    forall a ensures a !in s.owes { assert Internal(Write(a)); }
    forall f ensures f !in s.semOwers { assert Internal(ReleaseSem(f)); }
    assert Internal(Spawn);
  }

  lemma SettledWorker(s: State, w: Wid)
    requires Settled(s) && InHand(s.place, s.wkr, s.pc, s.stored) && Placed(s.place, s.stored)
    ensures Get(s.wkr, w, Free) == Free
  {
    var m := Get(s.wkr, w, Free);
    assert m.Got? ==> Internal(Handle(w)) && Enabled(s, Handle(w));
    if m.Handled? {
      assert PlaceOk(m.e, AtWorker(w), s.stored);
      assert Internal(FinishWork(w)) && Enabled(s, FinishWork(w));
    }
  }

  lemma SettledWorkQueue(s: State)
    requires Settled(s) && InHand(s.place, s.wkr, s.pc, s.stored) && Placed(s.place, s.stored) && s.max > 0
    requires SemCounted(Seq(s.lists, WorkQueue), s.sem, s.tokens, s.semOwers, s.wkr)
    requires Staffed(Seq(s.lists, WorkQueue), s.max, s.reserved, s.workers, s.spawns, s.failed)
    ensures Seq(s.lists, WorkQueue) == [] || NoWorker(s)
  {
    SettledOwes(s);
    if Seq(s.lists, WorkQueue) != [] && s.workers > 0 {
      SettledWorker(s, 0);
      if w :| w in s.tokens {
        assert Internal(PopWork(w)) && Enabled(s, PopWork(w));
      } else {
        assert s.tokens == {};
        assert Internal(Acquire(0)) && Enabled(s, Acquire(0));
      }
    }
  }

  /** A poller that drains has its next event to pop. */
  lemma SettledDrain(s: State, t: Tid)
    requires Settled(s) && Get(s.cur, t, Main) == Main && Linked(s.lists, s.place) && Placed(s.place, s.stored)
    ensures !Get(s.pc, t, Idle).Draining?
  {
    SettledOwes(s);
    var m := Get(s.pc, t, Idle);
    if m.Draining? {
      var q := Seq(s.lists, Local(m.ch, t));
      assert Polling(s, t, m);
      if q == [] {
        assert Internal(EndDrain(t, m.ch)) && Enabled(s, EndDrain(t, m.ch));
      } else {
        assert q[0] in s.lists[Local(m.ch, t)];
        assert s.place[q[0]] == Local(m.ch, t);
        assert PlaceOk(q[0], Local(m.ch, t), s.stored);
        var st :=
          if m.ch == Finished then PopFinished(t)
          else if q[0].ExitRequest? then PopExit(t)
          else if q[0].TaskRequest? then PopTask(t)
          else if Get(s.mode, q[0].dst, Ready) == Receiving then PopWaking(t)
          else PopMessage(t);
        assert Internal(st) && Enabled(s, st);
      }
    }
  }

  lemma SettledPoller(s: State, t: Tid)
    requires Settled(s) && Get(s.cur, t, Main) == Main
    requires Linked(s.lists, s.place) && Placed(s.place, s.stored) && InHand(s.place, s.wkr, s.pc, s.stored)
    ensures Get(s.pc, t, Idle) == Idle || Get(s.pc, t, Idle) == Exited
  {
    SettledOwes(s);
    SettledDrain(s, t);
    var m := Get(s.pc, t, Idle);
    assert Polling(s, t, m);
    assert m.Fetched? ==> Internal(ReadCount(t, m.ch)) && Enabled(s, ReadCount(t, m.ch));
    assert m.HasRead? ==> Internal(MoveAll(t, m.ch)) && Enabled(s, MoveAll(t, m.ch));
    if m.Answering? {
      assert PlaceOk(m.e, AtPoller(t), s.stored);
      assert Internal(Answer(t)) && Enabled(s, Answer(t));
    }
  }

  lemma SettledQueue(s: State, ch: Channel, t: Tid)
    requires Settled(s) && Get(s.cur, t, Main) == Main && Get(s.pc, t, Idle) == Idle
    requires Signalled(s.lists, s.count, s.pc, s.owes)
    ensures Seq(s.lists, Queue(ch, t)) == []
  {
    SettledOwes(s);
    if Seq(s.lists, Queue(ch, t)) != [] {
      assert Internal(Fetch(t, ch)) && Enabled(s, Fetch(t, ch));
    }
  }

  lemma ListNotEmpty(s: State, e: Event)
    requires Linked(s.lists, s.place) && e in s.place && s.place[e].IsList()
    ensures Seq(s.lists, s.place[e]) != []
  {
  }

  /** When nothing but fiber code can move, every record ever handed over has completed, except a message
      that its receiver has not dealt with, what is behind a running fiber of the poller's thread, what an
      exited poller leaves on its queues, and file operations of which no worker could ever be created. */
  lemma SettledMeansServed(s: State, e: Event)
    requires Reachable(s) && Settled(s) && s.max > 0 && e in s.place
    ensures var p := s.place[e];
            p == Done || p == Freed || WithReceiver(p, e) || BehindFiber(s.cur, p) || WithExited(s.pc, p) ||
            (p == WorkQueue && NoWorker(s))
  {
    hide Scheduled, Linked, Owned, Signalled, MailSeen, SemCounted, Staffed, WorkersPaid, Enabled, Settled;
    ReachableKeeps(s);
    var p := s.place[e];
    assert PlaceOk(e, p, s.stored);
    if p.IsList() { ListNotEmpty(s, e); }
    if p.AtWorker? { SettledWorker(s, p.w); }
    else if p == WorkQueue { SettledWorkQueue(s); }
    else if (p.AtPoller? || p.Local? || p.Queue?) && Get(s.cur, p.t, Main) == Main {
      SettledPoller(s, p.t);
      if p.Queue? && Get(s.pc, p.t, Idle) == Idle { SettledQueue(s, p.ch, p.t); }
    }
  }

  /** In particular, once every thread is back in its poller, no fiber is left waiting for anything but the
      receiver of its message, a thread whose poller has exited, or a worker that could not be created. */
  lemma QuietMeansReturned(s: State, f: Fiber)
    requires Reachable(s) && Settled(s) && s.max > 0 && Get(s.mode, f, Ready).Waiting?
    requires (forall t :: Get(s.cur, t, Main) == Main) && Get(s.pc, f.home, Idle) != Exited
    ensures var e := s.mode[f].op;
            && e in s.place
            && if e.FileOp? then s.place[e] == WorkQueue && NoWorker(s)
               else WithReceiver(s.place[e], e) || (WithExited(s.pc, s.place[e]) && s.place[e].ch == Events)
  {
    hide Scheduled, Linked, LocalsOf, InHand, Signalled, MailSeen, SemCounted, Staffed, WorkersPaid, Settled,
         NoWorker;
    ReachableKeeps(s);
    var e := s.mode[f].op;
    SettledMeansServed(s, e);
    assert PlaceOk(e, s.place[e], s.stored);
  }
}
