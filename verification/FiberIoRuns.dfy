/** What holds over every run of the completion protocol, whatever the interleaving. */
module FiberIoRuns {
  import opened Basics
  import opened FiberIo
  import opened FiberIoInvariant
  import opened FiberIoSteps

  // ---------------------------------------------------------------------------------------------
  // runs

  /** The state after the run `steps`, if each of its steps could be taken. */
  function After(pool: Pool, steps: seq<Step>): Option<State> {
    if steps == [] then Some(Init(pool))
    else
      match After(pool, steps[..|steps| - 1])
      case None => None
      case Some(s) =>
        var st := steps[|steps| - 1];
        if Enabled(s, st) then Some(Apply(s, st)) else None
  }

  lemma InitKeepsRecords(pool: Pool)
    ensures var s := Init(pool);
            && Scheduled(s.cur, s.mode, s.semOwers, s.owes) && Linked(s.lists, s.place) && LocalsOf(s.lists, s.pc)
            && Placed(s.place, s.stored) && InHand(s.place, s.wkr, s.pc, s.stored) && Owned(s.place, s.mode)
  {
  }

  lemma InitKeeps(pool: Pool)
    ensures Inv(Init(pool))
  {
    InitKeepsRecords(pool);
    hide Scheduled, Linked, LocalsOf, Placed, InHand, Owned;
  }

  lemma FiberStepKeeps(s: State, st: Step)
    requires Inv(s) && Enabled(s, st) && ByFiber(st)
    ensures Inv(ApplyFiber(s, st))
  {
    hide Inv, Enabled, ApplyFiber;
    var s' := ApplyFiber(s, st);
    match st {
      case SubmitFile(f, e) => KeepsSubmitFile(s, f, e, s');
      case ReleaseSem(f) => KeepsReleaseSem(s, f, s');
      case SendRemote(f, e) => KeepsSendRemote(s, f, e, s');
      case SendLocal(f, e) => KeepsSendLocal(s, f, e, s');
      case SendWaking(f, e) => KeepsSendWaking(s, f, e, s');
      case RequestTask(f, e) => KeepsRequestTask(s, f, e, s');
      case RequestExit(a, e) => KeepsRequestExit(s, a, e, s');
      case Suspend(f, next) => KeepsSuspend(s, f, next, s');
      case Yield(f, next) => KeepsYield(s, f, next, s');
      case Return(f) => KeepsReturn(s, f, s');
      case Receive(f) => KeepsReceive(s, f, s');
      case Block(f, next) => KeepsBlock(s, f, next, s');
      case FreeEvent(f, e) => KeepsFreeEvent(s, f, e, s');
      case FinishHere(f, e) => KeepsFinishHere(s, f, e, s');
      case FinishThere(f, e) => KeepsFinishThere(s, f, e, s');
      case Write(a) => KeepsWrite(s, a, s');
    }
  }

  lemma WorkerStepKeeps(s: State, st: Step)
    requires Inv(s) && Enabled(s, st) && ByWorker(st)
    ensures Inv(ApplyWorker(s, st))
  {
    hide Inv, Enabled, ApplyWorker;
    var s' := ApplyWorker(s, st);
    match st {
      case Spawn => KeepsSpawn(s, st, s');
      case SpawnFails => KeepsSpawn(s, st, s');
      case Acquire(w) => KeepsAcquire(s, w, s');
      case PopWork(w) => KeepsPopWork(s, w, s');
      case Handle(w) => KeepsHandle(s, w, s');
      case FinishWork(w) => KeepsFinishWork(s, w, s');
    }
  }

  lemma PollerStepKeeps(s: State, st: Step)
    requires Inv(s) && Enabled(s, st) && !ByFiber(st) && !ByWorker(st)
    ensures Inv(ApplyPoller(s, st))
  {
    hide Inv, Enabled, ApplyPoller;
    var s' := ApplyPoller(s, st);
    match st {
      case RunFiber(t, f) => KeepsRunFiber(s, t, f, s');
      case Fetch(t, ch) => KeepsFetch(s, t, ch, s');
      case ReadCount(t, ch) => KeepsReadCount(s, t, ch, s');
      case MoveAll(t, ch) => KeepsMoveAll(s, t, ch, s');
      case EndDrain(t, ch) => KeepsEndDrain(s, t, ch, s');
      case PopFinished(t) => KeepsPopFinished(s, t, s');
      case PopExit(t) => KeepsPopExit(s, t, s');
      case PopTask(t) => KeepsPopTask(s, t, s');
      case PopMessage(t) => KeepsPopMessage(s, t, s');
      case PopWaking(t) => KeepsPopWaking(s, t, s');
      case Answer(t) => KeepsAnswer(s, t, s');
    }
  }

  lemma StepKeeps(s: State, st: Step)
    requires Inv(s) && Enabled(s, st)
    ensures Inv(Apply(s, st))
  {
    hide Inv, Enabled, ApplyFiber, ApplyWorker, ApplyPoller;
    if ByFiber(st) { FiberStepKeeps(s, st); }
    else if ByWorker(st) { WorkerStepKeeps(s, st); }
    else { PollerStepKeeps(s, st); }
  }

  /** The invariant holds in every state that any interleaving reaches. */
  lemma {:induction false} RunKeeps(pool: Pool, steps: seq<Step>)
    ensures After(pool, steps).Some? ==> Inv(After(pool, steps).value)
  {
    hide Inv, Enabled, Apply;
    if steps == [] {
      InitKeeps(pool);
    } else {
      RunKeeps(pool, steps[..|steps| - 1]);
      if After(pool, steps).Some? {
        StepKeeps(After(pool, steps[..|steps| - 1]).value, steps[|steps| - 1]);
      }
    }
  }
}
