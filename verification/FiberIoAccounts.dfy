/** Accounts over whole runs: how pushes are announced and announcements read, and how many workers there are. */
module FiberIoAccounts {
  import opened Basics
  import opened FiberIo
  import opened FiberIoInvariant
  import opened FiberIoRuns
  import opened FiberIoCompletion
  import opened FiberIoStations
  import opened FiberIoHistory

  // ---------------------------------------------------------------------------------------------
  // eventfds

  /** Those who still have to write `sg`. */
  function OwedTo(owes: map<Agent, Signal>, sg: Signal): set<Agent> {
    set a | a in owes && owes[a] == sg
  }

  lemma OwedMore(owes: map<Agent, Signal>, a: Agent, sg: Signal, sg': Signal)
    requires a !in owes
    ensures |OwedTo(owes[a := sg], sg')| == |OwedTo(owes, sg')| + if sg == sg' then 1 else 0
  {
    assert OwedTo(owes[a := sg], sg') == OwedTo(owes, sg') + if sg == sg' then {a} else {};
  }

  lemma OwedLess(owes: map<Agent, Signal>, a: Agent, sg: Signal)
    requires a in owes
    ensures |OwedTo(owes, sg)| == |OwedTo(owes - {a}, sg)| + if owes[a] == sg then 1 else 0
  {
    assert OwedTo(owes, sg) == OwedTo(owes - {a}, sg) + if owes[a] == sg then {a} else {};
  }

  /** Whether the step writes to the eventfd `sg`. */
  predicate Writes(s: State, st: Step, sg: Signal) {
    st.Write? && st.a in s.owes && s.owes[st.a] == sg
  }

  datatype Debt = Debt(a: Agent, sg: Signal) | NoDebt

  /** Who owes a write after the step that did not before. */
  function DebtOf(s: State, st: Step): Debt
    requires Enabled(s, st)
  {
    match st
    case SendRemote(f, e) => Debt(OfFiber(f), Signal(Events, e.dst.home))
    case RequestTask(f, e) => Debt(OfFiber(f), Signal(Events, e.task))
    case RequestExit(a, e) => Debt(a, Signal(Events, e.task))
    case FinishThere(f, e) => Debt(OfFiber(f), Signal(Finished, e.Owner().value.home))
    case FinishWork(w) => Debt(OfWorker(w), Signal(Finished, s.wkr[w].e.Owner().value.home))
    case Answer(t) => Debt(OfPoller(t), Signal(Finished, s.pc[t].e.Owner().value.home))
    case _ => NoDebt
  }

  /** The step pushes on a queue exactly if somebody then owes one more write for it. */
  ghost predicate Indebted(s: State, st: Step, s': State) {
    && Enabled(s, st)
    && match DebtOf(s, st)
       case Debt(a, sg) =>
         !st.Write? && a !in s.owes && s'.owes == s.owes[a := sg] && To(MoveOf(s, st)) == Some(Queue(sg.ch, sg.t))
       case NoDebt =>
         && (match To(MoveOf(s, st)) case Some(p) => !p.Queue? case None => true)
         && s'.owes == if st.Write? && st.a in s.owes then s.owes - {st.a} else s.owes
  }

  lemma FiberIndebted(s: State, st: Step, s': State)
    requires ListsKnown(s) && Enabled(s, st) && ByFiber(st) && DebtOf(s, st).Debt? && s' == ApplyFiber(s, st)
    ensures Indebted(s, st, s')
  {
  }

  lemma FiberKeepsOwes(s: State, st: Step, s': State)
    requires Enabled(s, st) && ByFiber(st) && DebtOf(s, st).NoDebt? && s' == ApplyFiber(s, st)
    ensures s'.owes == if st.Write? && st.a in s.owes then s.owes - {st.a} else s.owes
  {
  }

  lemma FiberNotIndebted(s: State, st: Step, s': State)
    requires Enabled(s, st) && ByFiber(st) && DebtOf(s, st).NoDebt?
    requires s'.owes == if st.Write? && st.a in s.owes then s.owes - {st.a} else s.owes
    ensures Indebted(s, st, s')
  {
  }

  lemma WorkerIndebted(s: State, st: Step, s': State)
    requires ListsKnown(s) && WorkersPaid(s.wkr, s.tokens, s.owes) && Enabled(s, st) && ByWorker(st)
    requires s' == ApplyWorker(s, st)
    ensures Indebted(s, st, s')
  {
  }

  lemma PollerIndebted(s: State, st: Step, s': State)
    requires ListsKnown(s) && Enabled(s, st) && !ByFiber(st) && !ByWorker(st) && s' == ApplyPoller(s, st)
    ensures Indebted(s, st, s')
  {
  }

  lemma StepIndebted(s: State, st: Step)
    requires Inv(s) && Enabled(s, st)
    ensures Indebted(s, st, Apply(s, st))
  {
    hide Enabled, ApplyFiber, ApplyWorker, ApplyPoller, Indebted, ListsKnown, HandsKnown, OwnersKnown,
         WorkersPaid, DebtOf;
    KnowAll(s);
    if ByFiber(st) {
      if DebtOf(s, st).Debt? {
        FiberIndebted(s, st, Apply(s, st));
      } else {
        FiberKeepsOwes(s, st, Apply(s, st));
        FiberNotIndebted(s, st, Apply(s, st));
      }
    }
    else if ByWorker(st) { WorkerIndebted(s, st, Apply(s, st)); }
    else { PollerIndebted(s, st, Apply(s, st)); }
  }

  lemma StepAnnounces(s: State, st: Step, sg: Signal)
    requires Inv(s) && Enabled(s, st)
    ensures var s' := Apply(s, st);
            |OwedTo(s'.owes, sg)| + (if Writes(s, st, sg) then 1 else 0) ==
              |OwedTo(s.owes, sg)| + |GivenBy(s, st, s', Queue(sg.ch, sg.t))|
  {
    hide Inv, Enabled, Apply, MoveOf, DebtOf, OwedTo, GivenBy, TakenBy, Moved, FromHead, Relisted, OnItsWay, Handed,
         From, To;
    StepIndebted(s, st);
    var s' := Apply(s, st);
    GivenToQueue(s, st, sg);
    match DebtOf(s, st)
    case Debt(a, sg') => OwedMore(s.owes, a, sg', sg);
    case NoDebt => if st.Write? && st.a in s.owes { OwedLess(s.owes, st.a, sg); }
  }

  lemma GivenToQueue(s: State, st: Step, sg: Signal)
    requires Inv(s) && Enabled(s, st)
    ensures |GivenBy(s, st, Apply(s, st), Queue(sg.ch, sg.t))|
         == if To(MoveOf(s, st)) == Some(Queue(sg.ch, sg.t)) then 1 else 0
  {
    if !st.MoveAll? {
      hide Inv, Enabled, Apply, MoveOf, Moved, FromHead, Relisted, OnItsWay, Handed, From, To, GivenBy, TakenBy;
      StepMoves(s, st);
      MoveTakes(s, st, Apply(s, st), MoveOf(s, st), Queue(sg.ch, sg.t));
    }
  }

  /** What a step does to a counter: a write adds one, and the poller's read takes all. */
  lemma StepCounts(s: State, st: Step, sg: Signal)
    requires Enabled(s, st)
    ensures Get(Apply(s, st).count, sg, 0)
         == if st == ReadCount(sg.t, sg.ch) then 0 else Get(s.count, sg, 0) + if Writes(s, st, sg) then 1 else 0
  {
    hide ApplyFiber, ApplyWorker, ApplyPoller, Enabled;
    var s' := Apply(s, st);
    if st.Write? { WriteCounts(s, st, s', sg); }
    else if ByFiber(st) { FiberCounts(s, st, s'); }
    else if ByWorker(st) { WorkerCounts(s, st, s'); }
    else { PollerCounts(s, st, s', sg); }
  }

  lemma WriteCounts(s: State, st: Step, s': State, sg: Signal)
    requires Enabled(s, st) && st.Write? && s' == ApplyFiber(s, st)
    ensures Get(s'.count, sg, 0) == Get(s.count, sg, 0) + if Writes(s, st, sg) then 1 else 0
  {
  }

  lemma FiberCounts(s: State, st: Step, s': State)
    requires Enabled(s, st) && ByFiber(st) && !st.Write? && s' == ApplyFiber(s, st)
    ensures s'.count == s.count
  {
  }

  lemma WorkerCounts(s: State, st: Step, s': State)
    requires Enabled(s, st) && ByWorker(st) && s' == ApplyWorker(s, st)
    ensures s'.count == s.count
  {
  }

  lemma PollerCounts(s: State, st: Step, s': State, sg: Signal)
    requires Enabled(s, st) && !ByFiber(st) && !ByWorker(st) && s' == ApplyPoller(s, st)
    ensures Get(s'.count, sg, 0) == if st == ReadCount(sg.t, sg.ch) then 0 else Get(s.count, sg, 0)
  {
  }

  /** How many writes to `sg` a run made, and how much the poller's reads found in it. */
  ghost function Written(pool: Pool, steps: seq<Step>, sg: Signal): nat
    requires After(pool, steps).Some?
  {
    if steps == [] then 0
    else
      var before, st := steps[..|steps| - 1], steps[|steps| - 1];
      Written(pool, before, sg) + if Writes(After(pool, before).value, st, sg) then 1 else 0
  }

  ghost function Read(pool: Pool, steps: seq<Step>, sg: Signal): nat
    requires After(pool, steps).Some?
  {
    if steps == [] then 0
    else
      var before, st := steps[..|steps| - 1], steps[|steps| - 1];
      Read(pool, before, sg)
      + if st == ReadCount(sg.t, sg.ch) then Get(After(pool, before).value.count, sg, 0) else 0
  }

  lemma OnlyWrites(s: State, st: Step, sg: Signal)
    ensures Writes(s, st, sg) ==> st.Write?
  {
  }

  /** Every push on a poller's queue is announced once: what was ever pushed is what the poller has read, what its
      counter holds, and what is still to be written. */
  lemma {:induction false} AnnouncedOnce(pool: Pool, steps: seq<Step>, sg: Signal)
    requires After(pool, steps).Some?
    ensures var s := After(pool, steps).value;
            && |Given(pool, steps, Queue(sg.ch, sg.t))| == Written(pool, steps, sg) + |OwedTo(s.owes, sg)|
            && Written(pool, steps, sg) == Read(pool, steps, sg) + Get(s.count, sg, 0)
  {
    hide Inv, Enabled, Apply, GivenBy, Writes;
    if steps == [] {
      assert OwedTo(Init(pool).owes, sg) == {};
    } else {
      var before, st := steps[..|steps| - 1], steps[|steps| - 1];
      var s := After(pool, before).value;
      AnnouncedOnce(pool, before, sg);
      RunKeeps(pool, before);
      StepAnnounces(s, st, sg);
      StepCounts(s, st, sg);
      OnlyWrites(s, st, sg);
    }
  }

  // ---------------------------------------------------------------------------------------------
  // workers

  function Larger(a: nat, b: nat): nat {
    if a < b then b else a
  }

  /** The greatest length that the work queue has had. */
  ghost function Longest(pool: Pool, steps: seq<Step>): nat
    requires After(pool, steps).Some?
  {
    var n := Work(After(pool, steps).value);
    if steps == [] then n else Larger(n, Longest(pool, steps[..|steps| - 1]))
  }

  /** How many steps of a run created a worker, and how many failed to. */
  function Created(steps: seq<Step>): nat {
    if steps == [] then 0
    else Created(steps[..|steps| - 1]) + if steps[|steps| - 1] == Spawn then 1 else 0
  }

  function NotCreated(steps: seq<Step>): nat {
    if steps == [] then 0
    else NotCreated(steps[..|steps| - 1]) + if steps[|steps| - 1] == SpawnFails then 1 else 0
  }

  function Submissions(steps: seq<Step>): nat {
    if steps == [] then 0
    else Submissions(steps[..|steps| - 1]) + if steps[|steps| - 1].SubmitFile? then 1 else 0
  }

  function Work(s: State): nat {
    |Seq(s.lists, WorkQueue)|
  }

  /** What a step does to the numbers of workers. */
  ghost predicate Employs(s: State, st: Step, s': State) {
    && s'.max == s.max
    && s'.workers == s.workers + (if st == Spawn then 1 else 0)
    && s'.failed == s.failed + (if st == SpawnFails then 1 else 0)
    && s'.reserved == s.reserved + (if st.SubmitFile? && Work(s) >= s.reserved && s.reserved < s.max then 1 else 0)
    && (s.max < 256 ==>
          s'.workers + s'.spawns + s'.failed - s'.reserved == s.workers + s.spawns + s.failed - s.reserved)
    && (s.max >= 256 ==>
          s'.workers + s'.spawns + s'.failed == s.workers + s.spawns + s.failed + if st.SubmitFile? then 1 else 0)
  }

  lemma SubmitEmploys(s: State, st: Step, s': State)
    requires Enabled(s, st) && st.SubmitFile? && s' == ApplyFiber(s, st)
    ensures Employs(s, st, s')
  {
  }

  lemma FiberEmploys(s: State, st: Step, s': State)
    requires Enabled(s, st) && ByFiber(st) && !st.SubmitFile? && s' == ApplyFiber(s, st)
    ensures Employs(s, st, s')
  {
  }

  lemma WorkerEmploys(s: State, st: Step, s': State)
    requires Enabled(s, st) && ByWorker(st) && s' == ApplyWorker(s, st)
    ensures Employs(s, st, s')
  {
  }

  lemma PollerEmploys(s: State, st: Step, s': State)
    requires Enabled(s, st) && !ByFiber(st) && !ByWorker(st) && s' == ApplyPoller(s, st)
    ensures Employs(s, st, s')
  {
  }

  lemma OnlySubmits(s: State, st: Step)
    requires Enabled(s, st)
    ensures To(MoveOf(s, st)) == Some(WorkQueue) <==> st.SubmitFile?
    ensures st.SubmitFile? ==> From(s.place, MoveOf(s, st)) == None
  {
  }

  lemma ListedWork(s: State, m: Move, s': State)
    requires FromHead(s, m) && s'.lists == Relisted(s.lists, From(s.place, m), m)
    ensures To(m) == Some(WorkQueue) && From(s.place, m) == None ==> Work(s') == Work(s) + 1
    ensures To(m) != Some(WorkQueue) ==> Work(s') <= Work(s)
  {
  }

  lemma MoveAllWork(s: State, st: Step, s': State)
    requires Enabled(s, st) && st.MoveAll? && s' == ApplyPoller(s, st)
    ensures Work(s') == Work(s)
  {
  }

  lemma StepWorks(s: State, st: Step)
    requires Inv(s) && Enabled(s, st)
    ensures var s' := Apply(s, st); if st.SubmitFile? then Work(s') == Work(s) + 1 else Work(s') <= Work(s)
  {
    hide Enabled, ApplyFiber, ApplyWorker, ApplyPoller, Work, MoveOf, Moved, FromHead, Relisted, OnItsWay, Handed, From,
         To, Inv;
    if st.MoveAll? {
      MoveAllWork(s, st, Apply(s, st));
    } else {
      StepMoves(s, st);
      OnlySubmits(s, st);
      ListedWork(s, MoveOf(s, st), Apply(s, st));
    }
  }

  lemma StepEmploys(s: State, st: Step)
    requires Inv(s) && Enabled(s, st)
    ensures Employs(s, st, Apply(s, st))
    ensures var s' := Apply(s, st); if st.SubmitFile? then Work(s') == Work(s) + 1 else Work(s') <= Work(s)
  {
    StepWorks(s, st);
    hide Enabled, ApplyFiber, ApplyWorker, ApplyPoller, Employs, Work, Inv;
    var s' := Apply(s, st);
    if st.SubmitFile? { SubmitEmploys(s, st, s'); }
    else if ByFiber(st) { FiberEmploys(s, st, s'); }
    else if ByWorker(st) { WorkerEmploys(s, st, s'); }
    else { PollerEmploys(s, st, s'); }
  }

  /** The group counts as many workers as its work queue was ever long, but no fewer than its least number and no
      more than its largest. In a group of fewer than 256 each of them runs, is to be created, or could not be; a larger
      group creates one more with every operation. */
  lemma {:induction false} WorkersCounted(pool: Pool, steps: seq<Step>)
    requires After(pool, steps).Some?
    ensures var s := After(pool, steps).value;
            && s.max == pool.max && s.reserved == Larger(pool.min, Min(pool.max, Longest(pool, steps)))
            && s.workers == pool.min + Created(steps) && s.failed == NotCreated(steps)
            && s.workers + s.spawns + s.failed ==
                 if pool.max < 256 then s.reserved else pool.min + Submissions(steps)
  {
    hide Inv, Enabled, Apply;
    if steps != [] {
      var before, st := steps[..|steps| - 1], steps[|steps| - 1];
      WorkersCounted(pool, before);
      RunKeeps(pool, before);
      StepEmploys(After(pool, before).value, st);
      LongestCovers(pool, before);
    }
  }

  lemma LongestCovers(pool: Pool, steps: seq<Step>)
    requires After(pool, steps).Some?
    ensures Work(After(pool, steps).value) <= Longest(pool, steps)
  {
  }
}
