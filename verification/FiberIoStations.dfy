/** The way of each event record: from where it is handed over, through lists and hands, to where it ends. */
module FiberIoStations {
  import opened Basics
  import opened FiberIo
  import opened FiberIoInvariant
  import opened FiberIoRuns
  import opened FiberIoSafety
  import opened FiberIoCompletion

  /** Where a record starts its way. */
  function Start(e: Event): Place {
    match e
    case FileOp(_, _) => WorkQueue
    case Message(_, _, f, _) => if e.CrossesThreads() then Queue(Events, f.home) else Mailbox(f)
    case TaskRequest(_, _, t) => Queue(Events, t)
    case ExitRequest(_, t) => Queue(Events, t)
  }

  /** Where the record of a handled operation goes from the thread `t`: a fiber of the thread resumes its owner at
      once, and otherwise the owner's poller does. */
  function Answers(e: Event, t: Tid): Place {
    match e.Owner()
    case None => Freed
    case Some(g) => if g.home == t && e.Message? then Done else Queue(Finished, g.home)
  }

  /** From `p` a record goes on to `q`. */
  predicate Follows(e: Event, p: Place, q: Place) {
    match p
    case WorkQueue => q.AtWorker?
    case AtWorker(_) => e.Owner().Some? && q == Queue(Finished, e.Owner().value.home)
    case Queue(ch, t) => q == Local(ch, t)
    case Local(ch, t) =>
      if ch == Finished then q == Done
      else (match e
            case Message(_, _, f, _) => q == Mailbox(f)
            case TaskRequest(_, _, _) => q == AtPoller(t)
            case _ => q == Freed)
    case AtPoller(_) => e.Owner().Some? && q == Queue(Finished, e.Owner().value.home)
    case Mailbox(f) => q == Held(f)
    case Held(f) => q == Answers(e, f.home)
    case Done => false
    case Freed => false
  }

  /** How far on its way a record is. */
  function Rank(p: Place): nat {
    match p
    case WorkQueue => 0
    case AtWorker(_) => 1
    case Queue(ch, _) => if ch == Events then 0 else 4
    case Local(ch, _) => if ch == Events then 1 else 5
    case AtPoller(_) => 2
    case Mailbox(_) => 2
    case Held(_) => 3
    case Done => 6
    case Freed => 6
  }

  datatype Move = Move(e: Event, to: Place) | NoMove

  /** The record that a step moves, if it moves a single one. */
  function MoveOf(s: State, st: Step): Move
    requires Enabled(s, st)
  {
    match st
    case SubmitFile(_, e) => Move(e, Start(e))
    case SendRemote(_, e) => Move(e, Start(e))
    case SendLocal(_, e) => Move(e, Start(e))
    case SendWaking(_, e) => Move(e, Start(e))
    case RequestTask(_, e) => Move(e, Start(e))
    case RequestExit(_, e) => Move(e, Start(e))
    case Receive(f) => Move(Seq(s.lists, Mailbox(f))[0], Held(f))
    case FreeEvent(f, e) => Move(e, Freed)
    case FinishHere(f, e) => Move(e, Done)
    case FinishThere(f, e) => Move(e, Queue(Finished, e.Owner().value.home))
    case PopWork(w) => Move(Seq(s.lists, WorkQueue)[0], AtWorker(w))
    case FinishWork(w) => Move(s.wkr[w].e, Queue(Finished, s.wkr[w].e.Owner().value.home))
    case PopFinished(t) => Move(Seq(s.lists, Local(Finished, t))[0], Done)
    case PopExit(t) => Move(Seq(s.lists, Local(Events, t))[0], Freed)
    case PopTask(t) => Move(Seq(s.lists, Local(Events, t))[0], AtPoller(t))
    case PopMessage(t) => var e := Seq(s.lists, Local(Events, t))[0]; Move(e, Mailbox(e.dst))
    case PopWaking(t) => var e := Seq(s.lists, Local(Events, t))[0]; Move(e, Mailbox(e.dst))
    case Answer(t) => Move(s.pc[t].e, Queue(Finished, s.pc[t].e.Owner().value.home))
    case _ => NoMove
  }

  function Moved(place: map<Event, Place>, m: Move): map<Event, Place> {
    match m case Move(e, q) => place[e := q] case NoMove => place
  }

  /** The move is the first on a record's way or the next. */
  ghost predicate OnItsWay(s: State, m: Move) {
    m.Move? ==> if m.e in s.place then Follows(m.e, s.place[m.e], m.to) else m.to == Start(m.e)
  }
}
