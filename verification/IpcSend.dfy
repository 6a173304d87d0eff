/** Sending on an IPC socket: partial sends, interrupted calls, and waiting for the socket to be writable. */
module IpcSend {
  import opened Basics

  type Byte = bv8

  datatype Error = Interrupted | WouldBlock | Reset | Broken | Other

  /** What one `sendmsg` comes to: the kernel takes some bytes, or it reports an error. */
  datatype Call = Took(n: nat) | Failed(error: Error)

  datatype Result = Success | End | Fail

  /** The state of a send: `wire` is what the kernel has accepted, and `rides` how many successful calls
      carried the socket. */
  datatype Sending = Sending(
    buf: seq<Byte>, pos: nat, skt: bool, result: Result, sent: Option<nat>, wire: seq<Byte>, rides: nat, done: bool)

  function Begin(buf: seq<Byte>, skt: bool): Sending {
    Sending(buf, 0, skt, Fail, None, [], 0, false)
  }

  /** The kernel never takes more than it is offered, nor nothing at all. */
  predicate Offered(s: Sending, c: Call) {
    c.Took? ==> 0 < c.n <= |s.buf| - s.pos
  }

  function Accepted(s: Sending, n: nat): (t: Sending)
    requires 0 < n <= |s.buf| - s.pos
  {
    s.(pos := s.pos + n, wire := s.wire + s.buf[s.pos..s.pos + n], skt := false,
        rides := s.rides + if s.skt then 1 else 0)
  }

  function Verdict(pos: nat, e: Error): Result {
    if pos > 0 then Success else if e == Reset || e == Broken then End else Fail
  }

  /** The effect of one call on a send that is not done. */
  function OnCall(s: Sending, c: Call): Sending
    requires Offered(s, c)
  {
    match c
    case Took(n) =>
      var t := Accepted(s, n);
      if t.pos < |t.buf| then t else t.(sent := Some(t.pos), result := Success, done := true)
    case Failed(e) =>
      if e == Interrupted || e == WouldBlock then s
      else s.(sent := if s.pos > 0 then Some(s.pos) else s.sent, result := Verdict(s.pos, e), done := true)
  }

  /** The kernel obeys its contract in each of the calls until the send is done. */
  predicate Obeys(s: Sending, calls: seq<Call>)
    decreases calls
  {
    calls != [] && !s.done ==> Offered(s, calls[0]) && Obeys(OnCall(s, calls[0]), calls[1..])
  }

  /** The state of the send after `calls`, in however many runs of the handler they were made. */
  function Feed(s: Sending, calls: seq<Call>): Sending
    requires Obeys(s, calls)
    decreases calls
  {
    if calls == [] || s.done then s else Feed(OnCall(s, calls[0]), calls[1..])
  }

  datatype Handled = Handled(s: Sending, rest: seq<Call>, armed: bool)

  /** One run of the handler: it ends when the send is done or the socket would block, and in the second case
      arms the registration again; the other calls are left for later runs. */
  function Handle(s: Sending, calls: seq<Call>): Handled
    requires Obeys(s, calls) && !s.done
    decreases calls
  {
    if calls == [] then Handled(s, [], false)
    else if calls[0] == Failed(WouldBlock) then Handled(s, calls[1..], true)
    else
      var t := OnCall(s, calls[0]);
      if t.done then Handled(t, calls[1..], false) else Handle(t, calls[1..])
  }

  /** The record of a send in its caller's stack frame. */
  class Record {
    const buf: array<Byte>
    var pos: nat
    var skt: bool
    var result: Result
    var sent: Option<nat>
    var armed: bool
    ghost var wire: seq<Byte>
    ghost var rides: nat

    constructor (buf: array<Byte>, skt: bool)
      requires buf.Length > 0
      ensures this.buf == buf && View(false) == Begin(buf[..], skt) && armed
    {
      this.buf := buf;
      pos := 0;
      this.skt := skt;
      result := Fail;
      sent := None;
      armed := true;
      wire := [];
      rides := 0;
    }

    ghost function View(done: bool): Sending
      reads this, buf
    {
      Sending(buf[..], pos, skt, result, sent, wire, rides, done)
    }

    /** The handler, run when the socket is writable. `calls` is what its system calls will come to. */
    method DoSend(calls: seq<Call>) returns (resume: bool, rest: seq<Call>)
      requires Obeys(View(false), calls) && pos < buf.Length
      modifies this
      ensures buf[..] == old(buf[..])
      ensures Handled(View(resume), rest, armed) == Handle(old(View(false)), calls)
    {
      armed := false;
      rest := calls;
      while rest != []
        invariant pos < buf.Length && !armed
        invariant Obeys(View(false), rest)
        invariant Handle(View(false), rest) == Handle(old(View(false)), calls)
        decreases |rest|
      {
        var call := rest[0];
        rest := rest[1..];
        match call {
          case Took(n) =>
            ghost var s := View(false);
            rides := rides + if skt then 1 else 0;
            skt := false;
            wire := wire + s.buf[pos..pos + n];
            pos := pos + n;
            assert View(false) == Accepted(s, n);
            if pos == buf.Length {
              sent := Some(pos);
              result := Success;
              return true, rest;
            }
          case Failed(error) =>
            if error == Interrupted {
            } else if error == WouldBlock {
              armed := true;
              return false, rest;
            } else {
              if pos > 0 {
                sent := Some(pos);
                result := Success;
              } else if error == Reset || error == Broken {
                result := End;
              } else {
                result := Fail;
              }
              return true, rest;
            }
        }
      }
      return false, rest;
    }
  }

  // ---------------------------------------------------------------------------------------------
  // what a send comes to

  /** What holds of a send of `buf`, with or without a socket, after any calls. */
  ghost predicate Conserved(s: Sending, skt: bool) {
    && s.pos <= |s.buf| && s.wire == s.buf[..s.pos]
    && s.skt == (skt && s.pos == 0) && s.rides == (if skt && s.pos > 0 then 1 else 0)
    && (s.pos == |s.buf| && |s.buf| > 0 ==> s.done)
    && (s.done ==> (s.result == Success <==> s.pos > 0) && (s.sent == if s.pos > 0 then Some(s.pos) else None))
    && (!s.done ==> s.result == Fail && s.sent == None)
  }

  lemma CallConserves(s: Sending, c: Call, skt: bool)
    requires Conserved(s, skt) && !s.done && Offered(s, c)
    ensures Conserved(OnCall(s, c), skt) && OnCall(s, c).buf == s.buf
  {
    if c.Took? {
      assert s.buf[..s.pos] + s.buf[s.pos..s.pos + c.n] == s.buf[..s.pos + c.n];
    }
  }

  lemma {:induction false} FeedConserves(s: Sending, calls: seq<Call>, skt: bool)
    requires Obeys(s, calls) && Conserved(s, skt)
    ensures Conserved(Feed(s, calls), skt) && Feed(s, calls).buf == s.buf
    decreases calls
  {
    if calls != [] && !s.done {
      CallConserves(s, calls[0], skt);
      FeedConserves(OnCall(s, calls[0]), calls[1..], skt);
    }
  }

  /** Whatever the calls come to, and however often the send waits: the kernel has accepted exactly the first
      `pos` bytes, in order; a socket rode on exactly one successful call, the first; a send that ends without
      success sent nothing; one that ends with success sent something and reports how much. */
  lemma StreamConserved(buf: seq<Byte>, skt: bool, calls: seq<Call>)
    requires |buf| > 0 && Obeys(Begin(buf, skt), calls)
    ensures var s := Feed(Begin(buf, skt), calls);
            && s.pos <= |buf| && s.wire == buf[..s.pos]
            && s.rides == (if skt && s.pos > 0 then 1 else 0)
            && (s.pos == |buf| ==> s.done && s.wire == buf)
            && (s.done ==> (s.result == Success <==> s.pos > 0) && (s.sent == if s.pos > 0 then Some(s.pos) else None))
  {
    FeedConserves(Begin(buf, skt), calls, skt);
    assert buf[..|buf|] == buf;
  }

  /** One run of the handler makes the first of the calls and leaves the rest as they are. */
  lemma {:induction false} HandleFeeds(s: Sending, calls: seq<Call>)
    requires Obeys(s, calls) && !s.done
    ensures var h := Handle(s, calls);
            Obeys(h.s, h.rest) && Feed(h.s, h.rest) == Feed(s, calls) && |h.rest| <= |calls| &&
            (h.armed ==> !h.s.done && |h.rest| < |calls|) && (!h.armed && !h.s.done ==> h.rest == [])
    decreases calls
  {
    if calls != [] && calls[0] != Failed(WouldBlock) {
      var t := OnCall(s, calls[0]);
      if !t.done { HandleFeeds(t, calls[1..]); }
    }
  }

  /** What a handler run makes is cut off the front of the calls: up to the first that would block, for which alone it
      arms the registration again, unless the send is done before. */
  lemma {:induction false} HandleStops(s: Sending, calls: seq<Call>)
    requires Obeys(s, calls) && !s.done
    ensures var h := Handle(s, calls);
            && |h.rest| <= |calls| && h.rest == calls[|calls| - |h.rest|..]
            && (forall j :: 0 <= j < |calls| - |h.rest| - 1 ==> calls[j] != Failed(WouldBlock))
            && (h.armed <==> |h.rest| < |calls| && calls[|calls| - |h.rest| - 1] == Failed(WouldBlock))
    decreases calls
  {
    if calls != [] && calls[0] != Failed(WouldBlock) {
      var t := OnCall(s, calls[0]);
      if !t.done {
        HandleStops(t, calls[1..]);
        var h := Handle(t, calls[1..]);
        var n := |calls| - |h.rest|;
        forall j | 0 <= j < n - 1 ensures calls[j] != Failed(WouldBlock) {
          if j > 0 { assert calls[1..][j - 1] == calls[j]; }
        }
      }
    }
  }

  /** The send over all its handler runs: each run that would block is followed by another. */
  function HandleAll(s: Sending, calls: seq<Call>): Sending
    requires Obeys(s, calls) && !s.done
    decreases |calls|
  {
    HandleFeeds(s, calls);
    var h := Handle(s, calls);
    if h.armed then HandleAll(h.s, h.rest) else h.s
  }

  /** It makes no difference where the socket would block: the handler runs together do what the calls do in
      a row. */
  lemma {:induction false} RunsFeed(s: Sending, calls: seq<Call>)
    requires Obeys(s, calls) && !s.done
    ensures HandleAll(s, calls) == Feed(s, calls)
    decreases |calls|
  {
    HandleFeeds(s, calls);
    var h := Handle(s, calls);
    if h.armed { RunsFeed(h.s, h.rest); }
  }

  predicate Fatal(c: Call) {
    c.Failed? && c.error != Interrupted && c.error != WouldBlock
  }

  /** The bytes that the calls take. */
  function Sum(calls: seq<Call>): nat {
    if calls == [] then 0 else (if calls[0].Took? then calls[0].n else 0) + Sum(calls[1..])
  }

  /** Call `i` is the first to fail for good, and the send still has bytes to offer when it is made. */
  predicate FailsAt(s: Sending, calls: seq<Call>, i: nat) {
    && i < |calls| && Fatal(calls[i]) && (forall j :: 0 <= j < i ==> !Fatal(calls[j]))
    && s.pos + Sum(calls[..i]) < |s.buf|
  }

  /** The first `i` calls take everything that is left, and none of them fails for good. */
  predicate FinishesAt(s: Sending, calls: seq<Call>, i: nat) {
    && i <= |calls| && (forall j :: 0 <= j < i ==> !Fatal(calls[j]))
    && s.pos + Sum(calls[..i]) == |s.buf|
  }

  lemma SumFirst(calls: seq<Call>, i: nat)
    requires 0 < i <= |calls|
    ensures Sum(calls[..i]) == (if calls[0].Took? then calls[0].n else 0) + Sum(calls[1..][..i - 1])
  {
    assert calls[..i][1..] == calls[1..][..i - 1];
  }

  /** Where a send that is not done fails or finishes, seen after its first call. */
  lemma OneCallOn(s: Sending, calls: seq<Call>, i: nat)
    requires calls != [] && !s.done && Offered(s, calls[0]) && !Fatal(calls[0]) && i > 0
    ensures FailsAt(s, calls, i) <==> FailsAt(OnCall(s, calls[0]), calls[1..], i - 1)
    ensures FinishesAt(s, calls, i) <==> FinishesAt(OnCall(s, calls[0]), calls[1..], i - 1)
  {
    if i <= |calls| { SumFirst(calls, i); }
    assert (forall j :: 0 <= j < i && j < |calls| ==> !Fatal(calls[j])) <==>
           (forall j :: 0 <= j < i - 1 && j < |calls[1..]| ==> !Fatal(calls[1..][j])) by {
      if forall j :: 0 <= j < i - 1 && j < |calls[1..]| ==> !Fatal(calls[1..][j]) {
        forall j | 0 <= j < i && j < |calls| ensures !Fatal(calls[j]) {
          if j > 0 { assert !Fatal(calls[1..][j - 1]); }
        }
      }
    }
  }

  /** Which calls end a send and how. It finishes exactly if some calls without a fatal failure among them
      take all the bytes left, and fails exactly if a fatal failure comes before that. Then it reports success
      exactly if bytes were taken before; so success leaves bytes unsent exactly if the first call that fails
      for good comes after some bytes and before all of them. */
  lemma {:induction false} EndsExactly(s: Sending, calls: seq<Call>, skt: bool)
    requires Obeys(s, calls) && Conserved(s, skt) && !s.done && |s.buf| > 0
    ensures var t := Feed(s, calls);
            && (t.done && t.pos == |s.buf| <==> exists i: nat :: FinishesAt(s, calls, i))
            && (t.done && t.pos < |s.buf| <==> exists i: nat :: FailsAt(s, calls, i))
            && (forall i: nat :: FailsAt(s, calls, i) ==> t.pos == s.pos + Sum(calls[..i]))
    decreases calls
  {
    if calls == [] {
    } else if Fatal(calls[0]) {
      assert FailsAt(s, calls, 0) by { assert calls[..0] == []; }
      forall i: nat | FailsAt(s, calls, i) ensures i == 0 && calls[..i] == [] {}
      forall i: nat ensures !FinishesAt(s, calls, i) { if i == 0 { assert calls[..0] == []; } }
    } else {
      var c, rest := calls[0], calls[1..];
      var u := OnCall(s, c);
      CallConserves(s, c, skt);
      assert calls[..0] == [] && !FailsAt(s, calls, 0) && !FinishesAt(s, calls, 0);
      forall i: nat | i > 0
        ensures FailsAt(s, calls, i) <==> FailsAt(u, rest, i - 1)
        ensures FinishesAt(s, calls, i) <==> FinishesAt(u, rest, i - 1)
        ensures i <= |calls| ==> s.pos + Sum(calls[..i]) == u.pos + Sum(rest[..i - 1])
      {
        OneCallOn(s, calls, i);
        if i <= |calls| { SumFirst(calls, i); }
      }
      if u.done {
        assert rest[..0] == [] && FinishesAt(u, rest, 0);
        assert FinishesAt(s, calls, 1);
      } else {
        EndsExactly(u, rest, skt);
        if i: nat :| FinishesAt(u, rest, i) { assert FinishesAt(s, calls, i + 1); }
        if i: nat :| FailsAt(u, rest, i) { assert FailsAt(s, calls, i + 1); }
        if i: nat :| FinishesAt(s, calls, i) { assert FinishesAt(u, rest, i - 1); }
        if i: nat :| FailsAt(s, calls, i) { assert FailsAt(u, rest, i - 1); }
      }
    }
  }

  /** What a send returns, by the first of its calls that fails for good: success if the calls before it took anything,
      the end of the connection if it was reset or broken, and a failure otherwise. A send whose calls took everything
      before returned success. */
  lemma {:induction false} ReturnsExactly(s: Sending, calls: seq<Call>, skt: bool, i: nat)
    requires Obeys(s, calls) && Conserved(s, skt) && !s.done && |s.buf| > 0
    ensures FailsAt(s, calls, i) ==>
              Feed(s, calls).result ==
                if s.pos + Sum(calls[..i]) > 0 then Success
                else if calls[i].error in {Reset, Broken} then End
                else Fail
    ensures FinishesAt(s, calls, i) ==> Feed(s, calls).result == Success
    decreases calls
  {
    EndsExactly(s, calls, skt);
    FeedConserves(s, calls, skt);
    if FailsAt(s, calls, i) && !Fatal(calls[0]) {
      var u := OnCall(s, calls[0]);
      CallConserves(s, calls[0], skt);
      OneCallOn(s, calls, i);
      SumFirst(calls, i);
      if !u.done { ReturnsExactly(u, calls[1..], skt, i - 1); }
    }
  }

  /** A send reports success with bytes unsent exactly if the first call that fails for good comes after some
      bytes were taken and before all were. */
  lemma PartialExactly(s: Sending, calls: seq<Call>, skt: bool)
    requires Obeys(s, calls) && Conserved(s, skt) && !s.done && |s.buf| > 0
    ensures var t := Feed(s, calls);
            t.done && t.result == Success && t.pos < |s.buf| <==>
              exists i: nat :: FailsAt(s, calls, i) && 0 < s.pos + Sum(calls[..i])
  {
    EndsExactly(s, calls, skt);
    FeedConserves(s, calls, skt);
  }

  /** An input on which success leaves a byte unsent: two bytes, one taken, then the connection is reset. A
      caller that passed a socket is not told how much was sent. */
  lemma PartialWitness(buf: seq<Byte>)
    requires |buf| == 2
    ensures var calls := [Took(1), Failed(Reset)];
            && Obeys(Begin(buf, true), calls)
            && var t := Feed(Begin(buf, true), calls);
               t.done && t.result == Success && t.pos == 1 && t.wire == buf[..1] && t.rides == 1
  {
    var s := Begin(buf, true);
    var calls := [Took(1), Failed(Reset)];
    var t := OnCall(s, calls[0]);
    assert calls[1..] == [Failed(Reset)] && !t.done && t.pos == 1 && t.wire == buf[..1];
    assert [Failed(Reset)][1..] == [];
    assert Obeys(t, calls[1..]);
  }
}
