/** The two loops that copy the contents of a file: one that lets the kernel move the bytes, and one that
    reads and puts them. */
module FileCopy {
  import opened Basics

  type Byte = bv8
  type Data = seq<Byte>

  /** `Running`: the system calls given are used up, and the loop would make another one. */
  datatype Verdict = Success | Failure | Running

  datatype Copied = Copied(dst: Data, verdict: Verdict)

  // ---------------------------------------------------------------------------------------------
  // moving

  /** One `sendfile`: up to so many of the bytes offered move, perhaps none, or it fails. */
  datatype Move = Moved(n: nat) | MoveFailed

  /** What the moves come to from `offset` on. */
  function Moves(src: Data, offset: nat, moves: seq<Move>): Copied
    requires offset <= |src|
    decreases moves
  {
    if moves == [] then Copied(src[..offset], Running)
    else if moves[0] == MoveFailed then Copied(src[..offset], Failure)
    else
      var next := offset + Min(moves[0].n, |src| - offset);
      if next < |src| then Moves(src, next, moves[1..]) else Copied(src[..next], Success)
  }

  /** `offset` is advanced by the kernel and `count` by the loop. */
  method MoveAll(src: Data, moves: seq<Move>) returns (dst: Data, verdict: Verdict)
    ensures Copied(dst, verdict) == Moves(src, 0, moves)
  {
    dst := [];
    var count, offset := |src|, 0;
    var rest := moves;
    while rest != []
      invariant 0 <= offset <= |src| && count == |src| - offset && dst == src[..offset]
      invariant Moves(src, offset, rest) == Moves(src, 0, moves)
    {
      var move := rest[0];
      rest := rest[1..];
      if move == MoveFailed { return dst, Failure; }
      var n := Min(move.n, count);
      dst := dst + src[offset..offset + n];
      offset := offset + n;
      count := count - n;
      if count == 0 { return dst, Success; }
    }
    return dst, Running;
  }

  /** However the transfers are cut: what has arrived is a prefix of the source, and success means all of it. */
  lemma {:induction false} MovesPrefix(src: Data, offset: nat, moves: seq<Move>)
    requires offset <= |src|
    ensures var c := Moves(src, offset, moves);
            && src[..offset] <= c.dst <= src
            && (c.verdict == Success ==> c.dst == src)
    decreases moves
  {
    if moves != [] && moves[0] != MoveFailed {
      var next := offset + Min(moves[0].n, |src| - offset);
      if next < |src| { MovesPrefix(src, next, moves[1..]); }
    }
  }

  function Total(moves: seq<Move>): nat {
    if moves == [] then 0 else (if moves[0].Moved? then moves[0].n else 0) + Total(moves[1..])
  }

  /** The loop succeeds exactly when some move completes the source before any fails: after so many moves that
      none of them failed and together they cover it. */
  lemma {:induction false} MovesSucceed(src: Data, offset: nat, moves: seq<Move>)
    requires offset <= |src|
    ensures Moves(src, offset, moves).verdict == Success <==>
              exists i :: 0 < i <= |moves| && MoveFailed !in moves[..i] && offset + Total(moves[..i]) >= |src|
    decreases moves
  {
    if moves != [] && moves[0] != MoveFailed {
      var next := offset + Min(moves[0].n, |src| - offset);
      assert moves[..1] == [moves[0]] && Total(moves[..1]) == moves[0].n;
      if next < |src| {
        MovesSucceed(src, next, moves[1..]);
        forall i | 0 < i <= |moves[1..]| ensures moves[..i + 1] == [moves[0]] + moves[1..][..i] &&
            moves[..i + 1][1..] == moves[1..][..i] {}
        forall i | 0 < i <= |moves| && MoveFailed !in moves[..i] && offset + Total(moves[..i]) >= |src|
          ensures exists j ::
                    0 < j <= |moves[1..]| && MoveFailed !in moves[1..][..j] && next + Total(moves[1..][..j]) >= |src|
        {
          assert i > 1;
          assert moves[..(i - 1) + 1] == [moves[0]] + moves[1..][..i - 1];
        }
        if j :| 0 < j <= |moves[1..]| && MoveFailed !in moves[1..][..j] && next + Total(moves[1..][..j]) >= |src| {
          assert Total(moves[..j + 1]) == moves[0].n + Total(moves[1..][..j]);
        }
      }
    } else if moves != [] {
      forall i | 0 < i <= |moves| ensures MoveFailed in moves[..i] { assert moves[..i][0] == MoveFailed; }
    }
  }

  /** The moves before the first that fails. */
  function Unfailed(moves: seq<Move>): (r: seq<Move>)
    ensures r <= moves && MoveFailed !in r && (|r| < |moves| ==> moves[|r|] == MoveFailed)
  {
    if moves == [] || moves[0] == MoveFailed then [] else [moves[0]] + Unfailed(moves[1..])
  }

  /** What has arrived and how the loop ends, by the total of the moves before the first failure alone. */
  lemma {:induction false} MovesExactly(src: Data, offset: nat, moves: seq<Move>)
    requires offset <= |src|
    ensures var good := Unfailed(moves);
            Moves(src, offset, moves) ==
              Copied(src[..Min(|src|, offset + Total(good))],
                     if good != [] && offset + Total(good) >= |src| then Success
                     else if |good| < |moves| then Failure
                     else Running)
    decreases moves
  {
    if moves != [] && moves[0] != MoveFailed {
      var next := offset + Min(moves[0].n, |src| - offset);
      assert Unfailed(moves)[1..] == Unfailed(moves[1..]);
      if next < |src| { MovesExactly(src, next, moves[1..]); }
    }
  }

  predicate Progress(moves: seq<Move>) {
    forall i :: 0 <= i < |moves| ==> moves[i].Moved? && moves[i].n > 0
  }

  /** If each transfer moves something, then a transfer per byte that is left, and one for an empty rest, are
      enough. */
  lemma {:induction false} MovesEnd(src: Data, offset: nat, moves: seq<Move>)
    requires offset <= |src| && Progress(moves) && |moves| > 0 && |moves| >= |src| - offset
    ensures Moves(src, offset, moves) == Copied(src, Success)
    decreases moves
  {
    var next := offset + Min(moves[0].n, |src| - offset);
    if next < |src| {
      MovesEnd(src, next, moves[1..]);
    } else {
      assert src[..next] == src;
    }
  }

  // ---------------------------------------------------------------------------------------------
  // reading and writing

  const BUFFER_SIZE: nat := 4096

  /** One `read`: up to so many bytes and one more, never more than the buffer holds or is left, so none only
      at the end; or it fails. One `write`: up to so many bytes and one more, or it is interrupted, or fails. */
  datatype ReadCall = Got(n: nat) | ReadFailed
  datatype WriteCall = Put(n: nat) | Interrupted | WriteFailed

  datatype Written = Written(dst: Data, rest: seq<WriteCall>, verdict: Verdict)

  /** Writing `chunk` from `pos` on. */
  function Writes(chunk: Data, pos: nat, dst: Data, puts: seq<WriteCall>): Written
    requires pos < |chunk|
    decreases puts
  {
    if puts == [] then Written(dst, [], Running)
    else
      match puts[0]
      case Interrupted => Writes(chunk, pos, dst, puts[1..])
      case WriteFailed => Written(dst, puts[1..], Failure)
      case Put(n) =>
        var next := pos + Min(1 + n, |chunk| - pos);
        var more := dst + chunk[pos..next];
        if next < |chunk| then Writes(chunk, next, more, puts[1..]) else Written(more, puts[1..], Success)
  }

  /** How much a read returns that starts with `left` bytes to go. */
  function ReadSize(n: nat, left: nat): nat {
    Min(Min(1 + n, BUFFER_SIZE), left)
  }

  function ReadsWrites(src: Data, offset: nat, dst: Data, gets: seq<ReadCall>, puts: seq<WriteCall>): Copied
    requires offset <= |src|
    decreases gets
  {
    if gets == [] then Copied(dst, Running)
    else if gets[0] == ReadFailed then Copied(dst, Failure)
    else
      var n := ReadSize(gets[0].n, |src| - offset);
      if n == 0 then Copied(dst, Success)
      else
        var w := Writes(src[offset..offset + n], 0, dst, puts);
        if w.verdict != Success then Copied(w.dst, w.verdict)
        else ReadsWrites(src, offset + n, w.dst, gets[1..], w.rest)
  }

  method WriteChunk(chunk: Data, dst0: Data, puts: seq<WriteCall>) returns (dst: Data, rest: seq<WriteCall>,
      verdict: Verdict)
    requires chunk != []
    ensures Written(dst, rest, verdict) == Writes(chunk, 0, dst0, puts)
  {
    dst, rest := dst0, puts;
    var pos := 0;
    while rest != []
      invariant 0 <= pos < |chunk|
      invariant Writes(chunk, pos, dst, rest) == Writes(chunk, 0, dst0, puts)
    {
      var call := rest[0];
      rest := rest[1..];
      match call {
        case Interrupted =>
        case WriteFailed => return dst, rest, Failure;
        case Put(n) =>
          var wn := Min(1 + n, |chunk| - pos);
          dst := dst + chunk[pos..pos + wn];
          pos := pos + wn;
          if pos == |chunk| { return dst, rest, Success; }
      }
    }
    return dst, rest, Running;
  }

  method ReadWriteAll(src: Data, gets: seq<ReadCall>, puts: seq<WriteCall>) returns (dst: Data, verdict: Verdict)
    ensures Copied(dst, verdict) == ReadsWrites(src, 0, [], gets, puts)
  {
    dst := [];
    var offset := 0;
    var rest, wrest := gets, puts;
    while rest != []
      invariant 0 <= offset <= |src|
      invariant ReadsWrites(src, offset, dst, rest, wrest) == ReadsWrites(src, 0, [], gets, puts)
    {
      var call := rest[0];
      rest := rest[1..];
      if call == ReadFailed { return dst, Failure; }
      var n := ReadSize(call.n, |src| - offset);
      if n == 0 { return dst, Success; }
      dst, wrest, verdict := WriteChunk(src[offset..offset + n], dst, wrest);
      if verdict != Success { return; }
      offset := offset + n;
    }
    return dst, Running;
  }

  lemma {:induction false} WritesPrefix(chunk: Data, pos: nat, dst: Data, puts: seq<WriteCall>)
    requires pos < |chunk|
    ensures var w := Writes(chunk, pos, dst, puts);
            && dst <= w.dst <= dst + chunk[pos..]
            && (w.verdict == Success ==> w.dst == dst + chunk[pos..])
    decreases puts
  {
    if puts != [] {
      match puts[0]
      case Interrupted => WritesPrefix(chunk, pos, dst, puts[1..]);
      case WriteFailed =>
      case Put(n) =>
        var next := pos + Min(1 + n, |chunk| - pos);
        assert chunk[pos..] == chunk[pos..next] + chunk[next..];
        assert dst + chunk[pos..] == (dst + chunk[pos..next]) + chunk[next..];
        if next < |chunk| { WritesPrefix(chunk, next, dst + chunk[pos..next], puts[1..]); }
    }
  }

  /** However the reads and the puts are cut, and wherever puts are interrupted: what has arrived is a
      prefix of the source, and success means all of it. */
  lemma {:induction false} ReadsWritesPrefix(src: Data, offset: nat, dst: Data, gets: seq<ReadCall>,
                                             puts: seq<WriteCall>)
    requires offset <= |src| && dst == src[..offset]
    ensures var c := ReadsWrites(src, offset, dst, gets, puts);
            && dst <= c.dst <= src
            && (c.verdict == Success ==> c.dst == src)
    decreases gets
  {
    if gets != [] && gets[0] != ReadFailed {
      var n := ReadSize(gets[0].n, |src| - offset);
      if n > 0 {
        var chunk := src[offset..offset + n];
        var w := Writes(chunk, 0, dst, puts);
        WritesPrefix(chunk, 0, dst, puts);
        assert dst + chunk == src[..offset + n];
        if w.verdict == Success { ReadsWritesPrefix(src, offset + n, w.dst, gets[1..], w.rest); }
      }
    }
  }

  /** The bytes that the puts would write. */
  function PutTotal(puts: seq<WriteCall>): nat {
    if puts == [] then 0 else (if puts[0].Put? then 1 + puts[0].n else 0) + PutTotal(puts[1..])
  }

  /** The first `j` puts are just enough for `need` bytes, and none of them fails. */
  predicate Covers(need: nat, puts: seq<WriteCall>, j: nat) {
    && 0 < j <= |puts| && WriteFailed !in puts[..j]
    && PutTotal(puts[..j - 1]) < need <= PutTotal(puts[..j])
  }

  lemma PutTotalFirst(puts: seq<WriteCall>, j: nat)
    requires 0 < j <= |puts|
    ensures PutTotal(puts[..j]) == (if puts[0].Put? then 1 + puts[0].n else 0) + PutTotal(puts[1..][..j - 1])
    ensures WriteFailed in puts[..j] <==> puts[0] == WriteFailed || WriteFailed in puts[1..][..j - 1]
  {
    assert puts[..j][1..] == puts[1..][..j - 1];
    assert puts[..j] == [puts[0]] + puts[1..][..j - 1];
  }

  /** What is needed of the puts after the first. */
  lemma CoversNext(need: nat, puts: seq<WriteCall>, j: nat)
    requires puts != [] && puts[0] != WriteFailed && need > (if puts[0].Put? then 1 + puts[0].n else 0)
    requires j > 0
    ensures Covers(need, puts, j + 1)
       <==> Covers(need - (if puts[0].Put? then 1 + puts[0].n else 0), puts[1..], j)
  {
    if j + 1 <= |puts| {
      PutTotalFirst(puts, j + 1);
      PutTotalFirst(puts, j);
    }
  }

  lemma NotCoveredByOne(need: nat, puts: seq<WriteCall>)
    requires puts != [] && need > (if puts[0].Put? then 1 + puts[0].n else 0)
    ensures !Covers(need, puts, 1)
  {
    PutTotalFirst(puts, 1);
  }

  lemma CoveredByOne(need: nat, puts: seq<WriteCall>, j: nat)
    requires puts != [] && puts[0].Put? && 0 < need <= 1 + puts[0].n
    ensures Covers(need, puts, j) <==> j == 1
  {
    PutTotalFirst(puts, 1);
    if 1 < j <= |puts| { PutTotalFirst(puts, j - 1); }
  }

  lemma FailedFirst(need: nat, puts: seq<WriteCall>, j: nat)
    requires puts != [] && puts[0] == WriteFailed
    ensures !Covers(need, puts, j)
  {
    if 0 < j <= |puts| { PutTotalFirst(puts, j); }
  }

  /** Some number of the first puts is just enough. */
  ghost predicate Enough(need: nat, puts: seq<WriteCall>) {
    exists j: nat :: Covers(need, puts, j)
  }

  /** `rest` is what just enough puts leave. */
  ghost predicate Leaves(need: nat, puts: seq<WriteCall>, rest: seq<WriteCall>) {
    forall j: nat :: Covers(need, puts, j) ==> rest == puts[j..]
  }

  lemma EnoughNext(need: nat, puts: seq<WriteCall>, n: nat, rest: seq<WriteCall>)
    requires puts != [] && puts[0] != WriteFailed && n == (if puts[0].Put? then 1 + puts[0].n else 0) && need > n
    ensures Enough(need, puts) <==> Enough(need - n, puts[1..])
    ensures Leaves(need, puts, rest) <==> Leaves(need - n, puts[1..], rest)
  {
    var need', puts' := need - n, puts[1..];
    NotCoveredByOne(need, puts);
    forall j: nat | j > 0 ensures Covers(need, puts, j + 1) <==> Covers(need', puts', j) { CoversNext(need, puts, j); }
    forall j: nat | Covers(need', puts', j) ensures Covers(need, puts, j + 1) && puts'[j..] == puts[j + 1..] {}
    forall j: nat | Covers(need, puts, j) ensures j > 1 && Covers(need', puts', j - 1) && puts'[j - 1..] == puts[j..] {
      assert Covers(need, puts, (j - 1) + 1);
    }
  }

  /** Writing a chunk succeeds exactly if some puts, none of them failed, together are enough for it; then the first so
      many are used. */
  lemma {:induction false} WritesSucceed(chunk: Data, pos: nat, dst: Data, puts: seq<WriteCall>)
    requires pos < |chunk|
    ensures var w := Writes(chunk, pos, dst, puts);
            && (w.verdict == Success <==> Enough(|chunk| - pos, puts))
            && (w.verdict == Success ==> Leaves(|chunk| - pos, puts, w.rest))
    decreases puts
  {
    var need := |chunk| - pos;
    if puts == [] {
    } else if puts[0] == WriteFailed {
      forall j: nat ensures !Covers(need, puts, j) { FailedFirst(need, puts, j); }
    } else {
      var n := if puts[0].Put? then 1 + puts[0].n else 0;
      var w := Writes(chunk, pos, dst, puts);
      if need <= n {
        forall j: nat ensures Covers(need, puts, j) <==> j == 1 { CoveredByOne(need, puts, j); }
        assert Covers(need, puts, 1);
      } else {
        var next := pos + n;
        WritesSucceed(chunk, next, dst + chunk[pos..next], puts[1..]);
        assert dst + chunk[pos..pos] == dst;
        EnoughNext(need, puts, n, w.rest);
      }
    }
  }

  /** The sizes of the reads, from `left` bytes to go on. */
  function Sizes(left: nat, gets: seq<ReadCall>): seq<nat> {
    if gets == [] then []
    else
      var n := if gets[0].Got? then ReadSize(gets[0].n, left) else 0;
      [n] + Sizes(left - n, gets[1..])
  }

  /** The puts can be cut so that there are just enough for each of the chunks, and none fails. */
  ghost predicate CoverAll(sizes: seq<nat>, puts: seq<WriteCall>)
    decreases sizes
  {
    sizes == [] || exists j: nat :: Covers(sizes[0], puts, j) && CoverAll(sizes[1..], puts[j..])
  }

  /** The first `i` reads get all that is left, the one after them finds the end, none of these fails, and the puts
      are enough. */
  ghost predicate CopiesBy(left: nat, gets: seq<ReadCall>, puts: seq<WriteCall>, i: nat) {
    && i < |gets| && ReadFailed !in gets[..i + 1] && SumOf(Sizes(left, gets[..i])) == left
    && 0 !in Sizes(left, gets[..i]) && CoverAll(Sizes(left, gets[..i]), puts)
  }

  function SumOf(sizes: seq<nat>): nat {
    if sizes == [] then 0 else sizes[0] + SumOf(sizes[1..])
  }

  ghost predicate Copies(left: nat, gets: seq<ReadCall>, puts: seq<WriteCall>) {
    exists i: nat :: CopiesBy(left, gets, puts, i)
  }

  lemma CopiesOneMore(left: nat, gets: seq<ReadCall>, puts: seq<WriteCall>, i: nat, n: nat)
    requires gets != [] && gets[0].Got? && n == ReadSize(gets[0].n, left) && n > 0
    ensures CopiesBy(left, gets, puts, i + 1)
       <==> exists j: nat :: Covers(n, puts, j) && CopiesBy(left - n, gets[1..], puts[j..], i)
    ensures !CopiesBy(left, gets, puts, 0)
  {
    assert gets[..0] == [];
    if i + 1 < |gets| {
      assert gets[..i + 1][1..] == gets[1..][..i] && gets[..i + 2] == [gets[0]] + gets[1..][..i + 1];
      var sizes, more := Sizes(left, gets[..i + 1]), Sizes(left - n, gets[1..][..i]);
      assert sizes == [n] + more && sizes[1..] == more;
    }
  }

  /** After the first chunk the loop goes on with the puts that are left. */
  lemma CopiesNext(left: nat, gets: seq<ReadCall>, puts: seq<WriteCall>, n: nat, rest: seq<WriteCall>)
    requires gets != [] && gets[0].Got? && n == ReadSize(gets[0].n, left) && n > 0
    requires Leaves(n, puts, rest)
    ensures Copies(left, gets, puts) <==> Enough(n, puts) && Copies(left - n, gets[1..], rest)
  {
    hide CopiesBy, PutTotal;
    var left', gets' := left - n, gets[1..];
    if i: nat :| CopiesBy(left, gets, puts, i) {
      CopiesOneMore(left, gets, puts, if i > 0 then i - 1 else 0, n);
      var j: nat :| Covers(n, puts, j) && CopiesBy(left - n, gets[1..], puts[j..], i - 1);
      assert CopiesBy(left', gets', rest, i - 1);
    }
    if Enough(n, puts) && Copies(left', gets', rest) {
      var j: nat :| Covers(n, puts, j);
      var i: nat :| CopiesBy(left', gets', rest, i);
      assert rest == puts[j..];
      CopiesOneMore(left, gets, puts, i, n);
    }
  }

  /** The loop over reads and puts succeeds exactly if reads that do not fail get the whole source and find its end,
      and the puts can be cut into just enough for each of their chunks, interrupted ones counting for nothing. */
  lemma {:induction false} ReadsWritesSucceed(src: Data, offset: nat, dst: Data, gets: seq<ReadCall>,
                                              puts: seq<WriteCall>)
    requires offset <= |src|
    ensures ReadsWrites(src, offset, dst, gets, puts).verdict == Success <==> Copies(|src| - offset, gets, puts)
    decreases gets
  {
    var left := |src| - offset;
    if gets == [] {
    } else if gets[0] == ReadFailed {
      forall i: nat ensures !CopiesBy(left, gets, puts, i) {
        if i < |gets| { assert gets[..i + 1][0] == ReadFailed; }
      }
    } else {
      var n := ReadSize(gets[0].n, left);
      if n == 0 {
        assert gets[..0] == [] && gets[..1] == [gets[0]] && CopiesBy(left, gets, puts, 0);
      } else {
        hide CopiesBy, Covers, Copies;
        var chunk := src[offset..offset + n];
        WritesSucceed(chunk, 0, dst, puts);
        var w := Writes(chunk, 0, dst, puts);
        if w.verdict == Success {
          ReadsWritesSucceed(src, offset + n, w.dst, gets[1..], w.rest);
          CopiesNext(left, gets, puts, n, w.rest);
        } else {
          CopiesNext(left, gets, puts, n, []);
        }
      }
    }
  }

  /** Writing a chunk fails exactly if it does not succeed and a put fails; otherwise it would go on. */
  lemma {:induction false} WritesFail(chunk: Data, pos: nat, dst: Data, puts: seq<WriteCall>)
    requires pos < |chunk|
    ensures var w := Writes(chunk, pos, dst, puts);
            && (w.verdict == Failure <==> w.verdict != Success && WriteFailed in puts)
            && (w.verdict == Success ==> (WriteFailed in w.rest <==> WriteFailed in puts))
    decreases puts
  {
    if puts != [] {
      match puts[0]
      case Interrupted => WritesFail(chunk, pos, dst, puts[1..]);
      case WriteFailed =>
      case Put(n) =>
        var next := pos + Min(1 + n, |chunk| - pos);
        if next < |chunk| { WritesFail(chunk, next, dst + chunk[pos..next], puts[1..]); }
    }
  }

  /** The loop over both fails only if a call did, and would go on only if it has used up all reads or all puts without
      one that failed. */
  lemma {:induction false} ReadsWritesFail(src: Data, offset: nat, dst: Data, gets: seq<ReadCall>,
                                           puts: seq<WriteCall>)
    requires offset <= |src|
    ensures var c := ReadsWrites(src, offset, dst, gets, puts);
            && (c.verdict == Failure ==> ReadFailed in gets || WriteFailed in puts)
            && (c.verdict == Running ==> ReadFailed !in gets || WriteFailed !in puts)
    decreases gets
  {
    if gets != [] && gets[0] != ReadFailed {
      var n := ReadSize(gets[0].n, |src| - offset);
      if n > 0 {
        var chunk := src[offset..offset + n];
        WritesFail(chunk, 0, dst, puts);
        var w := Writes(chunk, 0, dst, puts);
        if w.verdict == Success { ReadsWritesFail(src, offset + n, w.dst, gets[1..], w.rest); }
      }
    }
  }

  predicate CallsProgress(gets: seq<ReadCall>, puts: seq<WriteCall>) {
    ReadFailed !in gets && forall i :: 0 <= i < |puts| ==> puts[i].Put?
  }

  lemma {:induction false} WritesEnd(chunk: Data, pos: nat, dst: Data, puts: seq<WriteCall>)
    requires pos < |chunk| && CallsProgress([], puts) && |puts| >= |chunk| - pos
    ensures var w := Writes(chunk, pos, dst, puts);
            w.verdict == Success && CallsProgress([], w.rest) && |w.rest| >= |puts| - (|chunk| - pos)
    decreases puts
  {
    var next := pos + Min(1 + puts[0].n, |chunk| - pos);
    if next < |chunk| { WritesEnd(chunk, next, dst + chunk[pos..next], puts[1..]); }
  }

  /** If no call fails or is interrupted, a read per byte that is left and one more, and a write per byte, are
      enough. */
  lemma {:induction false} ReadsWritesEnd(src: Data, offset: nat, dst: Data, gets: seq<ReadCall>, puts: seq<WriteCall>)
    requires offset <= |src| && CallsProgress(gets, puts)
    requires |gets| > |src| - offset && |puts| >= |src| - offset
    ensures ReadsWrites(src, offset, dst, gets, puts).verdict == Success
    decreases gets
  {
    assert gets[0] in gets;
    var n := ReadSize(gets[0].n, |src| - offset);
    if n > 0 {
      WritesEnd(src[offset..offset + n], 0, dst, puts);
      var w := Writes(src[offset..offset + n], 0, dst, puts);
      ReadsWritesEnd(src, offset + n, w.dst, gets[1..], w.rest);
    }
  }

  /** Where both loops succeed they leave the same file: the source's contents. */
  lemma LoopsAgree(src: Data, moves: seq<Move>, gets: seq<ReadCall>, puts: seq<WriteCall>)
    requires Moves(src, 0, moves).verdict == Success && ReadsWrites(src, 0, [], gets, puts).verdict == Success
    ensures Moves(src, 0, moves).dst == ReadsWrites(src, 0, [], gets, puts).dst == src
  {
    MovesPrefix(src, 0, moves);
    ReadsWritesPrefix(src, 0, [], gets, puts);
  }
}
