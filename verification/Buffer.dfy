/** The byte buffer with a read and a write position, and the encoding of numbers in it. */
module Buffer {
  import opened Basics
  import opened ByteOrder
  import opened MemorySpring

  /** `Aborted` is the end of the process by an assertion that is always on. */
  datatype Status = Ok | NoBufs | Fail | Aborted

  /** The bytes that a buffer holds in itself. */
  const INIT_SIZE: nat := 16

  lemma SamePrefix(a: seq<Byte>, b: seq<Byte>, r: nat, w: nat)
    requires r <= w <= |b| <= |a| && forall i :: 0 <= i < |b| ==> a[i] == b[i]
    ensures a[..|b|] == b && a[r..w] == b[r..w]
  {
  }

  lemma Appended(a: seq<Byte>, b: seq<Byte>, r: nat, w: nat, data: seq<Byte>)
    requires |a| == |b| && r <= w && w + |data| <= |b|
    requires forall i :: 0 <= i < w ==> b[i] == a[i]
    requires forall i :: w <= i < w + |data| ==> b[i] == data[i - w]
    ensures b[r..w + |data|] == a[r..w] + data && b[..w] == a[..w]
  {
  }

  class Buf {
    var p: array<Byte>
    var rpos: nat
    var wpos: nat
    const readonly: bool
    const spring: Spring
    const bigEndian: bool

    /** `TT_BUF_CHECK`. */
    ghost predicate Valid()
      reads this
    {
      rpos <= wpos <= p.Length < U32 && spring.Grows()
    }

    /** The bytes that can be read. */
    ghost function Content(): (s: seq<Byte>)
      requires Valid()
      reads this, p
    {
      p[rpos..wpos]
    }

    /** An empty buffer over fresh memory. */
    constructor (length: nat, spring: Spring, bigEndian: bool)
      requires length < U32 && spring.Grows()
      ensures Valid() && Content() == [] && fresh(p) && p.Length == length && !readonly
      ensures this.spring == spring && this.bigEndian == bigEndian
    {
      p := new Byte[length];
      rpos, wpos := 0, 0;
      readonly := false;
      this.spring := spring;
      this.bigEndian := bigEndian;
    }

    /** `tt_buf_create`: a small buffer needs no memory; a larger one grows from nothing. */
    static method Create(size: nat, spring: Spring, bigEndian: bool, memory: bool) returns (buf: Buf?)
      requires size < U32 && spring.Grows()
      ensures buf == null <==> size >= INIT_SIZE && !(memory && spring.GrownSize(0, size).Some?)
      ensures buf != null ==>
                && fresh(buf) && fresh(buf.p) && buf.Valid() && buf.Content() == [] && !buf.readonly
                && buf.spring == spring && buf.bigEndian == bigEndian && buf.p.Length >= size
                && buf.p.Length == if size < INIT_SIZE then INIT_SIZE else spring.GrownSize(0, size).value
    {
      if size < INIT_SIZE {
        buf := new Buf(INIT_SIZE, spring, bigEndian);
      } else {
        var length := spring.Grow(0, size);
        if length == None || !memory { return null; }
        buf := new Buf(length.value, spring, bigEndian);
      }
    }

    /** A read-only buffer over the caller's data. */
    constructor NoCopy(data: array<Byte>, spring: Spring, bigEndian: bool)
      requires data.Length < U32 && spring.Grows()
      ensures Valid() && Content() == data[..] && readonly
      ensures this.spring == spring && this.bigEndian == bigEndian
    {
      p := data;
      rpos, wpos := 0, data.Length;
      readonly := true;
      this.spring := spring;
      this.bigEndian := bigEndian;
    }

    // -------------------------------------------------------------------------------------------
    // memory

    /** `__buf_extend`; `memory` says whether the allocator has enough. */
    method Extend(to: nat, memory: bool) returns (r: Status)
      requires Valid() && to < U32
      modifies this`p
      ensures Valid() && Content() == old(Content())
      ensures r == (if readonly then Fail else if to <= old(p.Length) then Aborted
                    else if memory && spring.GrownSize(old(p.Length), to).Some? then Ok else Fail)
      ensures r == Ok ==> p.Length >= to && fresh(p) && Some(p.Length) == spring.GrownSize(old(p.Length), to)
      ensures r == Ok ==> p[..old(p.Length)] == old(p[..])
      ensures r != Ok ==> p == old(p)
    {
      if readonly { return Fail; }
      if to <= p.Length { return Aborted; }
      var newSize := spring.Grow(p.Length, to);
      if newSize == None || !memory { return Fail; }
      var q := new Byte[newSize.value];
      forall i | 0 <= i < p.Length { q[i] := p[i]; }
      SamePrefix(q[..], p[..], rpos, wpos);
      assert q[..p.Length] == q[..][..p.Length];
      assert q[rpos..wpos] == q[..][rpos..wpos] && p[..][rpos..wpos] == p[rpos..wpos];
      p := q;
      return Ok;
    }

    /** There is room for `n` more bytes, or the buffer can grow by as much. */
    predicate Grants(n: nat, memory: bool)
      requires p.Length < U32 && wpos <= p.Length && spring.Grows()
      reads this
    {
      n <= p.Length - wpos ||
      (!readonly && p.Length + n < U32 && memory && spring.GrownSize(p.Length, p.Length + n).Some?)
    }

    /** `tt_buf_reserve`: the sum wraps around at 32 bits, and then the process ends; otherwise there is room
        for `n` more bytes, or the buffer is as it was. */
    method Reserve(n: nat, memory: bool) returns (r: Status)
      requires Valid() && n < U32
      modifies this`p
      ensures Valid() && Content() == old(Content())
      ensures r == Ok <==> old(Grants(n, memory))
      ensures r == Ok ==> p.Length - wpos >= n && p.Length >= old(p.Length) && p[..old(p.Length)] == old(p[..])
      ensures r != Ok ==> p == old(p) && n > p.Length - wpos
      ensures r == Aborted <==> n > old(p.Length) - wpos && !readonly && old(p.Length) + n >= U32
      ensures p == old(p) || (fresh(p) && !readonly)
    {
      hide Spring.GrownSize;
      if p.Length - wpos >= n { return Ok; }
      var to := (p.Length + n) % U32;
      assert to == if p.Length + n < U32 then p.Length + n else p.Length + n - U32;
      r := Extend(to, memory);
    }

    // -------------------------------------------------------------------------------------------
    // input and output

    method Put(data: seq<Byte>, memory: bool) returns (r: Status)
      requires Valid() && |data| < U32
      modifies this`p, this`wpos, p
      ensures Valid() && rpos == old(rpos) && (p == old(p) || fresh(p))
      ensures Content() == old(Content()) + (if r == Ok then data else [])
      ensures r == Ok <==> !readonly && old(Grants(|data|, memory))
      ensures r == Aborted <==> !readonly && |data| > old(p.Length - wpos) && old(p.Length) + |data| >= U32
      ensures wpos <= p.Length && p[..old(wpos)] == old(p[..wpos])
      ensures readonly ==> p[..] == old(p[..])
    {
      hide Spring.GrownSize;
      if readonly { return Fail; }
      if |data| != 0 {
        r := Reserve(|data|, memory);
        if r != Ok { return; }
        ghost var before := p[..];
        forall i | wpos <= i < wpos + |data| { p[i] := data[i - wpos]; }
        Appended(before, p[..], rpos, wpos, data);
        wpos := wpos + |data|;
      }
      return Ok;
    }

    /** A short read fails, and leaves everything as it is. */
    method Peek(len: nat) returns (r: Status, data: seq<Byte>)
      requires Valid()
      ensures r == (if |Content()| < len then NoBufs else Ok)
      ensures r == Ok ==> data == Content()[..len]
    {
      if wpos - rpos < len { return NoBufs, []; }
      return Ok, p[rpos..rpos + len];
    }

    method Get(len: nat) returns (r: Status, data: seq<Byte>)
      requires Valid()
      modifies this`rpos
      ensures Valid() && r == (if old(|Content()|) < len then NoBufs else Ok)
      ensures r == Ok ==> data + Content() == old(Content()) && |data| == len
      ensures r != Ok ==> rpos == old(rpos)
    {
      r, data := Peek(len);
      if r != Ok { return; }
      rpos := rpos + len;
    }

    // -------------------------------------------------------------------------------------------
    // positions

    method IncRp(n: nat) returns (r: Status)
      requires Valid()
      modifies this`rpos
      ensures Valid() && r == (if n <= old(|Content()|) then Ok else NoBufs)
      ensures Content() == if r == Ok then old(Content())[n..] else old(Content())
    {
      if n <= wpos - rpos { rpos := rpos + n; return Ok; } else { return NoBufs; }
    }

    /** Makes bytes readable again. */
    method DecRp(n: nat) returns (r: Status)
      requires Valid()
      modifies this`rpos
      ensures Valid() && r == (if n <= old(rpos) then Ok else Fail)
      ensures Content() == if r == Ok then p[old(rpos) - n..old(rpos)] + old(Content()) else old(Content())
    {
      if n <= rpos { rpos := rpos - n; return Ok; } else { return Fail; }
    }

    method IncWp(n: nat) returns (r: Status)
      requires Valid()
      modifies this`wpos
      ensures Valid() && r == (if n <= p.Length - old(wpos) then Ok else NoBufs)
      ensures Content() == if r == Ok then old(Content()) + p[old(wpos)..old(wpos) + n] else old(Content())
    {
      if n <= p.Length - wpos { wpos := wpos + n; return Ok; } else { return NoBufs; }
    }

    method DecWp(n: nat) returns (r: Status)
      requires Valid()
      modifies this`wpos
      ensures Valid() && r == (if n <= old(|Content()|) then Ok else Fail)
      ensures Content() == if r == Ok then old(Content())[..old(|Content()|) - n] else old(Content())
    {
      if n <= wpos - rpos { wpos := wpos - n; return Ok; } else { return Fail; }
    }

    method Backup() returns (r: nat, w: nat)
      requires Valid()
      ensures r == rpos && w == wpos && Content() == p[r..w]
    {
      w := wpos;
      r := rpos;
    }

    /** Any positions are taken; the buffer is well formed afterwards exactly if they fit its memory. */
    method Restore(r: nat, w: nat)
      requires Valid()
      modifies this`rpos, this`wpos
      ensures rpos == r && wpos == w
      ensures Valid() <==> r <= w <= p.Length
      ensures Valid() ==> Content() == p[r..w]
    {
      wpos := w;
      rpos := r;
    }

    /** Moves the content to the start of the memory, and so makes room behind it. */
    method Refine() returns (refined: nat)
      requires Valid()
      modifies this`rpos, this`wpos, p
      ensures Valid() && Content() == old(Content())
      ensures refined == if readonly then 0 else old(rpos)
      ensures rpos == old(rpos) - refined && wpos == old(wpos) - refined
      ensures readonly ==> p[..] == old(p[..])
    {
      if readonly { return 0; }
      if rpos == 0 { return 0; }
      refined := rpos;
      if rpos == wpos {
        rpos, wpos := 0, 0;
      } else {
        var len := wpos - rpos;
        forall i | 0 <= i < len { p[i] := p[rpos + i]; }
        rpos := 0;
        wpos := len;
      }
    }

    // -------------------------------------------------------------------------------------------
    // numbers

    /** `tt_buf_put_uN_n`: the number appears in network order, whatever the host's. */
    method PutNumber(v: nat, n: nat, memory: bool) returns (r: Status)
      requires Valid() && v < Power(n) && n < U32
      modifies this`p, this`wpos, p
      ensures Valid() && rpos == old(rpos) && (p == old(p) || fresh(p))
      ensures Content() == old(Content()) + if r == Ok then Big(v, n) else []
      ensures r == Ok <==> !readonly && old(Grants(n, memory))
    {
      NetworkOrder(v, n, bigEndian);
      r := Put(Memory(Swapped(v, n, bigEndian), n, bigEndian), memory);
    }

    /** `tt_buf_get_uN_h`. */
    method GetNumber(n: nat) returns (r: Status, v: nat)
      requires Valid()
      modifies this`rpos
      ensures Valid() && r == (if old(|Content()|) < n then NoBufs else Ok)
      ensures r == Ok ==> v == FromBig(old(Content())[..n]) && Content() == old(Content())[n..]
      ensures r != Ok ==> rpos == old(rpos)
    {
      var data;
      r, data := Get(n);
      if r != Ok { return r, 0; }
      assert data == old(Content())[..n];
      HostOrder(data, bigEndian);
      v := Swapped(Value(data, bigEndian), n, bigEndian);
    }

    /** `tt_buf_peek_u32_h`, for any width. */
    method PeekNumber(n: nat) returns (r: Status, v: nat)
      requires Valid()
      ensures r == (if |Content()| < n then NoBufs else Ok)
      ensures r == Ok ==> v == FromBig(Content()[..n])
    {
      var data;
      r, data := Peek(n);
      if r != Ok { return r, 0; }
      HostOrder(data, bigEndian);
      v := Swapped(Value(data, bigEndian), n, bigEndian);
    }
  }

  // ---------------------------------------------------------------------------------------------
  // what can be read back

  /** A number and its width in bytes: 1, 2, 4 or 8 for the source's integer types. */
  datatype Number = Number(v: nat, n: nat)
  {
    predicate Fits() {
      v < Power(n)
    }
  }

  function Encoded(numbers: seq<Number>): seq<Byte> {
    if numbers == [] then [] else Big(numbers[0].v, numbers[0].n) + Encoded(numbers[1..])
  }

  datatype Decoding = Decoding(values: seq<nat>, rest: seq<Byte>, complete: bool)

  /** Successive gets of the given widths; the first short one fails and takes nothing. */
  function Decoded(s: seq<Byte>, widths: seq<nat>): Decoding
    decreases widths
  {
    if widths == [] then Decoding([], s, true)
    else if |s| < widths[0] then Decoding([], s, false)
    else
      var d := Decoded(s[widths[0]..], widths[1..]);
      Decoding([FromBig(s[..widths[0]])] + d.values, d.rest, d.complete)
  }

  function Widths(numbers: seq<Number>): seq<nat> {
    if numbers == [] then [] else [numbers[0].n] + Widths(numbers[1..])
  }

  function Values(numbers: seq<Number>): seq<nat> {
    if numbers == [] then [] else [numbers[0].v] + Values(numbers[1..])
  }

  /** Numbers of mixed widths, put in a row, are got back as they were by gets of the same widths, and what
      follows them is left. */
  lemma {:induction false} RoundTrip(numbers: seq<Number>, rest: seq<Byte>)
    requires forall i :: 0 <= i < |numbers| ==> numbers[i].Fits()
    ensures Decoded(Encoded(numbers) + rest, Widths(numbers)) == Decoding(Values(numbers), rest, true)
  {
    if numbers == [] {
      assert Encoded(numbers) + rest == rest;
    } else {
      var v, n := numbers[0].v, numbers[0].n;
      var s := Encoded(numbers) + rest;
      var tail := Encoded(numbers[1..]) + rest;
      BigInverse(v, n);
      assert s == Big(v, n) + tail;
      assert s[..n] == Big(v, n) && s[n..] == tail;
      assert Widths(numbers)[1..] == Widths(numbers[1..]);
      RoundTrip(numbers[1..], rest);
    }
  }

  /** Bytes that are too few for the gets: those that succeed take whole numbers from the front, and the
      first that does not leaves the rest as it is. */
  lemma {:induction false} ShortGetKeeps(s: seq<Byte>, widths: seq<nat>)
    ensures var d := Decoded(s, widths);
            if d.complete then |d.values| == |widths| else |d.values| < |widths| && |d.rest| < widths[|d.values|]
    decreases widths
  {
    if widths != [] && |s| >= widths[0] {
      ShortGetKeeps(s[widths[0]..], widths[1..]);
    }
  }

  lemma {:induction false} RestIsSuffix(s: seq<Byte>, widths: seq<nat>)
    ensures var d := Decoded(s, widths); |d.rest| <= |s| && d.rest == s[|s| - |d.rest|..]
    decreases widths
  {
    if widths != [] && |s| >= widths[0] {
      RestIsSuffix(s[widths[0]..], widths[1..]);
    }
  }

  /** A caller that puts all the numbers. */
  method PutAll(buf: Buf, numbers: seq<Number>, memory: bool) returns (ok: bool)
    requires buf.Valid() && forall i :: 0 <= i < |numbers| ==> numbers[i].Fits() && numbers[i].n < U32
    modifies buf, buf.p
    ensures buf.Valid() && (buf.p == old(buf.p) || fresh(buf.p))
    ensures ok ==> buf.Content() == old(buf.Content()) + Encoded(numbers)
  {
    var rest := numbers;
    while rest != []
      invariant buf.Valid() && (buf.p == old(buf.p) || fresh(buf.p))
      invariant forall i :: 0 <= i < |rest| ==> rest[i].Fits() && rest[i].n < U32
      invariant buf.Content() + Encoded(rest) == old(buf.Content()) + Encoded(numbers)
      decreases |rest|
    {
      var r := buf.PutNumber(rest[0].v, rest[0].n, memory);
      if r != Ok { return false; }
      rest := rest[1..];
    }
    return true;
  }

  /** A caller that gets numbers of the given widths. */
  method GetAll(buf: Buf, widths: seq<nat>) returns (values: seq<nat>, ok: bool)
    requires buf.Valid()
    modifies buf`rpos
    ensures buf.Valid() && Decoding(values, buf.Content(), ok) == Decoded(old(buf.Content()), widths)
  {
    values := [];
    var rest := widths;
    while rest != []
      invariant buf.Valid()
      invariant var d := Decoded(buf.Content(), rest);
                Decoding(values + d.values, d.rest, d.complete) == Decoded(old(buf.Content()), widths)
      decreases |rest|
    {
      ghost var ahead := Decoded(buf.Content(), rest);
      var r, v := buf.GetNumber(rest[0]);
      if r != Ok { return values, false; }
      ghost var d := Decoded(buf.Content(), rest[1..]);
      assert ahead == Decoding([v] + d.values, d.rest, d.complete);
      assert values + ahead.values == values + [v] + d.values;
      values := values + [v];
      rest := rest[1..];
    }
    return values, true;
  }

  /** Everything put is got back, and the buffer is as it was. */
  method PutThenGet(buf: Buf, numbers: seq<Number>, memory: bool) returns (values: seq<nat>, put: bool, got: bool)
    requires buf.Valid() && buf.Content() == []
    requires forall i :: 0 <= i < |numbers| ==> numbers[i].Fits() && numbers[i].n < U32
    modifies buf, buf.p
    ensures buf.Valid() && (put ==> got && values == Values(numbers) && buf.Content() == [])
  {
    put := PutAll(buf, numbers, memory);
    if !put { return [], false, false; }
    RoundTrip(numbers, []);
    assert buf.Content() == Encoded(numbers) == Encoded(numbers) + [];
    values, got := GetAll(buf, Widths(numbers));
  }

  /** A caller that gives back what it has read when not everything is there yet. */
  method GetAllOrNothing(buf: Buf, widths: seq<nat>) returns (values: seq<nat>, ok: bool)
    requires buf.Valid()
    modifies buf`rpos, buf`wpos
    ensures buf.Valid() && ok == Decoded(old(buf.Content()), widths).complete
    ensures ok ==> Decoding(values, buf.Content(), true) == Decoded(old(buf.Content()), widths)
    ensures !ok ==> buf.Content() == old(buf.Content())
  {
    var r, w := buf.Backup();
    values, ok := GetAll(buf, widths);
    if !ok { buf.Restore(r, w); }
  }
}
