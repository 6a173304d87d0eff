/** The sizes that a buffer grows through: `tt_memory_spring.c`. */
module MemorySpring {
  import opened Basics
  import opened Remainders

  /** Half of what a 32-bit number can count. */
  const HALF: nat := 0x8000_0000

  /** How a buffer grows: `tt_memspg_t`. */
  datatype Spring = Spring(minExtend: nat, maxExtend: nat, maxLimit: nat)
  {
    /** What `tt_memspg_init` asserts. */
    predicate Valid() {
      0 < minExtend < maxExtend < U32 && (maxLimit == 0 || maxExtend < maxLimit < U32)
    }

    /** Doubling gives a larger number, or zero, which stands for none. */
    predicate Grows() {
      Valid() && maxExtend <= HALF
    }

    /** The next size after `size`, or none. */
    function NextSize(size: nat): (r: Option<nat>)
      requires Valid() && size < U32
      ensures r.Some? ==> 0 < r.value < U32 && (maxExtend <= HALF ==> size < r.value)
    {
      if size < minExtend then Some(minExtend)
      else if size <= maxExtend then
        var next := (2 * size) % U32;
        if next == 0 then None else Some(next)
      else
        var next := (size + maxExtend) % U32;
        if next < size then None
        else if maxLimit == 0 || next <= maxLimit then Some(next)
        else None
    }

    /** The first size in the sequence from `size` on that is at least `to`. */
    function GrownSize(size: nat, to: nat): (r: Option<nat>)
      requires Grows() && size < U32
      ensures r.Some? ==> size < r.value < U32 && to <= r.value
      decreases U32 - size
    {
      match NextSize(size)
      case None => None
      case Some(next) => if next < to then GrownSize(next, to) else Some(next)
    }

    /** The loop of `tt_memspg_extend_ex`. */
    method Grow(size: nat, to: nat) returns (r: Option<nat>)
      requires Grows() && size < to < U32
      ensures r == GrownSize(size, to)
    {
      var newSize := size;
      while newSize < to
        invariant newSize < U32
        invariant newSize < to ==> GrownSize(newSize, to) == GrownSize(size, to)
        invariant newSize >= to ==> GrownSize(size, to) == Some(newSize)
        decreases U32 - newSize
      {
        var next := NextSize(newSize);
        if next == None { return None; }
        newSize := next.value;
      }
      return Some(newSize);
    }
  }

  /** Every next size is larger exactly if no doubled size is above half of what 32 bits can count. */
  lemma GrowsExactly(spring: Spring)
    requires spring.Valid()
    ensures (forall size :: 0 <= size < U32 && spring.NextSize(size).Some? ==>
              size < spring.NextSize(size).value)
        <==> spring.Grows()
  {
    if !spring.Grows() {
      assert spring.NextSize(spring.maxExtend) == Some(2 * spring.maxExtend - U32);
    }
  }

  /** Doubling does not look at the limit: sizes stay within it exactly if it is at least twice the largest
      size that is doubled without wrapping around. */
  lemma LimitKeptExactly(spring: Spring)
    requires spring.Valid() && spring.maxLimit != 0
    ensures (forall size :: 0 <= size < U32 && spring.NextSize(size).Some? ==>
              spring.NextSize(size).value <= spring.maxLimit)
        <==> spring.minExtend >= HALF || 2 * spring.maxExtend <= spring.maxLimit || spring.maxLimit >= U32 - 2
  {
    var top := if spring.maxExtend < HALF then spring.maxExtend else HALF - 1;
    if spring.minExtend < HALF { assert spring.NextSize(top) == Some(2 * top); }
  }

  // ---------------------------------------------------------------------------------------------
  // whether growing comes to an end

  /** The size after `n` steps of growth, or none if there is none by then. */
  function Stepped(spring: Spring, size: nat, n: nat): (r: Option<nat>)
    requires spring.Valid() && size < U32
    ensures r.Some? ==> r.value < U32
    decreases n
  {
    if n == 0 then Some(size)
    else match spring.NextSize(size)
         case None => None
         case Some(next) => Stepped(spring, next, n - 1)
  }

  /** The sizes that follow `size` come to an end. */
  ghost predicate Ends(spring: Spring, size: nat)
    requires spring.Valid() && size < U32
  {
    exists n: nat :: Stepped(spring, size, n) == None
  }

  lemma {:induction false} SteppedJoin(spring: Spring, size: nat, a: nat, b: nat)
    requires spring.Valid() && size < U32
    ensures var r := Stepped(spring, size, a);
            Stepped(spring, size, a + b) == if r == None then None else Stepped(spring, r.value, b)
    decreases a
  {
    if a > 0 && spring.NextSize(size).Some? {
      SteppedJoin(spring, spring.NextSize(size).value, a - 1, b);
    }
  }

  /** The next size by range: the least size, the double, or one step of the largest more, where the 32 bits and the
      limit allow. */
  lemma NextSizeByRange(spring: Spring, size: nat)
    requires spring.Valid() && size < U32
    ensures size < spring.minExtend ==> spring.NextSize(size) == Some(spring.minExtend)
    ensures spring.minExtend <= size <= spring.maxExtend && size < HALF ==> spring.NextSize(size) == Some(size + size)
    ensures spring.maxExtend < size ==>
              (spring.NextSize(size).Some? <==>
                 size + spring.maxExtend < U32 && (spring.maxLimit == 0 || size + spring.maxExtend <= spring.maxLimit))
    ensures spring.maxExtend < size && spring.NextSize(size).Some? ==>
              spring.NextSize(size).value - size == spring.maxExtend
  {
    if size + spring.maxExtend >= U32 { assert (size + spring.maxExtend) % U32 == size + spring.maxExtend - U32; }
  }

  /** The size `n` steps on is the first that is large enough. */
  predicate FirstEnough(spring: Spring, size: nat, to: nat, n: nat)
    requires spring.Valid() && size < U32
  {
    && n > 0 && Stepped(spring, size, n).Some? && to <= Stepped(spring, size, n).value
    && forall k :: 0 < k < n ==> Stepped(spring, size, k).Some? && Stepped(spring, size, k).value < to
  }

  /** Growing gives the first size that is large enough, and none exactly if no size ever is. */
  lemma {:induction false} GrowsToFirst(spring: Spring, size: nat, to: nat) returns (n: nat)
    requires spring.Grows() && size < U32
    ensures spring.GrownSize(size, to).Some? ==>
              FirstEnough(spring, size, to, n) && Stepped(spring, size, n) == spring.GrownSize(size, to)
    ensures spring.GrownSize(size, to) == None ==>
              forall k :: 0 < k && Stepped(spring, size, k).Some? ==> Stepped(spring, size, k).value < to
    decreases U32 - size
  {
    n := 1;
    var next := spring.NextSize(size);
    assert forall k :: 0 < k ==>
        Stepped(spring, size, k) == if next == None then None else Stepped(spring, next.value, k - 1);
    if next.Some? && next.value < to {
      n := GrowsToFirst(spring, next.value, to);
      n := n + 1;
      assert Stepped(spring, next.value, 0) == next;
    }
  }

  /** If the sizes after some steps come to an end, all of them do. */
  lemma EndsBefore(spring: Spring, size: nat, a: nat)
    requires spring.Valid() && size < U32
    requires Stepped(spring, size, a).Some? ==> Ends(spring, Stepped(spring, size, a).value)
    ensures Ends(spring, size)
  {
    var r := Stepped(spring, size, a);
    if r.Some? {
      var b: nat :| Stepped(spring, r.value, b) == None;
      SteppedJoin(spring, size, a, b);
    }
  }

  /** Sizes that are no longer doubled only grow. */
  lemma {:induction false} EndsAbove(spring: Spring, size: nat)
    requires spring.Valid() && spring.maxExtend < size < U32
    ensures Ends(spring, size)
    decreases U32 - size
  {
    var next := spring.NextSize(size);
    if next.Some? { EndsAbove(spring, next.value); }
    assert Stepped(spring, size, 1) == next;
    EndsBefore(spring, size, 1);
  }

  /** `size` is not doubled. */
  predicate Outside(spring: Spring, size: nat) {
    size < spring.minExtend || spring.maxExtend < size
  }

  lemma DoubledLow(size: nat, next: int, p: nat, c: int) returns (d: int)
    requires p > 0 && size * Pow2(p) == c * U32 && (next == 2 * size || next == 2 * size - U32)
    ensures next * Pow2(p - 1) == d * U32
  {
    var half := Pow2(p - 1);
    assert size * Pow2(p) == 2 * size * half;
    d := if next == 2 * size then c else c - half;
  }

  /** Doubling `p` times makes 32 low bits zero, so it leads to none or out of the doubled sizes before. */
  lemma {:induction false} DoublingLeaves(spring: Spring, size: nat, p: nat, c: int) returns (n: nat)
    requires spring.Valid() && !Outside(spring, size) && size * Pow2(p) == c * U32
    ensures n <= p && (Stepped(spring, size, n).Some? ==> Outside(spring, Stepped(spring, size, n).value))
    decreases p
  {
    if p == 0 { assert false; }
    hide Pow2;
    var next := spring.NextSize(size);
    assert Stepped(spring, size, 1) == next;
    if next == None || Outside(spring, next.value) { return 1; }
    var d := DoubledLow(size, next.value, p, c);
    n := DoublingLeaves(spring, next.value, p - 1, d);
    SteppedJoin(spring, size, 1, n);
    n := n + 1;
  }

  lemma Leaves(spring: Spring, size: nat) returns (n: nat)
    requires spring.Valid() && !Outside(spring, size)
    ensures n <= 32 && (Stepped(spring, size, n).Some? ==> Outside(spring, Stepped(spring, size, n).value))
  {
    assert Pow2(4) == 16;
    Pow2Sum(4, 4);
    Pow2Sum(8, 8);
    Pow2Sum(16, 16);
    assert Pow2(32) == U32;
    n := DoublingLeaves(spring, size, 32, size);
  }

  /** Within 32 steps, the sizes after the least one do not fall below it. */
  ghost predicate StaysUp(spring: Spring)
    requires spring.Valid()
  {
    forall n :: 0 <= n <= 32 && Stepped(spring, spring.minExtend, n).Some? ==>
      Stepped(spring, spring.minExtend, n).value >= spring.minExtend
  }

  lemma LeastEnds(spring: Spring)
    requires spring.Valid() && StaysUp(spring)
    ensures Ends(spring, spring.minExtend)
  {
    var n := Leaves(spring, spring.minExtend);
    var r := Stepped(spring, spring.minExtend, n);
    if r.Some? { EndsAbove(spring, r.value); }
    EndsBefore(spring, spring.minExtend, n);
  }

  lemma BelowEnds(spring: Spring, size: nat)
    requires spring.Valid() && StaysUp(spring) && size < spring.minExtend
    ensures Ends(spring, size)
  {
    LeastEnds(spring);
    assert Stepped(spring, size, 1) == Some(spring.minExtend);
    EndsBefore(spring, size, 1);
  }

  /** A sequence that falls below the least size starts again. */
  lemma {:induction false} Circles(spring: Spring, k: nat, n: nat)
    requires spring.Valid() && Stepped(spring, spring.minExtend, k).Some?
    requires Stepped(spring, spring.minExtend, k).value < spring.minExtend
    ensures Stepped(spring, spring.minExtend, n).Some?
    decreases n
  {
    if n <= k {
      SteppedJoin(spring, spring.minExtend, n, k - n);
    } else {
      SteppedJoin(spring, spring.minExtend, k, 1);
      SteppedJoin(spring, spring.minExtend, k + 1, n - k - 1);
      Circles(spring, k, n - k - 1);
    }
  }

  /** Growing comes to an end from every size exactly if the sizes after the least one, of which 32 are enough to
      look at, do not fall below it. */
  lemma EndsExactly(spring: Spring)
    requires spring.Valid()
    ensures (forall size :: 0 <= size < U32 ==> Ends(spring, size)) <==> StaysUp(spring)
  {
    if StaysUp(spring) {
      forall size | 0 <= size < U32 ensures Ends(spring, size) {
        if size < spring.minExtend { BelowEnds(spring, size); }
        else if size > spring.maxExtend { EndsAbove(spring, size); }
        else {
          var n := Leaves(spring, size);
          var r := Stepped(spring, size, n);
          if r.Some? {
            if r.value < spring.minExtend { BelowEnds(spring, r.value); } else { EndsAbove(spring, r.value); }
          }
          EndsBefore(spring, size, n);
        }
      }
    } else {
      var k :| 0 <= k <= 32 && Stepped(spring, spring.minExtend, k).Some? &&
        Stepped(spring, spring.minExtend, k).value < spring.minExtend;
      forall n: nat ensures Stepped(spring, spring.minExtend, n).Some? { Circles(spring, k, n); }
      assert !Ends(spring, spring.minExtend);
    }
  }

  /** A spring that falls below its least size: it goes through two sizes for ever. */
  lemma GrowsInCircles()
    ensures var spring := Spring(HALF + 1, HALF + 2, 0);
            spring.Valid() && Stepped(spring, spring.minExtend, 1) == Some(2) && !StaysUp(spring)
  {
    var spring := Spring(HALF + 1, HALF + 2, 0);
    assert Stepped(spring, spring.minExtend, 1) == Some(2);
  }
}
