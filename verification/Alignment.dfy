/** Rounding with bit masks on unsigned integers of any width, the overflow tests, and allocation of aligned
    blocks that remember where they start. */
module Alignment {
  import opened Basics
  import opened Remainders

  /** The width of `int`. */
  const INT_BITS: nat := 32

  function BitAnd(a: nat, b: nat): nat {
    if a == 0 || b == 0 then 0 else 2 * BitAnd(a / 2, b / 2) + (a % 2) * (b % 2)
  }

  /** The value of `x` in an unsigned type of `w` bits. */
  function Wrap(x: nat, w: nat): (r: nat)
    ensures r < Pow2(w)
  {
    Rem(x, Pow2(w))
  }

  /** `~x` in an unsigned type of `w` bits. */
  function Complement(w: nat, x: nat): nat
    requires x < Pow2(w)
  {
    Pow2(w) - 1 - x
  }

  // ---------------------------------------------------------------------------------------------
  // masks

  lemma {:induction false} AndOnes(a: nat, w: nat)
    ensures BitAnd(a, Pow2(w) - 1) == Rem(a, Pow2(w))
  {
    hide Rem;
    if w == 0 {
    } else {
      HalfRem(a, w);
      AndOnes(a / 2, w - 1);
      assert (Pow2(w) - 1) / 2 == Pow2(w - 1) - 1 && (Pow2(w) - 1) % 2 == 1;
      if a == 0 { RemSmall(0, Pow2(w)); }
    }
  }

  /** Clearing the low `m` bits with the mask `~((1 << m) - 1)` takes off the remainder. */
  lemma {:induction false} AndMask(a: nat, m: nat, w: nat)
    requires m <= w && a < Pow2(w)
    ensures Pow2(m) - 1 < Pow2(w) && BitAnd(a, Complement(w, Pow2(m) - 1)) == a - Rem(a, Pow2(m))
    decreases m
  {
    hide Rem;
    Pow2Grows(m, w);
    if m == 0 {
      AndOnes(a, w);
      RemSmall(a, Pow2(w));
    } else {
      HalfRem(a, m);
      AndMask(a / 2, m - 1, w - 1);
      var mask := Complement(w, Pow2(m) - 1);
      assert mask == 2 * Complement(w - 1, Pow2(m - 1) - 1);
      assert mask / 2 == Complement(w - 1, Pow2(m - 1) - 1) && mask % 2 == 0;
    }
  }

  // ---------------------------------------------------------------------------------------------
  // TT_ALIGN_DEC, TT_ALIGN_INC, TT_SIZE_IN_ORDER

  /** `x` is the largest multiple of `d` that is not above `n`. */
  predicate IsRoundDown(x: nat, n: nat, d: nat)
    requires d > 0
  {
    Divides(d, x) && x <= n < x + d
  }

  /** `x` is the smallest multiple of `d` that is not below `n`. */
  predicate IsRoundUp(x: nat, n: nat, d: nat)
    requires d > 0
  {
    Divides(d, x) && x - d < n <= x
  }

  method AlignDec(n: nat, m: nat, w: nat) returns (r: nat)
    requires m < w - 1 && n < Pow2(w)
    ensures IsRoundDown(r, n, Pow2(m)) && r < Pow2(w)
  {
    hide Rem, Divides, Pow2, BitAnd;
    AndMask(n, m, w);
    RestDivides(n, Pow2(m));
    r := BitAnd(n, Complement(w, Pow2(m) - 1));
  }

  /** The result of `TT_ALIGN_INC` in an unsigned type of `w` bits, where the sum may wrap around. */
  function Increased(n: nat, m: nat, w: nat): nat
    requires m < w - 1 && n < Pow2(w)
  {
    Pow2Grows(m, w);
    BitAnd(Wrap(n + Pow2(m) - 1, w), Complement(w, Pow2(m) - 1))
  }

  /** It rounds up exactly if the result fits the type; otherwise it is zero. */
  lemma IncreasedExactly(n: nat, m: nat, w: nat)
    requires m < w - 1 && n < Pow2(w)
    ensures IsRoundUp(Increased(n, m, w), n, Pow2(m)) <==> n <= Pow2(w) - Pow2(m)
    ensures n > Pow2(w) - Pow2(m) ==> Increased(n, m, w) == 0
    ensures Increased(n, m, w) < Pow2(w) && Divides(Pow2(m), Increased(n, m, w))
  {
    hide Rem, Divides, Pow2, BitAnd;
    var d, sum := Pow2(m), n + Pow2(m) - 1;
    Pow2Grows(m, w);
    AndMask(Wrap(sum, w), m, w);
    RestDivides(Wrap(sum, w), d);
    if n <= Pow2(w) - d {
      RemSmall(sum, Pow2(w));
    } else {
      RemSubtract(sum, Pow2(w));
      RemSmall(sum - Pow2(w), Pow2(w));
      RemSmall(sum - Pow2(w), d);
    }
  }

  method AlignInc(n: nat, m: nat, w: nat) returns (r: nat)
    requires m < w - 1 && n < Pow2(w)
    ensures r == Increased(n, m, w)
    ensures n <= Pow2(w) - Pow2(m) ==> IsRoundUp(r, n, Pow2(m))
    ensures n > Pow2(w) - Pow2(m) ==> r == 0
  {
    hide Rem, Divides, Pow2, BitAnd;
    Pow2Grows(m, w);
    IncreasedExactly(n, m, w);
    r := n;
    r := Wrap(r + (Pow2(m) - 1), w);
    r := BitAnd(r, Complement(w, Pow2(m) - 1));
  }

  /** Aligning changes exactly what is not aligned, which is what the test for alignment relies on. */
  lemma AlignedStays(n: nat, m: nat, w: nat)
    requires m < w - 1 && n < Pow2(w)
    ensures Increased(n, m, w) == n <==> Divides(Pow2(m), n)
  {
    hide Rem, Divides, Pow2, BitAnd, Increased;
    IncreasedExactly(n, m, w);
    Pow2Grows(m, w);
    if Divides(Pow2(m), n) {
      Pow2Divides(m, w);
      DividesDifference(n, Pow2(w), Pow2(m));
      if Pow2(w) - n < Pow2(m) { MultiplesClose(n, Pow2(w), Pow2(m)); }
      MultiplesClose(n, Increased(n, m, w), Pow2(m));
    }
  }

  /** How many blocks of 2 to the `order` bytes cover `size` bytes. The macro shifts an `int`, so the order must
      leave room for its sign. */
  function SizeInOrder(size: nat, order: nat): nat
    requires order < INT_BITS - 1
  {
    if BitAnd(size, Pow2(order) - 1) != 0 then Quot(size, Pow2(order)) + 1 else Quot(size, Pow2(order))
  }

  /** Enough blocks, and one fewer would not be. */
  lemma SizeInOrderExact(size: nat, order: nat)
    requires order < INT_BITS - 1
    ensures SizeInOrder(size, order) * Pow2(order) >= size
    ensures size > 0 ==> (SizeInOrder(size, order) - 1) * Pow2(order) < size
    ensures size == 0 ==> SizeInOrder(size, order) == 0
  {
    hide Pow2, BitAnd;
    AndOnes(size, order);
    var d := Pow2(order);
    var q, r := size / d, size % d;
    assert size == q * d + r && (q + 1) * d == q * d + d && (q - 1) * d == q * d - d;
    DivisionUnique(size, d, q, r);
  }

  // ---------------------------------------------------------------------------------------------
  // overflow tests

  /** `(wide_type)(~((type)(0u)))`: in a type narrower than `int` the operand of `~` is promoted first, so the
      complement is minus one, which is all ones in the wide type. */
  function MaxAsWide(w: nat, wide: nat): nat {
    if w < INT_BITS then Pow2(wide) - 1 else Pow2(w) - 1
  }

  predicate AddWouldOverflow(v1: nat, v2: nat, w: nat, wide: nat) {
    Wrap(v1 + v2, wide) > MaxAsWide(w, wide)
  }

  predicate MulWouldOverflow(v1: nat, v2: nat, w: nat, wide: nat) {
    Wrap(v1 * v2, wide) > MaxAsWide(w, wide)
  }

  /** With a wider type the addition test reports exactly the overflows of types no narrower than `int`; for
      narrower ones it never reports one. */
  lemma AddTestExactly(v1: nat, v2: nat, w: nat, wide: nat)
    requires w < wide && v1 < Pow2(w) && v2 < Pow2(w)
    ensures AddWouldOverflow(v1, v2, w, wide) <==> v1 + v2 >= Pow2(w) && w >= INT_BITS
  {
    Pow2Grows(w, wide);
    hide Rem, Pow2;
    RemSmall(v1 + v2, Pow2(wide));
  }

  /** The same for the multiplication test, with a type of at least twice the width. */
  lemma MulTestExactly(v1: nat, v2: nat, w: nat, wide: nat)
    requires 2 * w <= wide && v1 < Pow2(w) && v2 < Pow2(w)
    ensures MulWouldOverflow(v1, v2, w, wide) <==> v1 * v2 >= Pow2(w) && w >= INT_BITS
  {
    Pow2Grows(2 * w, wide);
    Pow2Sum(w, w);
    hide Rem, Pow2;
    ProductBelow(v1, v2, Pow2(w));
    RemSmall(v1 * v2, Pow2(wide));
  }

  lemma ProductBelow(a: nat, b: nat, n: nat)
    requires a < n && b < n
    ensures a * b < n * n
  {
    MulGrows(a, n - 1, b);
    MulGrows(b, n, n - 1);
    assert (n - 1) * n == n * n - n;
  }

  // ---------------------------------------------------------------------------------------------
  // aligned blocks

  /** What is asked of the allocator, and the address that is returned: sums of `w` bits. */
  function BlockSize(size: nat, order: nat, w: nat, pointer: nat): (r: nat)
    ensures r < Pow2(w)
  {
    Wrap(size + Wrap(Pow2(order + 1), w) + pointer, w)
  }

  function AlignedAddress(base: nat, order: nat, w: nat, pointer: nat): nat
    requires order < w - 1
  {
    Increased(Wrap(base + pointer, w), order, w)
  }

  /** The address is aligned, and the slot for the original address and the payload lie one after the other
      inside the block. */
  predicate WellPlaced(p: nat, base: nat, total: nat, size: nat, order: nat, pointer: nat) {
    Divides(Pow2(order), p) && base <= p - pointer && p + size <= base + total
  }

  /** Wherever the allocator puts the block, the aligned block is well placed exactly if the size asked for
      does not wrap around. */
  lemma WellPlacedExactly(base: nat, size: nat, order: nat, w: nat, pointer: nat)
    requires size < Pow2(w) && order < w - 1 && Pow2(order + 1) + pointer < Pow2(w)
    requires base + BlockSize(size, order, w, pointer) <= Pow2(w)
    ensures WellPlaced(AlignedAddress(base, order, w, pointer),
                       base, BlockSize(size, order, w, pointer), size, order, pointer)
       <==> size + Pow2(order + 1) + pointer < Pow2(w)
  {
    var total := size + Pow2(order + 1) + pointer;
    assert Pow2(order + 1) == 2 * Pow2(order);
    hide Rem, Divides, Pow2, BitAnd, Increased;
    RemSmall(Pow2(order + 1), Pow2(w));
    if total < Pow2(w) {
      RemSmall(total, Pow2(w));
      RemSmall(base + pointer, Pow2(w));
      IncreasedExactly(base + pointer, order, w);
    } else {
      RemSubtract(total, Pow2(w));
      RemSmall(total - Pow2(w), Pow2(w));
    }
  }

  // ---------------------------------------------------------------------------------------------
  // the heap

  /** What a caller holds: the block that its aligned address lies in, and what it asked for. */
  datatype Holding = Holding(base: nat, size: nat, order: nat)

  predicate Separate(a: int, n: nat, b: int, m: nat) {
    a + n <= b || b + m <= a
  }

  /** No two allocated blocks overlap. */
  ghost predicate BlocksSeparate(blocks: map<nat, nat>) {
    forall b, c :: b in blocks && c in blocks && b != c ==> Separate(b, blocks[b], c, blocks[c])
  }

  /** Each aligned address is well placed in a block of its own, and the slot in front of it holds the block's
      address. */
  ghost predicate Held(blocks: map<nat, nat>, slots: map<int, nat>, held: map<nat, Holding>, pointer: nat) {
    && (forall p :: p in held ==>
          && held[p].base in blocks && p - pointer in slots && slots[p - pointer] == held[p].base
          && WellPlaced(p, held[p].base, blocks[held[p].base], held[p].size, held[p].order, pointer))
    && (forall p, q :: p in held && q in held && p != q ==> held[p].base != held[q].base)
  }

  /** The stored pointers that a write of `n` bytes at `a` leaves intact. */
  function Intact(slots: map<int, nat>, pointer: nat, a: int, n: nat): map<int, nat> {
    map k | k in slots && Separate(k, pointer, a, n) :: slots[k]
  }

  /** A write inside the block `base` spares the slots of all other blocks. */
  lemma OtherSlotsIntact(blocks: map<nat, nat>, slots: map<int, nat>, held: map<nat, Holding>, pointer: nat,
                         base: nat, a: int, n: nat, p: nat)
    requires BlocksSeparate(blocks) && Held(blocks, slots, held, pointer) && p in held && held[p].base != base
    requires base in blocks && base <= a && a + n <= base + blocks[base]
    ensures p - pointer in Intact(slots, pointer, a, n)
  {
    assert Separate(held[p].base, blocks[held[p].base], base, blocks[base]);
  }

  lemma WriteKeeps(blocks: map<nat, nat>, slots: map<int, nat>, held: map<nat, Holding>, pointer: nat,
                   p: nat, offset: nat, n: nat)
    requires BlocksSeparate(blocks) && Held(blocks, slots, held, pointer)
    requires p in held && offset + n <= held[p].size
    ensures Held(blocks, Intact(slots, pointer, p + offset, n), held, pointer)
  {
    var slots' := Intact(slots, pointer, p + offset, n);
    forall q | q in held ensures q - pointer in slots' {
      if q != p { OtherSlotsIntact(blocks, slots, held, pointer, held[p].base, p + offset, n, q); }
    }
  }

  lemma FreeKeeps(blocks: map<nat, nat>, slots: map<int, nat>, held: map<nat, Holding>, pointer: nat, p: nat)
    requires BlocksSeparate(blocks) && Held(blocks, slots, held, pointer) && p in held
    ensures BlocksSeparate(blocks - {held[p].base}) && Held(blocks - {held[p].base}, slots, held - {p}, pointer)
  {
  }

  lemma MallocKeeps(blocks: map<nat, nat>, slots: map<int, nat>, held: map<nat, Holding>, pointer: nat,
                    p: nat, total: nat, h: Holding)
    requires BlocksSeparate(blocks) && Held(blocks, slots, held, pointer) && pointer > 0
    requires h.base !in blocks && forall b :: b in blocks ==> Separate(b, blocks[b], h.base, total)
    requires WellPlaced(p, h.base, total, h.size, h.order, pointer)
    ensures p !in held && BlocksSeparate(blocks[h.base := total])
    ensures Held(blocks[h.base := total], Intact(slots, pointer, p - pointer, pointer)[p - pointer := h.base],
                 held[p := h], pointer)
  {
    var blocks' := blocks[h.base := total];
    forall q | q in held
      ensures q != p && Separate(q - pointer, pointer, p - pointer, pointer)
    {
      assert Separate(held[q].base, blocks[held[q].base], h.base, total);
    }
  }

  /** An address that is not well placed is not held soundly. */
  lemma MallocBreaks(blocks: map<nat, nat>, slots: map<int, nat>, held: map<nat, Holding>, pointer: nat,
                     p: nat, total: nat, h: Holding)
    requires !WellPlaced(p, h.base, total, h.size, h.order, pointer)
    ensures !Held(blocks[h.base := total], slots, held[p := h], pointer)
  {
    assert p in held[p := h];
  }

  /** The slot and what rounding up takes fit the address space. */
  lemma SlotFits(order: nat, w: nat, pointer: nat)
    requires order < w - 1 && 2 * pointer < Pow2(w)
    ensures Pow2(order + 1) + pointer < Pow2(w)
  {
    Pow2Grows(order + 1, w - 1);
    Pow2Grows(w - 1, w);
  }

  /** The sizes of allocated blocks by their address, and the pointers stored in front of aligned ones by the
      address that they are stored at, in an address space of `w` bits with pointers of `pointer` bytes. */
  class Heap {
    const w: nat
    const pointer: nat
    var blocks: map<nat, nat>
    var slots: map<int, nat>
    ghost var held: map<nat, Holding>

    /** Blocks do not overlap, and every aligned address given out and not freed leads back to its block. */
    ghost predicate Valid()
      reads this
    {
      0 < 2 * pointer < Pow2(w) && BlocksSeparate(blocks) && Held(blocks, slots, held, pointer)
    }

    constructor (w: nat, pointer: nat)
      requires 0 < 2 * pointer < Pow2(w)
      ensures Valid() && this.w == w && this.pointer == pointer && blocks == map[] && held == map[]
    {
      this.w := w;
      this.pointer := pointer;
      blocks := map[];
      slots := map[];
      held := map[];
    }

    /** `tt_malloc_align`: `found` is the address that the allocator finds for the block, if any, away from the
        other blocks. The heap stays sound exactly if the size asked for does not wrap around; then the new
        address leads back to the new block, and nothing changes for the others. */
    method MallocAlign(size: nat, order: nat, found: Option<nat>) returns (r: Option<nat>)
      requires Valid() && order < w - 1 && size < Pow2(w)
      requires found.Some? ==>
                 && found.value + BlockSize(size, order, w, pointer) <= Pow2(w) && found.value !in blocks
                 && forall b :: b in blocks ==> Separate(b, blocks[b], found.value, BlockSize(size, order, w, pointer))
      modifies this
      ensures r.None? <==> found.None?
      ensures r.None? ==> blocks == old(blocks) && held == old(held) && slots == old(slots)
      ensures r.Some? ==>
                && r.value == AlignedAddress(found.value, order, w, pointer)
                && blocks == old(blocks)[found.value := BlockSize(size, order, w, pointer)]
                && held == old(held)[r.value := Holding(found.value, size, order)]
                && slots == Intact(old(slots), pointer, r.value - pointer, pointer)[r.value - pointer := found.value]
      ensures Valid() <==> r.None? || size + Pow2(order + 1) + pointer < Pow2(w)
      ensures Valid() && r.Some? ==> r.value !in old(held)
    {
      hide Rem, Pow2, BitAnd, Divides, Increased, WellPlaced, Separate, BlocksSeparate, Held, Intact;
      SlotFits(order, w, pointer);
      var total := Wrap(size + Wrap(Pow2(order + 1), w) + pointer, w);
      if found == None { return None; }
      var org := found.value;
      WellPlacedExactly(org, size, order, w, pointer);
      var p := Wrap(org + pointer, w);
      p := AlignInc(p, order, w);
      ghost var h := Holding(org, size, order);
      if WellPlaced(p, org, total, size, order, pointer) {
        MallocKeeps(blocks, slots, held, pointer, p, total, h);
      } else {
        MallocBreaks(blocks, Intact(slots, pointer, p - pointer, pointer)[p - pointer := org], held, pointer,
                     p, total, h);
      }
      blocks := blocks[org := total];
      slots := Intact(slots, pointer, p - pointer, pointer)[p - pointer := org];
      held := held[p := h];
      return Some(p);
    }

    /** A caller writes into what it asked for. */
    method Write(p: nat, offset: nat, n: nat)
      requires Valid() && p in held && offset + n <= held[p].size
      modifies this`slots
      ensures Valid() && slots == Intact(old(slots), pointer, p + offset, n)
    {
      WriteKeeps(blocks, slots, held, pointer, p, offset, n);
      slots := Intact(slots, pointer, p + offset, n);
    }

    /** `tt_free_align`: whatever was allocated, freed and written since the allocation, exactly its block is
        freed. */
    method FreeAlign(p: nat)
      requires Valid() && p in held
      modifies this
      ensures Valid() && blocks == old(blocks) - {old(held)[p].base} && held == old(held) - {p} && slots == old(slots)
    {
      FreeKeeps(blocks, slots, held, pointer, p);
      blocks := blocks - {slots[p - pointer]};
      held := held - {p};
    }
  }
}
