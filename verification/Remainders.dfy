/** Remainders and powers of two, with the few facts about them that mask arithmetic needs. */
module Remainders {

  function Rem(a: nat, d: nat): (r: nat)
    requires d > 0
    ensures r < d && r <= a
  {
    RemBounds(a, d);
    a % d
  }

  function Quot(a: nat, d: nat): nat
    requires d > 0
  {
    a / d
  }

  predicate Divides(d: nat, x: nat)
    requires d > 0
  {
    x % d == 0
  }

  function Pow2(n: nat): (p: nat)
    ensures p > 0
  {
    if n == 0 then 1 else 2 * Pow2(n - 1)
  }

  lemma RemBounds(a: nat, d: nat)
    requires d > 0
    ensures a % d < d && a % d <= a
  {
    assert a == a / d * d + a % d;
  }

  lemma MulGrows(a: int, b: int, d: nat)
    requires a <= b
    ensures a * d <= b * d
  {
  }

  lemma DivisionUnique(a: nat, d: nat, q: nat, r: nat)
    requires a == q * d + r && r < d
    ensures a % d == r && a / d == q
  {
    var q', r' := a / d, a % d;
    assert a == q' * d + r';
    assert (q + 1) * d == q * d + d && (q' + 1) * d == q' * d + d;
    if q < q' { MulGrows(q + 1, q', d); } else if q' < q { MulGrows(q' + 1, q, d); }
  }

  lemma RemSmall(a: nat, d: nat)
    requires a < d
    ensures Rem(a, d) == a
  {
  }

  lemma RemSubtract(a: nat, d: nat)
    requires 0 < d <= a
    ensures Rem(a, d) == Rem(a - d, d)
  {
    var q, r := (a - d) / d, (a - d) % d;
    assert a - d == q * d + r && (q + 1) * d == q * d + d;
    DivisionUnique(a, d, q + 1, r);
  }

  /** What is left when the remainder is taken off is a multiple. */
  lemma RestDivides(n: nat, d: nat)
    requires d > 0
    ensures Divides(d, n - Rem(n, d)) && (Divides(d, n) <==> Rem(n, d) == 0)
  {
    var q, r := n / d, n % d;
    assert n == q * d + r;
    DivisionUnique(n - r, d, q, 0);
  }

  /** Two multiples that are less than `d` apart are the same. */
  lemma MultiplesClose(a: nat, b: nat, d: nat)
    requires d > 0 && Divides(d, a) && Divides(d, b) && a < b + d && b < a + d
    ensures a == b
  {
    var p, q := a / d, b / d;
    assert a == p * d && b == q * d && (p + 1) * d == p * d + d && (q + 1) * d == q * d + d;
    if p < q { MulGrows(p + 1, q, d); } else if q < p { MulGrows(q + 1, p, d); }
  }

  lemma DividesDifference(a: nat, b: nat, d: nat)
    requires d > 0 && a <= b && Divides(d, a) && Divides(d, b)
    ensures Divides(d, b - a)
  {
    var p, q := a / d, b / d;
    assert a == p * d && b == q * d;
    if q < p { MulGrows(q + 1, p, d); }
    assert b - a == (q - p) * d;
    if p <= q { DivisionUnique(b - a, d, q - p, 0); }
  }

  lemma {:induction false} Pow2Grows(m: nat, n: nat)
    requires m <= n
    ensures Pow2(m) <= Pow2(n) && (m < n ==> 2 * Pow2(m) <= Pow2(n))
  {
    if m < n { Pow2Grows(m, n - 1); }
  }

  lemma {:induction false} Pow2Sum(m: nat, n: nat)
    ensures Pow2(m + n) == Pow2(m) * Pow2(n)
  {
    if m > 0 {
      Pow2Sum(m - 1, n);
      assert Pow2(m + n) == 2 * Pow2((m - 1) + n) == 2 * (Pow2(m - 1) * Pow2(n));
    }
  }

  lemma Pow2Divides(m: nat, n: nat)
    requires m <= n
    ensures Divides(Pow2(m), Pow2(n))
  {
    Pow2Sum(n - m, m);
    DivisionUnique(Pow2(n), Pow2(m), Pow2(n - m), 0);
  }

  /** Halving keeps everything but the last bit. */
  lemma HalfRem(a: nat, m: nat)
    requires m > 0
    ensures Rem(a, Pow2(m)) == 2 * Rem(a / 2, Pow2(m - 1)) + a % 2
  {
    var d := Pow2(m - 1);
    var k, r := a / 2 / d, a / 2 % d;
    assert a / 2 == k * d + r && a == 2 * (a / 2) + a % 2;
    assert k * (2 * d) == 2 * (k * d);
    DivisionUnique(a, 2 * d, k, 2 * r + a % 2);
  }
}
