/** Unsigned numbers of any width as bytes, in network order and in the order of the host. */
module ByteOrder {
  import opened Remainders

  type Byte = b: nat | b < 256

  /** 256 to the power `n`. */
  function Power(n: nat): (p: nat)
    ensures p > 0
  {
    if n == 0 then 1 else 256 * Power(n - 1)
  }

  /** The `n` low bytes of `v`, most significant first. */
  function Big(v: nat, n: nat): (s: seq<Byte>)
    ensures |s| == n
  {
    if n == 0 then [] else Big(v / 256, n - 1) + [v % 256]
  }

  function FromBig(s: seq<Byte>): nat {
    if s == [] then 0 else 256 * FromBig(s[..|s| - 1]) + s[|s| - 1]
  }

  function Reversed(s: seq<Byte>): (r: seq<Byte>)
    ensures |r| == |s|
  {
    if s == [] then [] else Reversed(s[1..]) + [s[0]]
  }

  /** What the memory of an `n`-byte variable holds, and the value of such a variable, on a host of either
      byte order. */
  function Memory(v: nat, n: nat, bigEndian: bool): (s: seq<Byte>)
    ensures |s| == n
  {
    if bigEndian then Big(v, n) else Reversed(Big(v, n))
  }

  function Value(s: seq<Byte>, bigEndian: bool): nat {
    FromBig(if bigEndian then s else Reversed(s))
  }

  /** `hton` and `ntoh`: they swap the bytes of a variable on a little-endian host. */
  function Swapped(v: nat, n: nat, bigEndian: bool): nat {
    if bigEndian then v else FromBig(Reversed(Big(v, n)))
  }

  lemma {:induction false} BigInverse(v: nat, n: nat)
    requires v < Power(n)
    ensures FromBig(Big(v, n)) == v
  {
    if n > 0 {
      BigInverse(v / 256, n - 1);
      assert Big(v, n)[..n - 1] == Big(v / 256, n - 1);
    }
  }

  lemma {:induction false} FromBigInverse(s: seq<Byte>)
    ensures FromBig(s) < Power(|s|) && Big(FromBig(s), |s|) == s
  {
    if s != [] {
      FromBigInverse(s[..|s| - 1]);
      assert s == s[..|s| - 1] + [s[|s| - 1]];
    }
  }

  lemma {:induction false} ReversedAt(s: seq<Byte>, i: nat)
    requires i < |s|
    ensures Reversed(s)[i] == s[|s| - 1 - i]
  {
    if i < |s| - 1 { ReversedAt(s[1..], i); }
  }

  lemma ReversedTwice(s: seq<Byte>)
    ensures Reversed(Reversed(s)) == s
  {
    forall i | 0 <= i < |s| ensures Reversed(Reversed(s))[i] == s[i] {
      ReversedAt(Reversed(s), i);
      ReversedAt(s, |s| - 1 - i);
    }
  }

  /** What `hton` leaves in memory is the number in network order, on hosts of either byte order. */
  lemma NetworkOrder(v: nat, n: nat, bigEndian: bool)
    requires v < Power(n)
    ensures Swapped(v, n, bigEndian) < Power(n)
    ensures Memory(Swapped(v, n, bigEndian), n, bigEndian) == Big(v, n)
  {
    if !bigEndian {
      FromBigInverse(Reversed(Big(v, n)));
      ReversedTwice(Big(v, n));
    }
  }

  /** What `ntoh` makes of bytes in memory is the number they are in network order. */
  lemma HostOrder(s: seq<Byte>, bigEndian: bool)
    ensures Swapped(Value(s, bigEndian), |s|, bigEndian) == FromBig(s)
  {
    if !bigEndian {
      FromBigInverse(Reversed(s));
      ReversedTwice(s);
    }
  }

  lemma DivideTwice(v: nat, p: nat)
    requires p > 0
    ensures (v / 256) / p == v / (256 * p)
  {
    var q, r := (v / 256) / p, (v / 256) % p;
    assert v == 256 * (v / 256) + v % 256 && v / 256 == q * p + r;
    assert q * (256 * p) == 256 * (q * p);
    DivisionUnique(v, 256 * p, q, 256 * r + v % 256);
  }

  /** The byte at `i` in network order is the `i`-th from the most significant one. */
  lemma {:induction false} BigAt(v: nat, n: nat, i: nat)
    requires i < n
    ensures Big(v, n)[i] == (v / Power(n - 1 - i)) % 256
  {
    if i < n - 1 {
      BigAt(v / 256, n - 1, i);
      DivideTwice(v, Power(n - 2 - i));
    }
  }
}
