/** Powers of two and the bit tricks that table sizes are computed with. Machine words are naturals;
    the bitwise operators are given bit by bit.
 */
module TableBits {

  function Pow2(n: nat): (r: nat)
    ensures r > 0
  {
    if n == 0 then 1 else 2 * Pow2(n - 1)
  }

  ghost predicate IsPow2(x: nat) {
    exists n: nat :: x == Pow2(n)
  }

  function And(x: nat, y: nat): nat
    decreases x
  {
    if x == 0 then 0 else 2 * And(x / 2, y / 2) + (if x % 2 == 1 && y % 2 == 1 then 1 else 0)
  }

  /** x & !m */
  function AndNot(x: nat, m: nat): nat
    decreases x
  {
    if x == 0 then 0 else 2 * AndNot(x / 2, m / 2) + (if x % 2 == 1 && m % 2 == 0 then 1 else 0)
  }

  function Or(x: nat, y: nat): nat
    decreases x + y
  {
    if x == 0 then y else if y == 0 then x
    else 2 * Or(x / 2, y / 2) + (if x % 2 == 1 || y % 2 == 1 then 1 else 0)
  }

  lemma {:induction false} Pow2Add(m: nat, n: nat)
    ensures Pow2(m + n) == Pow2(m) * Pow2(n)
  {
    if m > 0 {
      Pow2Add(m - 1, n);
    }
  }

  lemma Pow2Words()
    ensures Pow2(31) == 0x8000_0000 && Pow2(32) == 0x1_0000_0000
  {
    assert Pow2(2) == 4 && Pow2(4) == 16;
    Pow2Add(4, 4);
    Pow2Add(8, 8);
    Pow2Add(16, 16);
  }

  function Shr(x: nat, s: nat): nat {
    if s == 0 then x else Shr(x / 2, s - 1)
  }

  lemma {:induction false} Pow2Mono(m: nat, n: nat)
    requires m <= n
    ensures Pow2(m) <= Pow2(n)
    decreases n
  {
    if m < n {
      Pow2Mono(m, n - 1);
    }
  }

  lemma {:induction false} AndSelf(x: nat)
    ensures And(x, x) == x
  {
    if x > 0 {
      AndSelf(x / 2);
    }
  }

  /** The test for powers of two, `x & (x - 1) == 0`. */
  lemma {:induction false} AndPow2(x: nat)
    requires x > 0
    ensures And(x, x - 1) == 0 <==> IsPow2(x)
  {
    if x == 1 {
      assert x == Pow2(0);
      assert And(1, 0) == 2 * And(0, 0);
    } else if x % 2 == 1 {
      AndSelf(x / 2);
      assert (x - 1) / 2 == x / 2;
      forall n: nat ensures Pow2(n) % 2 == 1 ==> Pow2(n) == 1 {
      }
    } else {
      AndPow2(x / 2);
      assert (x - 1) / 2 == x / 2 - 1;
      if n: nat :| x / 2 == Pow2(n) {
        assert x == Pow2(n + 1);
      }
      if n: nat :| x == Pow2(n) {
        assert n > 0;
        assert x / 2 == Pow2(n - 1);
      }
    }
  }

  /** Masking with a number that has bit p - 1 and none above p - 1. */
  lemma {:induction false} AndNotBelow(x: nat, m: nat, p: nat)
    requires p > 0 && x < Pow2(p) && Pow2(p - 1) <= m < Pow2(p)
    ensures AndNot(x, m) < Pow2(p - 1)
  {
    if x > 0 && p > 1 {
      AndNotBelow(x / 2, m / 2, p - 1);
    }
  }

  lemma {:induction false} AndNotAbove(x: nat, m: nat, p: nat)
    requires Pow2(p) <= x && m < Pow2(p)
    ensures AndNot(x, m) >= Pow2(p)
  {
    if p == 0 {
      AndNotZero(x);
    } else {
      AndNotAbove(x / 2, m / 2, p - 1);
    }
  }

  lemma {:induction false} AndNotZero(x: nat)
    ensures AndNot(x, 0) == x
  {
    if x > 0 {
      AndNotZero(x / 2);
    }
  }

  // ---------------------------------------------------------------------- the real array size

  /** All bits below the highest set bit, by or-ing with shifted copies of itself. */
  function Smeared(x: nat): nat {
    var a := Or(x, Shr(x, 1));
    var b := Or(a, Shr(a, 2));
    var c := Or(b, Shr(b, 4));
    var d := Or(c, Shr(c, 8));
    Or(d, Shr(d, 16))
  }

  /** The size of the array part: the hint itself, or the next power of two if the flag says that
      the hint is not the size. */
  function RealSize(alimit: nat, hint: bool): nat {
    if !hint || alimit == 0 || And(alimit, alimit - 1) == 0 then alimit else Smeared(alimit) + 1
  }

  lemma {:induction false} OrBounds(x: nat, y: nat, p: nat)
    requires x < Pow2(p) && y < Pow2(p)
    ensures x <= Or(x, y) < Pow2(p) && y <= Or(x, y)
  {
    if x > 0 && y > 0 {
      OrBounds(x / 2, y / 2, p - 1);
    }
  }

  /** If the bits of y from q to p are set, or-ing with a number below 2^q only adds to it. */
  lemma {:induction false} OrHigh(y: nat, z: nat, q: nat, p: nat)
    requires q <= p && Pow2(p) - Pow2(q) <= y < Pow2(p) && z < Pow2(q)
    ensures Or(y, z) >= Pow2(p) - Pow2(q) + z
  {
    if q > 0 && y > 0 && z > 0 {
      OrHigh(y / 2, z / 2, q - 1, p - 1);
    }
  }

  function Less(a: nat, b: nat): nat {
    if b < a then a - b else 0
  }

  /** With the top s bits of p set, or-ing with a copy shifted by s sets the top 2s. */
  lemma {:induction false} SmearStep(y: nat, s: nat, p: nat)
    requires Pow2(p) - Pow2(Less(p, s)) <= y < Pow2(p)
    ensures Pow2(p) - Pow2(Less(p, 2 * s)) <= Or(y, Shr(y, s)) < Pow2(p)
  {
    var z := Shr(y, s);
    ShrBound(y, s, p);
    OrBounds(y, z, p);
    if s < p {
      ShrHigh(y, s, p - s, p);
      OrHigh(y, z, p - s, p);
    }
  }

  lemma {:induction false} ShrBound(y: nat, s: nat, p: nat)
    requires y < Pow2(p)
    ensures Shr(y, s) <= y && (s <= p ==> Shr(y, s) < Pow2(p - s))
  {
    if s > 0 {
      if p > 0 {
        ShrBound(y / 2, s - 1, p - 1);
      } else {
        ShrBound(y / 2, s - 1, 0);
      }
    }
  }

  lemma {:induction false} ShrHigh(y: nat, s: nat, q: nat, p: nat)
    requires s <= p && q <= p && Pow2(p) - Pow2(q) <= y < Pow2(p)
    ensures Shr(y, s) >= Pow2(p - s) - Pow2(Less(q, s))
  {
    if s > 0 {
      ShrHigh(y / 2, s - 1, if q > 0 then q - 1 else 0, p - 1);
    }
  }

  /** For 32-bit numbers, smearing gives the next power of two minus one. */
  lemma SmearedIs(x: nat, p: nat)
    requires 0 < p <= 32 && Pow2(p - 1) <= x < Pow2(p)
    ensures Smeared(x) == Pow2(p) - 1
  {
    SmearStep(x, 1, p);
    var a := Or(x, Shr(x, 1));
    SmearStep(a, 2, p);
    var b := Or(a, Shr(a, 2));
    SmearStep(b, 4, p);
    var c := Or(b, Shr(b, 4));
    SmearStep(c, 8, p);
    var d := Or(c, Shr(c, 8));
    SmearStep(d, 16, p);
  }

  /** Every positive number lies between two powers of two. */
  lemma {:induction false} Between(x: nat) returns (p: nat)
    requires x > 0
    ensures p > 0 && Pow2(p - 1) <= x < Pow2(p)
  {
    if x == 1 {
      p := 1;
    } else {
      p := Between(x / 2);
      p := p + 1;
    }
  }

  /** What the real size is, without bits: the hint if that is a power of two or known to be the
      size, else the next power of two. */
  lemma RealSizeIs(alimit: nat, p: nat)
    requires 0 < p <= 32 && Pow2(p - 1) < alimit <= Pow2(p)
    ensures RealSize(alimit, true) == Pow2(p) && RealSize(alimit, false) == alimit
  {
    AndPow2(alimit);
    if alimit < Pow2(p) {
      SmearedIs(alimit, p);
      forall n: nat ensures alimit != Pow2(n) {
        if n < p {
          Pow2Mono(n, p - 1);
        } else {
          Pow2Mono(p, n);
        }
      }
    } else {
      assert IsPow2(alimit);
    }
  }

  /** The mask test of `luaH_getint`: given that the index is not below the hint, it tells whether
      the index is in the array all the same. */
  lemma MaskTest(index: nat, alimit: nat)
    requires 0 < alimit <= Pow2(32) && alimit <= index
    ensures AndNot(index, alimit - 1) < alimit <==> index < RealSize(alimit, true)
  {
    var p := Between(alimit);
    if alimit == Pow2(p - 1) {
      AndPow2(alimit);
      assert IsPow2(alimit);
      AndNotAbove(index, alimit - 1, p - 1);
    } else {
      if p > 32 {
        Pow2Mono(32, p - 1);
      }
      RealSizeIs(alimit, p);
      if index < Pow2(p) {
        AndNotBelow(index, alimit - 1, p);
      } else {
        AndNotAbove(index, alimit - 1, p);
      }
    }
  }
}
