/** Unsigned machine words as numbers, with the bitwise operations the code uses:
    v >> 1 is v / 2, v & 1 is v % 2, and & is computed bit by bit. */
module Bits {

  const LIMIT: int := 0x1_0000_0000

  /** unsigned int on a 32-bit machine */
  type Word = x: int | 0 <= x < 0x1_0000_0000

  function Pow2(k: nat): (p: nat)
    ensures p > 0
  {
    if k == 0 then 1 else 2 * Pow2(k - 1)
  }

  function And(x: nat, y: nat): nat {
    if x == 0 || y == 0 then 0 else (if x % 2 == 1 && y % 2 == 1 then 1 else 0) + 2 * And(x / 2, y / 2)
  }

  /** Bit k of v, counted from the lowest. */
  predicate Bit(v: nat, k: nat) {
    if k == 0 then v % 2 == 1 else Bit(v / 2, k - 1)
  }

  /** -x in unsigned arithmetic. */
  function Neg(x: Word): Word {
    (0x1_0000_0000 - x) % 0x1_0000_0000
  }

  lemma NegIs(x: Word)
    requires x != 0
    ensures Neg(x) == LIMIT - x
  {
  }

  lemma {:induction false} AndSelf(x: nat)
    ensures And(x, x) == x
  {
    if x > 0 { AndSelf(x / 2); }
  }

  lemma {:induction false} AndBits(x: nat, y: nat, k: nat)
    ensures Bit(And(x, y), k) <==> Bit(x, k) && Bit(y, k)
  {
    if x == 0 || y == 0 {
      ZeroHasNoBits(k);
    } else if k > 0 {
      AndBits(x / 2, y / 2, k - 1);
      assert And(x, y) / 2 == And(x / 2, y / 2);
    }
  }

  lemma {:induction false} ZeroHasNoBits(k: nat)
    ensures !Bit(0, k)
  {
    if k > 0 { ZeroHasNoBits(k - 1); }
  }

  /** A mask of e ones cuts a number down to its remainder. */
  lemma {:induction false} AndMask(x: nat, e: nat)
    ensures And(x, Pow2(e) - 1) == x % Pow2(e)
  {
    if e == 0 {
      assert x % 1 == 0;
    } else {
      AndMask(x / 2, e - 1);
      AndMaskStep(x, Pow2(e - 1));
    }
  }

  lemma AndMaskStep(x: nat, p: nat)
    requires p > 0 && And(x / 2, p - 1) == (x / 2) % p
    ensures And(x, 2 * p - 1) == x % (2 * p)
  {
    ModHalf(x, p);
    OddHalf(p);
    var m := 2 * p - 1;
    assert m % 2 == 1 && m / 2 == p - 1;
    assert And(x, m) == x % 2 + 2 * And(x / 2, m / 2);
  }

  lemma OddHalf(p: nat)
    requires p > 0
    ensures (2 * p - 1) / 2 == p - 1 && (2 * p - 1) % 2 == 1
  {
  }

  lemma ModHalf(x: nat, p: nat)
    requires p > 0
    ensures x % (2 * p) == x % 2 + 2 * ((x / 2) % p)
  {
    var q, r, b := (x / 2) / p, (x / 2) % p, x % 2;
    assert x / 2 == p * q + r;
    assert (2 * p) * q == 2 * (p * q);
    RemainderIs(x, 2 * p, q, 2 * r + b);
  }

  /** Division with remainder is unique. */
  lemma RemainderIs(x: int, d: int, q: int, r: int)
    requires 0 <= r < d && x == d * q + r
    ensures x % d == r
  {
    var q', r' := x / d, x % d;
    assert x == d * q' + r';
    assert d * (q - q') == d * q - d * q';
    SmallMultiple(d, q - q', r' - r);
  }

  lemma SmallMultiple(d: int, k: int, z: int)
    requires d * k == z && -d < z < d
    ensures k == 0
  {
    if k > 0 {
      MultipleGrows(d, k);
    } else if k < 0 {
      MultipleGrows(d, -k);
    }
  }

  lemma MultipleGrows(d: int, k: int)
    requires d > 0 && k > 0
    ensures d * k >= d
  {
    assert d * k == d * (k - 1) + d;
  }

  /** Complementary words have no bit in common. */
  lemma {:induction false} AndComplement(x: nat, m: nat)
    requires x < Pow2(m)
    ensures And(x, Pow2(m) - 1 - x) == 0
  {
    if x > 0 {
      var p := Pow2(m - 1);
      assert (2 * p - 1 - x) / 2 == p - 1 - x / 2;
      AndComplement(x / 2, m - 1);
    }
  }

  /** x | 1 << p */
  function SetBit(x: nat, p: nat): nat {
    if Bit(x, p) then x else x + Pow2(p)
  }

  /** x & ~(1 << p) */
  function ClearBit(x: nat, p: nat): (r: int) {
    if Bit(x, p) then x - Pow2(p) else x
  }

  lemma {:induction false} FlipBit(x: nat, p: nat, j: nat)
    ensures !Bit(x, p) ==> (Bit(x + Pow2(p), j) <==> j == p || Bit(x, j))
    ensures Bit(x, p) ==> x >= Pow2(p) && (Bit(x - Pow2(p), j) <==> j != p && Bit(x, j))
    decreases p
  {
    if p > 0 {
      var h := Pow2(p - 1);
      assert (x + 2 * h) / 2 == x / 2 + h && (x + 2 * h) % 2 == x % 2;
      assert (x - 2 * h) / 2 == x / 2 - h && (x - 2 * h) % 2 == x % 2;
      FlipBit(x / 2, p - 1, if j > 0 then j - 1 else 0);
    } else {
      assert x % 2 == 0 ==> (x + 1) / 2 == x / 2;
      assert x % 2 == 1 ==> (x - 1) / 2 == x / 2;
    }
  }

  lemma SetBitBits(x: nat, p: nat, j: nat)
    ensures Bit(SetBit(x, p), j) <==> j == p || Bit(x, j)
  {
    FlipBit(x, p, j);
  }

  lemma ClearBitBits(x: nat, p: nat, j: nat)
    ensures ClearBit(x, p) >= 0
    ensures Bit(ClearBit(x, p), j) <==> j != p && Bit(x, j)
  {
    FlipBit(x, p, j);
  }

  /** A number with no bit from n on is below 2 to the n, and 0 has no bit at all. */
  lemma {:induction false} BitsBound(x: nat, n: nat)
    requires forall j: nat :: j >= n ==> !Bit(x, j)
    ensures x < Pow2(n)
    decreases x
  {
    if x > 0 {
      assert n == 0 ==> !Bit(x, 0);
      if n == 0 {
        forall j: nat ensures !Bit(x / 2, j) {
          assert !Bit(x, j + 1);
        }
        BitsBound(x / 2, 0);
      } else {
        forall j: nat | j >= n - 1 ensures !Bit(x / 2, j) {
          assert !Bit(x, j + 1);
        }
        BitsBound(x / 2, n - 1);
      }
    }
  }
}
