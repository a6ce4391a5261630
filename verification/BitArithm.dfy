/** The lowest and the highest set bit of a word, each in two forms, and the number of
    set bits. */
module BitArithm {
  import opened Bits

  /** The number of the lowest set bit. */
  function Lowest(v: nat): nat
    requires v != 0
  {
    if v % 2 == 1 then 0 else 1 + Lowest(v / 2)
  }

  lemma {:induction false} LowestIsSet(v: nat)
    requires v != 0
    ensures Bit(v, Lowest(v)) && forall k :: 0 <= k < Lowest(v) ==> !Bit(v, k)
  {
    if v % 2 == 0 {
      LowestIsSet(v / 2);
      forall k | 0 <= k < Lowest(v) ensures !Bit(v, k) {
        assert k > 0 ==> !Bit(v / 2, k - 1);
      }
    }
  }

  /** bitarithm_lsb as a loop. */
  method LsbLoop(v0: Word) returns (r: nat)
    requires v0 != 0
    ensures r == Lowest(v0)
  {
    var v: int := v0;
    r := 0;
    while v % 2 == 0
      invariant v > 0 && Lowest(v0) == r + Lowest(v)
      decreases v
    {
      v := v / 2;
      r := r + 1;
    }
  }

  /** MultiplyDeBruijnBitPosition */
  function DeBruijn(i: int): nat {
    match i
    case 0 => 0 case 1 => 1 case 2 => 28 case 3 => 2
    case 4 => 29 case 5 => 14 case 6 => 24 case 7 => 3
    case 8 => 30 case 9 => 22 case 10 => 20 case 11 => 15
    case 12 => 25 case 13 => 17 case 14 => 4 case 15 => 8
    case 16 => 31 case 17 => 27 case 18 => 13 case 19 => 23
    case 20 => 21 case 21 => 19 case 22 => 16 case 23 => 7
    case 24 => 26 case 25 => 12 case 26 => 18 case 27 => 6
    case 28 => 11 case 29 => 5 case 30 => 10 case 31 => 9
    case _ => 0
  }

  /** b * 0x077CB531 in 32-bit arithmetic. */
  function Product(b: nat): nat {
    b * 0x077CB531 % 0x1_0000_0000
  }

  /** The table entry that the upper five bits of the product select. */
  function Entry(p: nat): nat {
    DeBruijn(p / 0x0800_0000)
  }

  /** bitarithm_lsb by table. */
  function LsbLookup(v: Word): nat {
    Entry(Product(Isolated(v)))
  }

  /** v & -v */
  function Isolated(v: Word): nat {
    And(v, Neg(v))
  }

  /** v & -v keeps exactly the lowest set bit. */
  lemma {:induction false} Isolate(v: nat, n: nat)
    requires 0 < v < Pow2(n)
    ensures And(v, Pow2(n) - v) == Pow2(Lowest(v)) && Lowest(v) < n
  {
    var p := Pow2(n - 1);
    if v % 2 == 1 {
      assert (2 * p - v) / 2 == p - 1 - v / 2;
      AndComplement(v / 2, n - 1);
    } else {
      assert (2 * p - v) / 2 == p - v / 2;
      Isolate(v / 2, n - 1);
    }
  }

  lemma Powers()
    ensures Pow2(8) == 0x100 && Pow2(16) == 0x1_0000 && Pow2(24) == 0x100_0000 && Pow2(32) == LIMIT
  {
    assert Pow2(4) == 16;
    assert Pow2(8) == 0x100;
    assert Pow2(12) == 0x1000;
    assert Pow2(16) == 0x1_0000;
    assert Pow2(20) == 0x10_0000;
    assert Pow2(24) == 0x100_0000;
    assert Pow2(28) == 0x1000_0000;
  }

  /** 0x077CB531 << k in 32-bit arithmetic. */
  function Shifted(k: int): nat {
    match k
    case 0 => 0x77cb531 case 1 => 0xef96a62 case 2 => 0x1df2d4c4 case 3 => 0x3be5a988
    case 4 => 0x77cb5310 case 5 => 0xef96a620 case 6 => 0xdf2d4c40 case 7 => 0xbe5a9880
    case 8 => 0x7cb53100 case 9 => 0xf96a6200 case 10 => 0xf2d4c400 case 11 => 0xe5a98800
    case 12 => 0xcb531000 case 13 => 0x96a62000 case 14 => 0x2d4c4000 case 15 => 0x5a988000
    case 16 => 0xb5310000 case 17 => 0x6a620000 case 18 => 0xd4c40000 case 19 => 0xa9880000
    case 20 => 0x53100000 case 21 => 0xa6200000 case 22 => 0x4c400000 case 23 => 0x98800000
    case 24 => 0x31000000 case 25 => 0x62000000 case 26 => 0xc4000000 case 27 => 0x88000000
    case 28 => 0x10000000 case 29 => 0x20000000 case 30 => 0x40000000 case 31 => 0x80000000
    case _ => 0
  }

  function Double(p: nat): nat {
    if p < 0x8000_0000 then 2 * p else if p < 0x1_0000_0000 then 2 * p - 0x1_0000_0000 else 0
  }

  lemma ShiftedLow(k: nat)
    requires k < 16
    ensures Shifted(k + 1) == Double(Shifted(k)) && Entry(Shifted(k)) == k
  {
  }

  lemma ShiftedHigh(k: nat)
    requires 16 <= k < 32
    ensures k < 31 ==> Shifted(k + 1) == Double(Shifted(k))
    ensures Entry(Shifted(k)) == k
  {
  }

  lemma DoubleIs(b: nat)
    ensures Product(2 * b) == Double(Product(b))
  {
    assert 2 * b * 0x077CB531 == 2 * (b * 0x077CB531);
    DoubleRemainder(b * 0x077CB531);
  }

  lemma DoubleRemainder(x: nat)
    ensures 2 * x % 0x1_0000_0000 == Double(x % 0x1_0000_0000)
  {
    var q, p := x / 0x1_0000_0000, x % 0x1_0000_0000;
    RemainderIs(2 * x, if p < 0x8000_0000 then 2 * q else 2 * q + 1, Double(p));
  }

  lemma RemainderIs(x: int, q: int, p: int)
    requires x == q * 0x1_0000_0000 + p && 0 <= p < 0x1_0000_0000
    ensures x % 0x1_0000_0000 == p
  {
  }

  lemma {:induction false} SingleProduct(k: nat)
    requires k < 32
    ensures Product(Pow2(k)) == Shifted(k)
  {
    if k > 0 {
      SingleProduct(k - 1);
      DoubleIs(Pow2(k - 1));
      if k <= 16 { ShiftedLow(k - 1); } else { ShiftedHigh(k - 1); }
    }
  }

  /** The entry for each word with a single bit. */
  lemma TableIsRight(b: nat, k: nat)
    requires k < 32 && b == Pow2(k)
    ensures Entry(Product(b)) == k
  {
    SingleProduct(k);
    if k < 16 { ShiftedLow(k); } else { ShiftedHigh(k); }
  }

  /** The table and the loop agree on every word that has a set bit. */
  lemma LsbFormsAgree(v: Word)
    requires v != 0
    ensures LsbLookup(v) == Lowest(v) < 32
  {
    IsolatedIs(v);
    TableIsRight(Isolated(v), Lowest(v));
  }

  lemma IsolatedIs(v: Word)
    requires v != 0
    ensures Isolated(v) == Pow2(Lowest(v)) && Lowest(v) < 32
  {
    NegIs(v);
    IsolateWord(v, Neg(v));
  }

  lemma IsolateWord(v: nat, w: nat)
    requires v != 0 && v + w == LIMIT && w != 0
    ensures And(v, w) == Pow2(Lowest(v)) && Lowest(v) < 32
  {
    Powers();
    Isolate(v, 32);
  }

  // ---------------------------------------------------------------- the highest bit

  /** The number of the highest set bit, 0 for 0. */
  function Highest(v: nat): nat {
    if v <= 1 then 0 else 1 + Highest(v / 2)
  }

  lemma {:induction false} HighestIsSet(v: nat, k: nat)
    requires v != 0
    ensures Bit(v, Highest(v)) && (k > Highest(v) ==> !Bit(v, k))
  {
    if v > 1 {
      HighestIsSet(v / 2, if k > 0 then k - 1 else 0);
    } else if k > 0 {
      ZeroHasNoBits(k - 1);
    }
  }

  /** bitarithm_msb as a loop. */
  method MsbLoop(v0: Word) returns (r: nat)
    ensures r == Highest(v0)
  {
    var v: int := v0 / 2;
    r := 0;
    while v != 0
      invariant v >= 0 && Highest(v0) == r + (if v == 0 then 0 else 1 + Highest(v))
    {
      r := r + 1;
      v := v / 2;
    }
  }

  /** One of the halvings of bitarithm_msb: words above the limit lose w bits. */
  method Halve(v0: nat, limit: nat, d: nat, w: nat) returns (v: nat, r: nat)
    requires d > 0 && (v0 > limit ==> Highest(v0) == w + Highest(v0 / d))
    ensures v == (if v0 > limit then v0 / d else v0) && Highest(v0) == r + Highest(v)
  {
    if v0 > limit {
      v, r := v0 / d, w;
    } else {
      v, r := v0, 0;
    }
  }

  /** bitarithm_msb by halving the range five times. */
  method MsbHalving(v0: Word) returns (r: nat)
    ensures r == Highest(v0)
  {
    var v: nat, shift;
    HighestSixteen(v0);
    v, r := Halve(v0, 0xFFFF, 0x1_0000, 16);
    assert v <= 0xFFFF;
    HighestEight(v);
    v, shift := Halve(v, 0xFF, 0x100, 8);
    assert v <= 0xFF;
    r := r + shift;
    HighestFour(v);
    v, shift := Halve(v, 0xF, 0x10, 4);
    assert v <= 0xF;
    r := r + shift;
    HighestTwo(v);
    v, shift := Halve(v, 0x3, 4, 2);
    assert v <= 0x3;
    r := r + shift + v / 2;
  }

  lemma HighestTwo(v: nat)
    ensures v > 0x3 ==> Highest(v) == 2 + Highest(v / 4)
  {
    assert v / 2 / 2 == v / 4;
  }

  lemma HighestFour(v: nat)
    ensures v > 0xF ==> Highest(v) == 4 + Highest(v / 0x10)
  {
    HighestTwo(v);
    HighestTwo(v / 4);
    assert v / 4 / 4 == v / 0x10;
  }

  lemma HighestEight(v: nat)
    ensures v > 0xFF ==> Highest(v) == 8 + Highest(v / 0x100)
  {
    HighestFour(v);
    HighestFour(v / 0x10);
    assert v / 0x10 / 0x10 == v / 0x100;
  }

  lemma HighestSixteen(v: nat)
    ensures v > 0xFFFF ==> Highest(v) == 16 + Highest(v / 0x1_0000)
  {
    HighestEight(v);
    HighestEight(v / 0x100);
    assert v / 0x100 / 0x100 == v / 0x1_0000;
  }

  // ---------------------------------------------------------------- counting bits

  function Ones(v: nat): nat {
    if v == 0 then 0 else v % 2 + Ones(v / 2)
  }

  /** v & (v - 1) has one bit less. */
  lemma {:induction false} ClearLowest(v: nat)
    requires v != 0
    ensures Ones(And(v, v - 1)) == Ones(v) - 1 && And(v, v - 1) < v
  {
    if v % 2 == 1 {
      AndSelf(v / 2);
      assert (v - 1) / 2 == v / 2;
    } else {
      ClearLowest(v / 2);
      assert (v - 1) / 2 == v / 2 - 1;
    }
  }

  /** bitarithm_bits_set */
  method BitsSet(v0: Word) returns (c: nat)
    ensures c == Ones(v0)
  {
    var v: int := v0;
    c := 0;
    while v != 0
      invariant v >= 0 && c + Ones(v) == Ones(v0)
      decreases v
    {
      ClearLowest(v);
      v := And(v, v - 1);
      c := c + 1;
    }
  }
}
