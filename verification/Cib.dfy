/** The circular integer buffer: two free-running 32-bit counters and a mask, which
    together with an array of the buffer's size make a bounded queue. */
module Cib {
  import opened Bits
  import opened KernelTypes

  /** (int) x for an unsigned x. */
  function Signed(x: Word): int {
    if x < 0x8000_0000 then x else x - LIMIT
  }

  /** x - y in unsigned arithmetic. */
  function Sub(x: Word, y: Word): Word {
    (x - y) % LIMIT
  }

  function Inc(x: Word): Word {
    (x + 1) % LIMIT
  }

  /** The sizes that cib_init accepts. */
  predicate Accepted(size: Word) {
    And(size, Sub(size, 1)) == 0
  }

  /** The sizes for which the signed comparison tells full from not full. */
  ghost predicate Sound(size: int) {
    size == 0 || exists e: nat :: e <= 30 && size == Pow2(e)
  }

  lemma {:induction false} PowerPasses(e: nat)
    ensures And(Pow2(e), Pow2(e) - 1) == 0
  {
    if e > 0 {
      var p := Pow2(e - 1);
      PowerPasses(e - 1);
      assert (2 * p - 1) / 2 == p - 1 && (2 * p) / 2 == p;
    }
  }

  lemma {:induction false} PassingIsPower(v: nat) returns (e: nat)
    requires v > 0 && And(v, v - 1) == 0
    ensures v == Pow2(e)
  {
    if v % 2 == 1 {
      AndSelf(v / 2);
      assert (v - 1) / 2 == v / 2;
      e := 0;
    } else {
      assert (v - 1) / 2 == v / 2 - 1;
      e := PassingIsPower(v / 2);
      e := e + 1;
    }
  }

  /** cib_init's test accepts exactly 0 and the powers of two. */
  lemma PowerTest(v: nat)
    requires v > 0
    ensures And(v, v - 1) == 0 <==> exists e: nat :: v == Pow2(e)
  {
    if And(v, v - 1) == 0 {
      var e := PassingIsPower(v);
    }
    forall e: nat | v == Pow2(e) ensures And(v, v - 1) == 0 {
      PowerPasses(e);
    }
  }

  /** Whether cib_put refuses when avail entries are in a buffer of this size. */
  predicate Refuses(avail: Word, size: Word) {
    !(Signed(avail) <= Signed(Sub(size, 1)))
  }

  /** For the accepted sizes, cib_put refuses exactly the full buffer if and only if the
      size does not exceed a quarter of the counters' range. */
  lemma SoundExactly(size: Word)
    requires Accepted(size)
    ensures (forall avail: Word :: avail <= size ==> (Refuses(avail, size) <==> avail == size)) <==> Sound(size)
  {
    if size > 0 {
      PowerTest(size);
      var e: nat :| size == Pow2(e);
      PowersGrow(e);
      if size == 0x8000_0000 {
        assert !Refuses(size, size);
        NotSound();
      } else {
        assert Sound(size);
      }
    }
  }

  /** The test of cib_init passes for half of the range, but the full buffer is then
      never refused. */
  lemma HalfRangeNeverFull()
    ensures Accepted(0x8000_0000) && !Refuses(0x8000_0000, 0x8000_0000)
  {
    PowersGrow(31);
    PowerPasses(31);
  }

  lemma PowersGrow(e: nat)
    ensures e <= 30 ==> Pow2(e) <= 0x4000_0000
    ensures e == 31 ==> Pow2(e) == 0x8000_0000
    ensures e >= 32 ==> Pow2(e) >= LIMIT
  {
    assert Pow2(10) == 0x400;
    assert Pow2(20) == 0x10_0000;
    assert Pow2(30) == 0x4000_0000;
    if e <= 30 { Pow2Monotone(e, 30); }
    if e >= 32 { Pow2Monotone(32, e); }
  }

  lemma {:induction false} Pow2Monotone(i: nat, j: nat)
    requires i <= j
    ensures Pow2(i) <= Pow2(j)
    decreases j
  {
    if i < j { Pow2Monotone(i, j - 1); }
  }

  lemma NotSound()
    ensures !Sound(0x8000_0000)
  {
    forall e: nat | e <= 30 ensures Pow2(e) != 0x8000_0000 {
      PowersGrow(e);
    }
  }

  // ---------------------------------------------------------------- wrap-around

  /** A counter that has been incremented k times. */
  function Wrapped(k: nat): Word {
    k % LIMIT
  }

  lemma IncWrapped(k: nat)
    ensures Inc(Wrapped(k)) == Wrapped(k + 1)
  {
  }

  lemma SubWrapped(w: nat, r: nat)
    requires r <= w < r + LIMIT
    ensures Sub(Wrapped(w), Wrapped(r)) == w - r
  {
  }

  // ---------------------------------------------------------------- indices

  /** Reducing modulo the counters' range first does not change the index. */
  lemma ModRange(k: nat, e: nat)
    requires e <= 32
    ensures k % LIMIT % Pow2(e) == k % Pow2(e)
  {
    PowerParts(e, 32);
    PowersGrow32();
    ModTwice(k, LIMIT, Pow2(e), Pow2(32 - e));
  }

  lemma ModTwice(k: nat, n: nat, p: nat, d: nat)
    requires n > 0 && p > 0 && n == p * d
    ensures k % n % p == k % p
  {
    var q, r := k / n, k % n;
    var a, b := r / p, r % p;
    assert k == n * q + r && r == p * a + b;
    Regroup(p, d, q, a);
    RemainderIs(k, p, d * q + a, b);
  }

  lemma Regroup(p: int, d: int, q: int, a: int)
    ensures p * d * q + p * a == p * (d * q + a)
  {
  }

  lemma {:induction false} PowerParts(e: nat, n: nat)
    requires e <= n
    ensures Pow2(e) * Pow2(n - e) == Pow2(n)
    decreases e
  {
    if e > 0 {
      PowerParts(e - 1, n - 1);
    }
  }

  lemma PowersGrow32()
    ensures Pow2(32) == LIMIT
  {
    assert Pow2(10) == 0x400;
    assert Pow2(20) == 0x10_0000;
    assert Pow2(30) == 0x4000_0000;
  }

  /** The index of the k-th entry: k modulo the size. */
  function Slot(k: nat, size: nat): (i: nat)
    requires size > 0
    ensures i < size
  {
    if k < size then k else Slot(k - size, size)
  }

  lemma {:induction false} SlotIsRemainder(k: nat, size: nat)
    requires size > 0
    ensures Slot(k, size) == k % size
    decreases k
  {
    if k >= size {
      SlotIsRemainder(k - size, size);
      var q, r := (k - size) / size, (k - size) % size;
      assert k == size * (q + 1) + r;
      RemainderIs(k, size, q + 1, r);
    } else {
      RemainderIs(k, size, 0, k);
    }
  }

  /** Entries closer than the size have different indices. */
  lemma {:induction false} IndicesDiffer(i: nat, j: nat, n: nat)
    requires i < j < i + n
    ensures Slot(i, n) != Slot(j, n)
    decreases i
  {
    if i >= n { IndicesDiffer(i - n, j - n, n); }
  }

  /** The index that the code computes from a wrapped counter. */
  lemma MaskedIndex(k: nat, size: nat, e: nat)
    requires e <= 30 && size == Pow2(e)
    ensures And(Wrapped(k), size - 1) == Slot(k, size)
  {
    AndMask(k % LIMIT, e);
    ModRange(k, e);
    SlotIsRemainder(k, size);
  }

  lemma CodeIndex(k: nat, size: nat, mask: nat)
    requires Sound(size) && size > 0 && mask == size - 1
    ensures And(Wrapped(k), mask) == Slot(k, size)
  {
    var e: nat :| e <= 30 && size == Pow2(e);
    MaskedIndex(k, size, e);
  }

  // ---------------------------------------------------------------- the buffer

  /** The counters of a buffer. `gets` and `puts` are how often cib_get and cib_put
      succeeded since initialisation, without wrap-around. */
  class Counters {
    var readCount: Word
    var writeCount: Word
    var mask: Word
    ghost const size: nat
    ghost var gets: nat
    ghost var puts: nat

    ghost predicate Valid()
      reads this
    {
      && Sound(size) && mask == (if size == 0 then LIMIT - 1 else size - 1)
      && readCount == Wrapped(gets) && writeCount == Wrapped(puts)
      && gets <= puts <= gets + size
    }

    constructor (size: Word)
      requires Sound(size)
      ensures Valid() && this.size == size && gets == puts == 0
    {
      readCount, writeCount, mask := 0, 0, Sub(size, 1);
      this.size := size;
      gets, puts := 0, 0;
    }

    function Avail(): (n: Word)
      requires Valid()
      reads this
      ensures n == puts - gets
    {
      SoundBound(size);
      SubWrapped(puts, gets);
      Sub(writeCount, readCount)
    }

    predicate Full()
      requires Valid()
      reads this
      ensures Full() <==> puts - gets == size
    {
      SoundBound(size);
      Signed(Avail()) > Signed(mask)
    }

    method Put() returns (i: int)
      requires Valid()
      modifies this
      ensures Valid() && gets == old(gets)
      ensures if old(puts) - gets == size then i == -1 && puts == old(puts)
              else size > 0 && i == Slot(old(puts), size) && puts == old(puts) + 1
    {
      SoundBound(size);
      var avail := Avail();
      if Signed(avail) <= Signed(mask) {
        CodeIndex(puts, size, mask);
        i := And(writeCount, mask);
        IncWrapped(puts);
        writeCount := Inc(writeCount);
        puts := puts + 1;
        return;
      }
      return -1;
    }

    method Get() returns (i: int)
      requires Valid()
      modifies this
      ensures Valid() && puts == old(puts)
      ensures if old(gets) == puts then i == -1 && gets == old(gets)
              else size > 0 && i == Slot(old(gets), size) && gets == old(gets) + 1
    {
      SoundBound(size);
      if Avail() != 0 {
        CodeIndex(gets, size, mask);
        i := And(readCount, mask);
        IncWrapped(gets);
        readCount := Inc(readCount);
        gets := gets + 1;
        return;
      }
      return -1;
    }

    method Peek() returns (i: int)
      requires Valid()
      ensures if gets == puts then i == -1 else size > 0 && i == Slot(gets, size)
    {
      SoundBound(size);
      if Avail() != 0 {
        CodeIndex(gets, size, mask);
        return And(readCount, mask);
      }
      return -1;
    }
  }

  lemma SoundBound(size: nat)
    requires Sound(size)
    ensures size <= 0x4000_0000
  {
    if size > 0 {
      var e: nat :| e <= 30 && size == Pow2(e);
      PowersGrow(e);
    }
  }

  /** The entries from the r-th to the one before the w-th. */
  ghost function Window<T>(items: seq<T>, r: nat, w: nat): (s: seq<T>)
    requires r <= w <= r + |items|
    ensures |s| == w - r
    decreases w - r
  {
    if r == w then [] else [items[Slot(r, |items|)]] + Window(items, r + 1, w)
  }

  lemma {:induction false} WindowPut<T>(items: seq<T>, r: nat, w: nat, w0: nat, x: T)
    requires w0 <= r <= w < w0 + |items|
    ensures Window(items[Slot(w, |items|) := x], r, w + 1) == Window(items, r, w) + [x]
    decreases w - r
  {
    if r < w {
      IndicesDiffer(r, w, |items|);
      WindowPut(items, r + 1, w, w0, x);
    }
  }

  /** The buffer with its array: a bounded first-in first-out queue. */
  class Queue<T> {
    const cib: Counters
    const items: array<T>

    ghost predicate Valid()
      reads this, cib, items
    {
      cib.Valid() && items.Length == cib.size
    }

    constructor (size: Word, items: array<T>)
      requires Sound(size) && items.Length == size
      ensures Valid() && Contents() == [] && fresh(cib) && this.items == items && cib.size == size
    {
      this.cib := new Counters(size);
      this.items := items;
    }

    ghost function Contents(): (s: seq<T>)
      requires Valid()
      reads this, cib, items
      ensures |s| == cib.puts - cib.gets
    {
      Window(items[..], cib.gets, cib.puts)
    }

    method Push(x: T) returns (ok: bool)
      requires Valid()
      modifies cib, items
      ensures Valid() && (ok <==> |old(Contents())| < cib.size)
      ensures Contents() == if ok then old(Contents()) + [x] else old(Contents())
    {
      ghost var w := cib.puts;
      var i := cib.Put();
      if i < 0 {
        return false;
      }
      WindowPut(items[..], cib.gets, w, cib.gets, x);
      items[i] := x;
      return true;
    }

    method Pop() returns (x: Option<T>)
      requires Valid()
      modifies cib
      ensures Valid() && (x == None <==> old(Contents()) == [])
      ensures old(Contents()) == if x == None then Contents() else [x.value] + Contents()
    {
      var i := cib.Get();
      if i < 0 {
        return None;
      }
      return Some(items[i]);
    }
  }
}
