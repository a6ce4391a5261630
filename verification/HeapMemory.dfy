/** How a layout is stored in the heap's own bytes: the size field of each chunk in its
    first word and, in a free chunk, the address of the next free chunk in its second. */
module HeapMemory {
  import opened HeapLayout
  import opened HeapOps

  newtype byte = x: int | 0 <= x < 256

  const WORD: int := 0x1_0000

  type Memory = seq<byte>

  /** The 16-bit little-endian word at address a. */
  function Word(m: Memory, a: int): (w: int)
    ensures 0 <= w < WORD
  {
    if 0 <= a && a + 1 < |m| then m[a] as int + 256 * m[a + 1] as int else 0
  }

  function PutWord(m: Memory, a: int, v: int): (r: Memory)
    requires 0 <= a && a + 1 < |m| && 0 <= v < WORD
    ensures |r| == |m|
  {
    m[a := (v % 256) as byte][a + 1 := (v / 256) as byte]
  }

  /** Two words that share no byte. */
  predicate Disjoint(a: int, b: int) {
    a + 2 <= b || b + 2 <= a
  }

  lemma WordPut(m: Memory, a: int, v: int)
    requires 0 <= a && a + 1 < |m| && 0 <= v < WORD
    ensures Word(PutWord(m, a, v), a) == v
    ensures forall b :: Disjoint(a, b) ==> Word(PutWord(m, a, v), b) == Word(m, b)
  {
  }

  /** Every chunk's size field holds its size. */
  ghost predicate Headers(m: Memory, sz: Sizes) {
    forall a :: a in sz ==> 0 <= a && a + 2 <= |m| && Word(m, a) == sz[a]
  }

  /** The free chunk at a has v in its `nx` field. */
  predicate Points(m: Memory, a: int, v: int) {
    0 <= a && a + 4 <= |m| && Word(m, a + 2) == v
  }

  /** Entry i points to entry i + 1. */
  predicate Linked(m: Memory, fl: seq<int>, i: int) {
    0 <= i < |fl| ==> Points(m, fl[i], Link(fl, i + 1))
  }

  ghost predicate Links(m: Memory, fl: seq<int>) {
    forall i {:trigger Linked(m, fl, i)} :: Linked(m, fl, i)
  }

  /** The heap's bytes and the list head __flp describe layout l. */
  ghost predicate Stores(m: Memory, flp: int, l: Layout) {
    Headers(m, l.sz) && Links(m, l.fl) && flp == Link(l.fl, 0)
  }

  /** What a walk along the free list relies on. */
  predicate Node(m: Memory, l: Layout, i: int) {
    0 <= i < |l.fl| ==> 0 < l.fl[i] && Word(m, l.fl[i]) == Size(l.sz, l.fl[i]) && Points(m, l.fl[i], Link(l.fl, i + 1))
  }

  ghost predicate Walkable(m: Memory, flp: int, l: Layout) {
    && flp == Link(l.fl, 0)
    && (forall i {:trigger Node(m, l, i)} :: Node(m, l, i))
  }

  lemma StoresWalkable(m: Memory, flp: int, l: Layout, start: int)
    requires Stores(m, flp, l) && Ok(l, start) && 0 < start
    ensures Walkable(m, flp, l)
  {
    forall i ensures Node(m, l, i) {
      assert Linked(m, l.fl, i);
      assert 0 <= i < |l.fl| ==> l.fl[i] in l.fl;
    }
  }

  // ---------------------------------------------------------------- where words may be written

  lemma HeaderPut(m: Memory, sz: Sizes, a: int, v: int)
    requires Headers(m, sz) && 0 <= a && a + 1 < |m| && 0 <= v < WORD
    requires forall x :: x in sz && x != a ==> Disjoint(a, x)
    ensures Headers(PutWord(m, a, v), sz[a := v])
  {
    WordPut(m, a, v);
  }

  lemma HeadersAside(m: Memory, sz: Sizes, b: int, v: int)
    requires Headers(m, sz) && 0 <= b && b + 1 < |m| && 0 <= v < WORD
    requires ClearOf(sz, b)
    ensures Headers(PutWord(m, b, v), sz)
  {
    WordPut(m, b, v);
  }

  lemma LinksAside(m: Memory, fl: seq<int>, b: int, v: int)
    requires Links(m, fl) && 0 <= b && b + 1 < |m| && 0 <= v < WORD
    requires forall i :: 0 <= i < |fl| ==> Disjoint(b, fl[i] + 2)
    ensures Links(PutWord(m, b, v), fl)
  {
    WordPut(m, b, v);
    var m' := PutWord(m, b, v);
    forall i ensures Linked(m', fl, i) {
      assert Linked(m, fl, i);
    }
  }

  /** Free chunks lie far enough apart for their list entries; a at least for its size. */
  ghost predicate Gaps(fl: seq<int>, a: int) {
    forall i, j :: 0 <= i < j < |fl| ==> fl[i] + (if fl[i] == a then 2 else 4) <= fl[j]
  }

  lemma FreeGaps(l: Layout, start: int, a: int)
    requires Tiled(l.sz, start, l.brk) && Ordered(l.sz, l.fl) && Spaced(l, a)
    ensures Gaps(l.fl, a)
  {
    forall i, j | 0 <= i < j < |l.fl| ensures l.fl[i] + (if l.fl[i] == a then 2 else 4) <= l.fl[j] {
      assert l.fl[i] in l.fl && l.fl[j] in l.fl;
    }
  }

  /** No size field shares a byte with word b. */
  ghost predicate ClearOf(sz: Sizes, b: int) {
    forall x :: x in sz ==> Disjoint(b, x)
  }

  lemma NodeClear(sz: Sizes, start: int, brk: int, a: int)
    requires Tiled(sz, start, brk) && a in sz && MIN <= sz[a]
    ensures ClearOf(sz, a + 2)
  {
    forall x | x in sz ensures Disjoint(a + 2, x) {
      assert x == a || x < a || a < x;
    }
  }

  /** Word b meets no payload byte of a live block. */
  ghost predicate Harmless(l: Layout, b: int) {
    forall x :: Live(l, x) ==> b + 2 <= x + HDR || End(l.sz, x) <= b
  }

  /** No payload byte of a live block of l differs. */
  ghost predicate Untouched(l: Layout, m: Memory, m': Memory) {
    && |m'| == |m|
    && (forall x, y :: Live(l, x) && x + HDR <= y < End(l.sz, x) && 0 <= y < |m| ==> m'[y] == m[y])
  }

  /** No payload byte of a live block other than a differs. */
  ghost predicate UntouchedBut(l: Layout, a: int, m: Memory, m': Memory) {
    && |m'| == |m|
    && (forall x, y :: Live(l, x) && x != a && x + HDR <= y < End(l.sz, x) && 0 <= y < |m| ==> m'[y] == m[y])
  }

  lemma InsertUntouched(l: Layout, a: int, m: Memory, m': Memory)
    requires Ascending(l.fl) && a !in l.fl && Untouched(Insert(l, a), m, m')
    ensures UntouchedBut(l, a, m, m')
  {
    InsertFacts(l.fl, a);
    forall x, y | Live(l, x) && x != a && x + HDR <= y < End(l.sz, x) && 0 <= y < |m| ensures m'[y] == m[y] {
      assert Live(Insert(l, a), x);
    }
  }

  lemma PutUntouched(l: Layout, m: Memory, m1: Memory, b: int, v: int)
    requires Untouched(l, m, m1) && Harmless(l, b) && 0 <= b && b + 1 < |m1| && 0 <= v < WORD
    ensures Untouched(l, m, PutWord(m1, b, v))
  {
  }

  lemma HeaderHarmless(l: Layout, start: int, a: int)
    requires Tiled(l.sz, start, l.brk) && a in l.sz
    ensures Harmless(l, a)
    ensures a in l.fl ==> Harmless(l, a + 2)
  {
    forall x | Live(l, x) ensures a + 2 <= x + HDR || End(l.sz, x) <= a {
      assert a == x || a < x || x < a;
    }
    if a in l.fl {
      forall x | Live(l, x) ensures a + 4 <= x + HDR || End(l.sz, x) <= a + 2 {
        assert a < x || x < a;
      }
    }
  }

  // ---------------------------------------------------------------- list surgery

  /** Entry i points to v if it is entry k, and to its successor otherwise. */
  predicate Relinked(m: Memory, fl: seq<int>, k: int, v: int, i: int) {
    0 <= i < |fl| ==> Points(m, fl[i], if i == k then v else Link(fl, i + 1))
  }

  /** Entry k gets a new successor field; all others keep theirs. */
  lemma Relink(m: Memory, fl: seq<int>, t: int, k: nat, v: int)
    requires Links(m, fl) && Gaps(fl, t) && k < |fl| && 0 <= v < WORD
    ensures 0 <= fl[k] && fl[k] + 4 <= |m|
    ensures var m' := PutWord(m, fl[k] + 2, v); forall i {:trigger Relinked(m', fl, k, v, i)} :: Relinked(m', fl, k, v, i)
  {
    assert Linked(m, fl, k);
    WordPut(m, fl[k] + 2, v);
    var m' := PutWord(m, fl[k] + 2, v);
    forall i ensures Relinked(m', fl, k, v, i) {
      assert Linked(m, fl, i);
    }
  }

  /** `fp2->nx = fp1->nx` takes entry i out of the list. */
  lemma UnlinkLinks(m: Memory, fl: seq<int>, t: int, i: nat)
    requires Links(m, fl) && Gaps(fl, t) && 0 < i < |fl|
    requires 0 <= Link(fl, i + 1) < WORD
    ensures 0 <= fl[i - 1] && fl[i - 1] + 4 <= |m| && Word(m, fl[i] + 2) == Link(fl, i + 1)
    ensures Links(PutWord(m, fl[i - 1] + 2, Link(fl, i + 1)), Without(fl, i))
  {
    assert Linked(m, fl, i);
    var v := Link(fl, i + 1);
    Relink(m, fl, t, i - 1, v);
    var m', fl' := PutWord(m, fl[i - 1] + 2, v), Without(fl, i);
    forall j ensures Linked(m', fl', j) {
      assert Relinked(m', fl, i - 1, v, if j < i then j else j + 1);
    }
  }

  /** `__flp = fp1->nx` takes the first entry out. */
  lemma UnlinkFirst(m: Memory, fl: seq<int>)
    requires Links(m, fl) && fl != []
    ensures Word(m, fl[0] + 2) == Link(fl, 1)
    ensures Links(m, Without(fl, 0)) && Link(Without(fl, 0), 0) == Link(fl, 1)
  {
    assert Linked(m, fl, 0);
    var fl' := Without(fl, 0);
    forall j ensures Linked(m, fl', j) {
      assert Linked(m, fl, j + 1);
    }
  }

  // ---------------------------------------------------------------- the stages of free

  /** All entries but entry k point to their successors. */
  ghost predicate LinksBut(m: Memory, fl: seq<int>, k: int) {
    forall i {:trigger Linked(m, fl, i)} :: i == k || Linked(m, fl, i)
  }

  /** `fpnew->nx = fp1`: the new entry points on, nothing points to it yet. */
  lemma InsertLinks(m: Memory, fl: seq<int>, j: nat, a: int)
    requires Links(m, fl) && j <= |fl| && Gaps(InsertAt(fl, j, a), a) && 0 <= a && a + 4 <= |m| && 0 <= Link(fl, j) < WORD
    ensures LinksBut(PutWord(m, a + 2, Link(fl, j)), InsertAt(fl, j, a), j - 1)
  {
    var m', fl' := PutWord(m, a + 2, Link(fl, j)), InsertAt(fl, j, a);
    WordPut(m, a + 2, Link(fl, j));
    assert fl'[j] == a;
    forall i | i != j - 1 ensures Linked(m', fl', i) {
      assert Linked(m, fl, if i < j then i else i - 1);
      assert 0 <= i < j ==> fl'[i] == fl[i] && fl'[i] + 4 <= fl'[j] && fl'[i + 1] == fl[i + 1];
      assert j < i < |fl'| ==> fl'[i] == fl[i - 1] && fl'[j] + 2 <= fl'[i];
    }
  }

  /** Setting the missing successor completes the list. */
  lemma CompleteLinks(m: Memory, fl: seq<int>, t: int, k: nat)
    requires LinksBut(m, fl, k) && Gaps(fl, t) && k < |fl| && 0 <= fl[k] && fl[k] + 4 <= |m| && 0 <= Link(fl, k + 1) < WORD
    ensures Links(PutWord(m, fl[k] + 2, Link(fl, k + 1)), fl)
  {
    var m' := PutWord(m, fl[k] + 2, Link(fl, k + 1));
    WordPut(m, fl[k] + 2, Link(fl, k + 1));
    forall i ensures Linked(m', fl, i) {
      assert i == k || Linked(m, fl, i);
    }
  }

  /** The remainder that 16-bit arithmetic leaves of a sum. */
  function Wrap(x: nat): (r: int)
    ensures 0 <= r < WORD && (x < WORD ==> r == x)
  {
    if x < WORD then x else Wrap(x - WORD)
  }

  /** `fp->sz += nx->sz + 2; fp->nx = nx->nx` in 16-bit arithmetic. */
  function MergeWords(m: Memory, a: int, b: int): (r: Memory)
    requires 0 <= a && a + 4 <= |m|
    ensures |r| == |m|
  {
    PutWord(PutWord(m, a, Wrap(Word(m, a) + Word(m, b) + HDR)), a + 2, Word(m, b + 2))
  }

  lemma MergeLinks(m: Memory, fl: seq<int>, t: int, j: nat, k: int)
    requires LinksBut(m, fl, k) && Gaps(fl, t) && Ascending(fl) && j + 1 < |fl| && k < j && (t == fl[j] || t == fl[j + 1])
    ensures 0 <= fl[j] && fl[j] + 4 <= |m|
    ensures LinksBut(MergeWords(m, fl[j], fl[j + 1]), Without(fl, j + 1), k)
  {
    assert Linked(m, fl, j) && Linked(m, fl, j + 1);
    TakeOverLinks(m, fl, t, j, k, fl[j], Wrap(Word(m, fl[j]) + Word(m, fl[j + 1]) + HDR), Word(m, fl[j + 1] + 2));
  }

  /** Entry j gets a new size v and the successor of entry j + 1. */
  lemma TakeOverLinks(m: Memory, fl: seq<int>, t: int, j: nat, k: int, a: int, v: int, nx: int)
    requires LinksBut(m, fl, k) && Gaps(fl, t) && Ascending(fl) && j + 1 < |fl| && k < j && (t == fl[j] || t == fl[j + 1])
    requires a == fl[j] && 0 <= a && a + 4 <= |m| && 0 <= v < WORD && nx == Word(m, fl[j + 1] + 2)
    ensures LinksBut(PutWord(PutWord(m, a, v), a + 2, nx), Without(fl, j + 1), k)
  {
    WordPut(m, a, v);
    WordPut(PutWord(m, a, v), a + 2, nx);
    var m', fl' := PutWord(PutWord(m, a, v), a + 2, nx), Without(fl, j + 1);
    assert Linked(m, fl, j + 1);
    forall i | i != k ensures Linked(m', fl', i) {
      assert Linked(m, fl, if i <= j then i else i + 1);
      assert 0 <= i < j ==> fl[i] < fl[j] && fl[i] + 4 <= fl[j];
      assert j < i < |fl'| ==> fl[j] + 2 <= fl[i + 1];
    }
  }
}
