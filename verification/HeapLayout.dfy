/** The heap of the MSP430 allocator as a map from chunk address to payload size. A
    chunk is a two-byte size field followed by its payload; the free list is the
    sequence of the addresses of the free chunks. */
module HeapLayout {

  /** sizeof(size_t) */
  const HDR: int := 2
  /** sizeof(struct __freelist) */
  const NODE: int := 4
  /** The least request malloc grants: room for the `nx` pointer of a free chunk. */
  const MIN: int := NODE - HDR

  type Sizes = map<int, int>

  datatype Layout = Layout(sz: Sizes, fl: seq<int>, brk: int)

  /** The payload size of the chunk at a. */
  function Size(sz: Sizes, a: int): int {
    if a in sz then sz[a] else 0
  }

  /** The address behind chunk a. */
  function End(sz: Sizes, a: int): int {
    a + HDR + Size(sz, a)
  }

  /** Behind chunk a lies another chunk or the break. */
  predicate Followed(sz: Sizes, brk: int, a: int) {
    a in sz ==> End(sz, a) == brk || End(sz, a) in sz
  }

  /** The chunks cover the bytes from start to brk, each byte once: a chunk begins at
      start, and behind every chunk lies another one or brk. */
  ghost predicate Tiled(sz: Sizes, start: int, brk: int) {
    && start <= brk
    && (start < brk ==> start in sz)
    && (forall a :: a in sz ==> start <= a && 0 <= sz[a] && End(sz, a) <= brk)
    && (forall a {:trigger Followed(sz, brk, a)} :: Followed(sz, brk, a))
    && (forall a, b :: a in sz && b in sz && a < b ==> End(sz, a) <= b)
  }

  ghost predicate Ascending(fl: seq<int>) {
    forall i, j :: 0 <= i < j < |fl| ==> fl[i] < fl[j]
  }

  /** The free list holds chunks, in address order. */
  ghost predicate Ordered(sz: Sizes, fl: seq<int>) {
    Ascending(fl) && forall a :: a in fl ==> a in sz
  }

  /** The free list holds chunks large enough for a list entry, in address order. */
  ghost predicate Listed(sz: Sizes, fl: seq<int>) {
    && Ascending(fl)
    && (forall a :: a in fl ==> a in sz && MIN <= sz[a])
  }

  /** No free chunk is followed by a free chunk or by the break. */
  ghost predicate Apart(sz: Sizes, fl: seq<int>, brk: int) {
    forall a {:trigger Clear(sz, fl, brk, a)} :: Clear(sz, fl, brk, a)
  }

  predicate Clear(sz: Sizes, fl: seq<int>, brk: int, a: int) {
    a in fl ==> End(sz, a) !in fl && End(sz, a) != brk
  }

  ghost predicate Ok(l: Layout, start: int) {
    Tiled(l.sz, start, l.brk) && Listed(l.sz, l.fl) && Apart(l.sz, l.fl, l.brk)
  }

  predicate Live(l: Layout, a: int) {
    a in l.sz && a !in l.fl
  }

  /** Always true. A fact that is stated under it stays out of the way of proofs that do not
      mention it. */
  predicate Looked(u: int) {
    true
  }

  // ---------------------------------------------------------------- edits of the tiling

  /** Chunk a becomes a chunk of n bytes and, behind it, a chunk with the rest. */
  function Cut(sz: Sizes, a: int, n: int): Sizes
    requires a in sz
  {
    sz[a := n][a + HDR + n := sz[a] - n - HDR]
  }

  /** Chunk a swallows the chunk behind it. */
  function Join(sz: Sizes, a: int): Sizes
    requires a in sz && End(sz, a) in sz
  {
    (sz - {End(sz, a)})[a := sz[a] + HDR + sz[End(sz, a)]]
  }

  lemma CutTiled(sz: Sizes, start: int, brk: int, a: int, n: int)
    requires Tiled(sz, start, brk) && a in sz && 0 <= n <= sz[a] - HDR
    ensures a + HDR + n !in sz
    ensures Tiled(Cut(sz, a, n), start, brk)
  {
    var b, sz' := a + HDR + n, Cut(sz, a, n);
    assert b !in sz;
    forall x ensures Followed(sz', brk, x) { CutFollowed(sz, start, brk, a, n, b, x); }
  }

  lemma CutFollowed(sz: Sizes, start: int, brk: int, a: int, n: int, b: int, x: int)
    requires Tiled(sz, start, brk) && a in sz && 0 <= n <= sz[a] - HDR && b == a + HDR + n && b !in sz
    ensures Followed(Cut(sz, a, n), brk, x)
  {
    assert End(Cut(sz, a, n), b) == End(sz, a);
    assert Followed(sz, brk, x) && Followed(sz, brk, a);
  }

  lemma JoinTiled(sz: Sizes, start: int, brk: int, a: int)
    requires Tiled(sz, start, brk) && a in sz && End(sz, a) in sz
    ensures Tiled(Join(sz, a), start, brk)
    ensures End(Join(sz, a), a) == End(sz, End(sz, a))
  {
    var b, sz' := End(sz, a), Join(sz, a);
    assert a < b && End(sz', a) == End(sz, b);
    forall x ensures Followed(sz', brk, x) {
      assert Followed(sz, brk, x) && Followed(sz, brk, b);
    }
  }

  lemma RaiseTiled(sz: Sizes, start: int, brk: int, n: int)
    requires Tiled(sz, start, brk) && 0 <= n
    ensures brk !in sz
    ensures Tiled(sz[brk := n], start, brk + HDR + n)
  {
    var sz', brk' := sz[brk := n], brk + HDR + n;
    forall x ensures Followed(sz', brk', x) {
      assert Followed(sz, brk, x);
    }
  }

  lemma LowerTiled(sz: Sizes, start: int, brk: int, a: int)
    requires Tiled(sz, start, brk) && a in sz && End(sz, a) == brk
    ensures Tiled(sz - {a}, start, a)
  {
    var sz' := sz - {a};
    forall x | x in sz' ensures End(sz', x) <= a {
      assert x < a || a < x;
    }
    forall x ensures Followed(sz', a, x) {
      assert Followed(sz, brk, x);
    }
  }

  lemma GrowTiled(sz: Sizes, start: int, brk: int, a: int, n: int)
    requires Tiled(sz, start, brk) && a in sz && End(sz, a) == brk && sz[a] <= n
    ensures Tiled(sz[a := n], start, a + HDR + n)
  {
    var sz', brk' := sz[a := n], a + HDR + n;
    forall x | x in sz && x != a ensures End(sz, x) <= a {
      assert x < a || a < x;
    }
    forall x ensures Followed(sz', brk', x) {
      assert Followed(sz, brk, x);
    }
  }

  /** Every byte of the heap lies in exactly one chunk. */
  lemma {:induction false} ByteHasChunk(sz: Sizes, start: int, brk: int, x: int) returns (a: int)
    requires Tiled(sz, start, brk) && start <= x < brk
    ensures a in sz && a <= x < End(sz, a)
    ensures forall b :: b in sz && b <= x < End(sz, b) ==> b == a
  {
    a := start;
    while End(sz, a) <= x
      invariant a in sz && a <= x
      decreases x - a
    {
      assert Followed(sz, brk, a);
      a := End(sz, a);
    }
    forall b | b in sz && b <= x < End(sz, b) ensures b == a {
      assert !(a < b) && !(b < a);
    }
  }

  lemma BreakAbove(l: Layout, start: int, a: int)
    requires Ok(l, start) && a in l.sz
    ensures start < l.brk
  {
  }
}
