/** The blocks alone determine the heap: what follows for malloc, free and realloc. */
module HeapBlocks {
  import opened HeapLayout
  import opened HeapOps
  import opened HeapResize
  import opened HeapRuns

  // ---------------------------------------------------------------- blocks determine the heap

  /** A chunk of l that begins where l' has a chunk or its break is a chunk of l' too, of the
      same size, and free in both or in neither. */
  lemma SameChunk(l: Layout, l': Layout, start: int, a: int)
    requires Ok(l, start) && Ok(l', start) && SameBlocks(l, l', {}) && a in l.sz && (a in l'.sz || a == l'.brk)
    ensures a in l'.sz && l'.sz[a] == l.sz[a] && (a in l.fl <==> a in l'.fl)
  {
    assert Live(l', a) <==> Live(l, a);
    if a in l.fl {
      var e := End(l.sz, a);
      BlockBehind(l, start, a);
      assert Live(l', e);
      BlockBehind(l', start, a);
      var e' := End(l'.sz, a);
      assert Live(l', e') && Live(l, e');
      assert !(e < e') && !(e' < e);
    }
  }

  /** Behind a free chunk lies a block. */
  lemma BlockBehind(l: Layout, start: int, a: int)
    requires Ok(l, start) && a in l.fl
    ensures a in l.sz && Live(l, End(l.sz, a))
  {
    assert Clear(l.sz, l.fl, l.brk, a) && Followed(l.sz, l.brk, a);
  }

  /** The chunk before address x. */
  lemma ChunkBefore(l: Layout, start: int, x: int) returns (y: int)
    requires Ok(l, start) && start < x && (x in l.sz || x == l.brk)
    ensures y in l.sz && start <= y < x && End(l.sz, y) == x
  {
    y := ByteHasChunk(l.sz, start, l.brk, x - 1);
  }

  lemma {:induction false} SameChunks(l: Layout, l': Layout, start: int, x: int)
    requires Ok(l, start) && Ok(l', start) && SameBlocks(l, l', {}) && x in l.sz
    ensures x in l'.sz && l'.sz[x] == l.sz[x] && (x in l.fl <==> x in l'.fl)
    decreases x - start
  {
    if start < x {
      var y := ChunkBefore(l, start, x);
      SameChunks(l, l', start, y);
      assert Followed(l'.sz, l'.brk, y);
    }
    SameChunk(l, l', start, x);
  }

  lemma {:induction false} AscendingSame(f: seq<int>, g: seq<int>)
    requires Ascending(f) && Ascending(g) && forall x :: x in f <==> x in g
    ensures f == g
  {
    assert |f| > 0 ==> f[0] in f;
    assert |g| > 0 ==> g[0] in g;
    if f != [] && g != [] {
      assert f[0] in g && g[0] in f;
      assert f[0] == g[0];
      forall x ensures x in f[1..] <==> x in g[1..] {
        assert x in f[1..] <==> x in f && x != f[0];
        assert x in g[1..] <==> x in g && x != g[0];
      }
      AscendingSame(f[1..], g[1..]);
    }
  }

  /** Addresses and sizes of the blocks determine the whole heap: where the free chunks are,
      the free list and the break. */
  lemma BlocksDetermine(l: Layout, l': Layout, start: int)
    requires Ok(l, start) && Ok(l', start) && SameBlocks(l, l', {})
    ensures l == l'
  {
    SameSym(l, l');
    forall x | x in l.sz ensures x in l'.sz && l'.sz[x] == l.sz[x] && (x in l.fl <==> x in l'.fl) { SameChunks(l, l', start, x); }
    forall x | x in l'.sz ensures x in l.sz { SameChunks(l', l, start, x); }
    assert l.sz == l'.sz;
    AscendingSame(l.fl, l'.fl);
    SameBreak(l, l', start);
  }

  lemma SameSym(l: Layout, l': Layout)
    requires SameBlocks(l, l', {})
    ensures SameBlocks(l', l, {})
  {
    forall x ensures (Live(l, x) <==> Live(l', x) && x !in {}) && (Live(l, x) ==> Size(l.sz, x) == Size(l'.sz, x)) {
      assert Live(l', x) <==> Live(l, x);
    }
  }

  lemma SameBreak(l: Layout, l': Layout, start: int)
    requires Ok(l, start) && Ok(l', start) && l.sz == l'.sz
    ensures l.brk == l'.brk
  {
    if start < l.brk { var y := ChunkBefore(l, start, l.brk); }
    if start < l'.brk { var y := ChunkBefore(l', start, l'.brk); }
  }

  // ---------------------------------------------------------------- what follows for the calls

  /** free leaves the one heap that has all blocks but the freed one. */
  lemma FreeDetermined(l: Layout, start: int, a: int, l': Layout)
    requires Ok(l, start) && Live(l, a) && Settles(l, a) && Ok(l', start) && SameBlocks(l, l', {a})
    ensures l' == Free(l, a)
  {
    FreeKeeps(l, start, a);
    SameRest(l, start, l', Free(l, a), {a});
  }

  lemma BothSame(l: Layout, l1: Layout, l2: Layout, gone: set<int>)
    requires SameBlocks(l, l1, gone) && SameBlocks(l, l2, gone)
    ensures SameBlocks(l1, l2, {})
  {
    forall x ensures (Live(l2, x) <==> Live(l1, x) && x !in {}) && (Live(l2, x) ==> Size(l2.sz, x) == Size(l1.sz, x)) {
      assert Live(l1, x) <==> Live(l, x) && x !in gone;
      assert Live(l2, x) <==> Live(l, x) && x !in gone;
    }
  }

  /** A block with room for a list entry can be freed. */
  lemma RoomySettles(l: Layout, start: int, a: int)
    requires Ok(l, start) && Live(l, a) && MIN <= l.sz[a]
    ensures Settles(l, a)
  {
  }

  /** free undoes malloc: the heap is exactly what it was. */
  lemma FreeUndoesMalloc(l: Layout, start: int, end: int, n: int, l': Layout, r: int)
    requires Ok(l, start) && 0 < start && MIN <= n && Placed(l, end, n, l', r) && r != 0
    ensures Ok(l', start) && Live(l', r - HDR) && Free(l', r - HDR) == l
  {
    var b := r - HDR;
    PlacedMeans(l, start, end, n, l', r, b, b);
    RoomySettles(l', start, b);
    forall x ensures (Live(l, x) <==> Live(l', x) && x !in {b}) && (Live(l, x) ==> Size(l.sz, x) == Size(l'.sz, x)) {
      PlacedMeans(l, start, end, n, l', r, b, x);
    }
    FreeDetermined(l', start, b, l);
  }

  /** Blocks may be freed in any order. */
  lemma FreesCommute(l: Layout, start: int, a: int, b: int)
    requires Ok(l, start) && Live(l, a) && Live(l, b) && a != b && MIN <= l.sz[a] && MIN <= l.sz[b]
    ensures Free(Free(l, a), b) == Free(Free(l, b), a)
  {
    FreedTwo(l, start, a, b, {a, b});
    FreedTwo(l, start, b, a, {a, b});
    SameRest(l, start, Free(Free(l, a), b), Free(Free(l, b), a), {a, b});
  }

  lemma SameRest(l: Layout, start: int, l1: Layout, l2: Layout, gone: set<int>)
    requires Ok(l1, start) && Ok(l2, start) && SameBlocks(l, l1, gone) && SameBlocks(l, l2, gone)
    ensures l1 == l2
  {
    BothSame(l, l1, l2, gone);
    BlocksDetermine(l1, l2, start);
  }

  lemma FreedTwo(l: Layout, start: int, a: int, b: int, gone: set<int>)
    requires Ok(l, start) && Live(l, a) && Live(l, b) && a != b && MIN <= l.sz[a] && MIN <= l.sz[b] && gone == {a, b}
    ensures Ok(Free(Free(l, a), b), start) && SameBlocks(l, Free(Free(l, a), b), gone)
  {
    RoomySettles(l, start, a);
    FreeKeeps(l, start, a);
    var l1 := Free(l, a);
    assert Live(l1, b) by { assert Live(l1, b) <==> Live(l, b) && b !in {a}; }
    RoomySettles(l1, start, b);
    FreeKeeps(l1, start, b);
    GoneBoth(l, l1, Free(l1, b), a, b);
  }

  lemma GoneBoth(l: Layout, l1: Layout, l2: Layout, a: int, b: int)
    requires SameBlocks(l, l1, {a}) && SameBlocks(l1, l2, {b})
    ensures SameBlocks(l, l2, {a, b})
  {
    forall x ensures (Live(l2, x) <==> Live(l, x) && x !in {a, b}) && (Live(l2, x) ==> Size(l2.sz, x) == Size(l.sz, x)) {
      assert Live(l2, x) <==> Live(l1, x) && x !in {b};
      assert Live(l1, x) <==> Live(l, x) && x !in {a};
    }
  }

  /** The heap does not remember how it came about: two runs that end with the same blocks
      end with the same heap. */
  lemma RunsForget(start: int, end: int, es: seq<Event>, ls: seq<Layout>, fs: seq<Event>, ms: seq<Layout>)
    requires 0 < start && Run(start, end, es, ls) && Run(start, end, fs, ms) && SameBlocks(ls[|es|], ms[|fs|], {})
    ensures ls[|es|] == ms[|fs|]
  {
    RunKeeps(start, end, es, ls, |es|);
    RunKeeps(start, end, fs, ms, |fs|);
    BlocksDetermine(ls[|es|], ms[|fs|], start);
  }

  /** malloc and realloc lead to the one heap that has the new block besides the others. */
  lemma BlockDetermines(l: Layout, start: int, a: int, b: int, l1: Layout, l2: Layout)
    requires Ok(l1, start) && Ok(l2, start) && SameBut(l, l1, a, b) && SameBut(l, l2, a, b)
    requires Live(l1, b) && Live(l2, b) && Size(l1.sz, b) == Size(l2.sz, b)
    ensures l1 == l2
  {
    forall x ensures (Live(l2, x) <==> Live(l1, x) && x !in {}) && (Live(l2, x) ==> Size(l2.sz, x) == Size(l1.sz, x)) {
      assert x != b ==> (Live(l1, x) <==> Live(l2, x));
    }
    BlocksDetermine(l1, l2, start);
  }

  // ---------------------------------------------------------------- free bytes

  /** Byte x belongs to block a, header included. */
  predicate Within(l: Layout, a: int, x: int) {
    Live(l, a) && a <= x < End(l.sz, a)
  }

  ghost predicate Unused(l: Layout, x: int) {
    forall a :: !Within(l, a, x)
  }

  /** Block a of l is gone, block b of l' is new or resized; all others stay. */
  ghost predicate SameBut(l: Layout, l': Layout, a: int, b: int) {
    && (a == b || !Live(l, b))
    && (forall x {:trigger Live(l', x)} :: x != b ==>
          (Live(l', x) <==> Live(l, x) && x != a) && (Live(l', x) ==> Size(l'.sz, x) == Size(l.sz, x)))
  }

  lemma OneBlock(l: Layout, start: int, a: int, c: int, x: int)
    requires Ok(l, start) && Within(l, a, x) && Within(l, c, x)
    ensures a == c
  {
    assert !(c < a) && !(a < c);
  }

  /** A call that replaces block a by block b makes the bytes of a unused, then uses those of
      b; no other byte goes or comes. */
  lemma UnusedExactly(l: Layout, l': Layout, start: int, a: int, b: int, x: int)
    requires Ok(l, start) && Ok(l', start) && SameBut(l, l', a, b)
    ensures Unused(l', x) <==> (Unused(l, x) || Within(l, a, x)) && !Within(l', b, x)
  {
    if Unused(l, x) || Within(l, a, x) {
      forall c ensures Within(l', c, x) ==> c == b {
        if Within(l', c, x) && c != b {
          assert Live(l', c);
          assert Within(l, c, x);
          if Within(l, a, x) { OneBlock(l, start, a, c, x); }
        }
      }
    } else {
      var c :| Within(l, c, x) && c != a;
      assert c != b ==> Live(l', c);
      assert c != b ==> Within(l', c, x);
    }
  }
}
