/** The writes of free, for blocks of every size. The `nx` field of a block of less than
    two bytes reaches into the size field of the chunk behind it. */
module HeapFree {
  import opened HeapLayout
  import opened HeapOps
  import opened HeapMemory
  import opened HeapWrites

  /** The list entry above a, or NULL. */
  function Successor(l: Layout, a: int): int {
    Link(l.fl, Pos(l.fl, a))
  }

  /** The byte or bytes that the `nx` field of block a covers behind it hold, as part of a
      size, what free stores there, or lie above the break. */
  predicate Intact(l: Layout, a: int) {
    var e, v := End(l.sz, a), Successor(l, a);
    || e == l.brk
    || (Size(l.sz, a) == 0 && Size(l.sz, e) == v)
    || (Size(l.sz, a) == 1 && Size(l.sz, e) % 256 == v / 256)
  }

  /** free of block a destroys a size field. */
  predicate Harms(l: Layout, a: int) {
    Size(l.sz, a) < MIN && !Intact(l, a)
  }

  /** free of block a leaves the heap in order. */
  ghost predicate Freeable(l: Layout, a: int) {
    !Harms(l, a) && Settles(l, a)
  }

  // ---------------------------------------------------------------- size fields, one of them in doubt

  /** All size fields are right, except that the one at w is wrong if `bad`. */
  ghost predicate HeadersBut(m: Memory, sz: Sizes, w: int, bad: bool) {
    && (forall x :: x in sz ==> 0 <= x && x + 2 <= |m| && (x != w ==> Word(m, x) == sz[x]))
    && (bad ==> w in sz)
    && (w in sz ==> (Word(m, w) == sz[w] <==> !bad))
  }

  lemma ButMeans(m: Memory, sz: Sizes, w: int, bad: bool)
    requires HeadersBut(m, sz, w, bad)
    ensures Headers(m, sz) <==> !bad
  {
  }

  lemma AsideBut(m: Memory, sz: Sizes, w: int, bad: bool, b: int, v: int, m': Memory)
    requires HeadersBut(m, sz, w, bad) && ClearOf(sz, b) && 0 <= b && b + 1 < |m| && 0 <= v < WORD && m' == PutWord(m, b, v)
    ensures HeadersBut(m', sz, w, bad)
  {
    WordPut(m, b, v);
    assert w in sz ==> Disjoint(b, w);
  }

  /** The sum of two sizes is right exactly if the second one is. */
  lemma SumRight(n: nat, x: nat, s: nat)
    requires x < WORD && n + s + HDR < WORD
    ensures Wrap(n + x + HDR) == n + s + HDR <==> x == s
  {
    if n + x + HDR >= WORD { assert Wrap(n + x + HDR) == Wrap(n + x + HDR - WORD); }
  }

  lemma HeaderBut(m: Memory, sz: Sizes, a: int, b: int, w: int, bad: bool, n: int, sz': Sizes)
    requires HeadersBut(m, sz, w, bad) && a in sz && b in sz && a != b && w != a && 0 <= n < WORD && a in sz'
    requires (forall x :: x in sz' <==> x in sz && x != b) && (forall x :: x in sz' && x != a ==> sz'[x] == sz[x] && Disjoint(a, x))
    requires n == sz'[a] <==> (w == b ==> !bad)
    ensures 0 <= a && a + 1 < |m| && HeadersBut(PutWord(m, a, n), sz', if w == b then a else w, bad)
  {
    WordPut(m, a, n);
    assert w in sz' ==> w == b || Disjoint(a, w);
  }

  lemma JoinFacts(sz: Sizes, start: int, brk: int, a: int, b: int, sz': Sizes)
    requires Tiled(sz, start, brk) && a in sz && b in sz && b == End(sz, a) && sz' == Join(sz, a)
    ensures (forall x :: x in sz' <==> x in sz && x != b) && (forall x :: x in sz' && x != a ==> sz'[x] == sz[x] && Disjoint(a, x))
    ensures ClearOf(sz', a + 2) && a in sz' && sz'[a] == sz[a] + sz[b] + HDR && a + HDR + sz'[a] <= brk
  {
    JoinTiled(sz, start, brk, a);
    NodeClear(sz', start, brk, a);
    forall x | x in sz' && x != a ensures Disjoint(a, x) { assert x < a || a < x; }
  }

  /** Chunk a swallows chunk b behind it, with the size that b's field claims. */
  lemma JoinBut(m: Memory, sz: Sizes, start: int, brk: int, a: int, b: int, w: int, bad: bool)
    requires HeadersBut(m, sz, w, bad) && Tiled(sz, start, brk) && brk < WORD && a in sz && b in sz && b == End(sz, a) && w != a
    requires a + 4 <= |m|
    ensures 0 <= a && HeadersBut(MergeWords(m, a, b), Join(sz, a), if w == b then a else w, bad)
  {
    var n, sz', w' := Wrap(Word(m, a) + Word(m, b) + HDR), Join(sz, a), if w == b then a else w;
    JoinFacts(sz, start, brk, a, b, sz');
    SumRight(sz[a], Word(m, b), sz[b]);
    HeaderBut(m, sz, a, b, w, bad, n, sz');
    AsideBut(PutWord(m, a, n), sz', w', bad, a + 2, Word(m, b + 2), MergeWords(m, a, b));
  }

  // ---------------------------------------------------------------- the heap in the middle of free

  /** Block a is on the list, entry k may point anywhere, neighbours may be unmerged, and
      the size field at w is wrong if `bad`. */
  ghost predicate Mid(m: Memory, l: Layout, start: int, k: int, a: int, w: int, bad: bool) {
    && 0 < start && |m| < WORD && l.brk <= |m| && a + 4 <= |m|
    && Tiled(l.sz, start, l.brk) && Ordered(l.sz, l.fl) && Spaced(l, a)
    && HeadersBut(m, l.sz, w, bad) && LinksBut(m, l.fl, k)
  }

  lemma MidEntry(m: Memory, l: Layout, start: int, k: int, a: int, w: int, bad: bool, i: nat)
    requires Mid(m, l, start, k, a, w, bad) && i < |l.fl|
    ensures l.fl[i] in l.sz && l.fl[i] in l.fl && start <= l.fl[i] && l.fl[i] + 4 <= |m| && l.fl[i] < WORD
    ensures l.fl[i] != w ==> Word(m, l.fl[i]) == l.sz[l.fl[i]]
    ensures i != k ==> Word(m, l.fl[i] + 2) == Link(l.fl, i + 1)
    ensures l.fl[i] != a ==> ClearOf(l.sz, l.fl[i] + 2)
  {
    assert l.fl[i] in l.fl;
    assert i == k || Linked(m, l.fl, i);
    if l.fl[i] != a { NodeClear(l.sz, start, l.brk, l.fl[i]); }
  }

  /** The new entry's `nx` field, over the size field behind a small block. */
  lemma StoreNext(m: Memory, l: Layout, start: int, a: int, e: int, v: int)
    requires Headers(m, l.sz) && Tiled(l.sz, start, l.brk) && 0 < start && a in l.sz && a + 4 <= |m|
    requires e == End(l.sz, a) && v == Successor(l, a) && 0 <= v < WORD
    ensures HeadersBut(PutWord(m, a + 2, v), l.sz, e, Harms(l, a))
  {
    var m' := PutWord(m, a + 2, v);
    WordPut(m, a + 2, v);
    assert Followed(l.sz, l.brk, a);
    forall x | x in l.sz && x != e ensures Word(m', x) == l.sz[x] {
      assert x == a || x < a || a < x;
    }
    if e in l.sz && l.sz[a] == 1 { LowByte(m, m', e, v); }
  }

  lemma LowByte(m: Memory, m': Memory, e: int, v: int)
    requires 0 < e && e + 2 <= |m| && 0 <= v < WORD && m' == PutWord(m, e - 1, v)
    ensures Word(m', e) == Word(m, e) <==> Word(m, e) % 256 == v / 256
  {
    assert m'[e] as int == v / 256 && m'[e + 1] == m[e + 1];
    assert Word(m, e) % 256 == m[e] as int;
  }

  /** `fpnew->nx = fp1` */
  lemma InsertMid(m: Memory, flp: int, l: Layout, start: int, a: int, j: nat)
    requires Good(m, flp, l, start) && Live(l, a) && a + 4 <= |m| && j == Pos(l.fl, a)
    ensures 0 < a && 0 <= Link(l.fl, j) < WORD
    ensures Mid(PutWord(m, a + 2, Link(l.fl, j)), Insert(l, a), start, j - 1, a, End(l.sz, a), Harms(l, a))
  {
    if j < |l.fl| { EntryFacts(m, flp, l, start, j); }
    InsertSpaced(l, start, a);
    FreeGaps(Insert(l, a), start, a);
    InsertLinks(m, l.fl, j, a);
    StoreNext(m, l, start, a, End(l.sz, a), Link(l.fl, j));
  }

  /** What the code reads to decide about a merge, and what it achieves. */
  lemma MergeMid(m: Memory, l: Layout, start: int, k: int, a: int, w: int, bad: bool, j: nat, fp: int, nxt: int)
    requires Mid(m, l, start, k, a, w, bad) && j + 1 < |l.fl| && k < j && fp == l.fl[j] && nxt == l.fl[j + 1]
    requires (a == fp || a == nxt) && w != fp
    ensures 0 < fp && fp + 4 <= nxt + 2 && nxt + 4 <= |m|
    ensures if fp + HDR + Word(m, fp) != nxt then Merge(l, j) == l
            else Mid(MergeWords(m, fp, nxt), Merge(l, j), start, k, a, if w == nxt then fp else w, bad)
  {
    MidEntry(m, l, start, k, a, w, bad, j);
    MidEntry(m, l, start, k, a, w, bad, j + 1);
    FreeGaps(l, start, a);
    if fp + HDR + Word(m, fp) == nxt {
      MergeLinks(m, l.fl, a, j, k);
      MergeOrdered(l, start, j);
      MergeSpaced(l, start, j, a);
      JoinBut(m, l.sz, start, l.brk, fp, nxt, w, bad);
    }
  }

  /** `fp2->nx = fpnew` */
  lemma CompleteMid(m: Memory, l: Layout, start: int, a: int, w: int, bad: bool, k: nat, u: int)
    requires Mid(m, l, start, k, a, w, bad) && k + 1 < |l.fl| && l.fl[k + 1] == a && u == l.fl[k]
    ensures 0 < u && u + 4 <= |m| && a < WORD
    ensures Mid(PutWord(m, u + 2, a), l, start, -1, a, w, bad)
  {
    MidEntry(m, l, start, k, a, w, bad, k);
    MidEntry(m, l, start, k, a, w, bad, k + 1);
    var m' := PutWord(m, u + 2, a);
    CompletedLinks(m, l, start, a, k, u, m');
    AsideBut(m, l.sz, w, bad, u + 2, a, m');
  }

  lemma CompletedLinks(m: Memory, l: Layout, start: int, a: int, k: nat, u: int, m': Memory)
    requires Tiled(l.sz, start, l.brk) && Ordered(l.sz, l.fl) && Spaced(l, a) && LinksBut(m, l.fl, k)
    requires k + 1 < |l.fl| && l.fl[k + 1] == a && u == l.fl[k] && 0 <= u && u + 4 <= |m| && 0 <= a < WORD && m' == PutWord(m, u + 2, a)
    ensures LinksBut(m', l.fl, -1)
  {
    FreeGaps(l, start, a);
    CompleteLinks(m, l.fl, a, k);
  }

  // ---------------------------------------------------------------- lowering the break

  /** What the code reads to decide about lowering the break. */
  predicate AtBreak(m: Memory, z: int, brk: int)
    requires 0 <= z
  {
    Wrap(z + HDR + Word(m, z)) == brk
  }

  /** `fp2->nx = NULL`, if the last entry is dropped and not the only one. */
  function Dropped(m: Memory, z: int, prev: int, brk: int): (r: Memory)
    requires 0 <= z && (prev == 0 || (0 < prev && prev + 4 <= |m|))
    ensures |r| == |m|
  {
    if AtBreak(m, z, brk) && prev != 0 then PutWord(m, prev + 2, 0) else m
  }

  /** The last two entries, z and prev, when the break is to be lowered. The field that is
      in doubt is not that of a last entry behind a small one. */
  ghost predicate Ending(l: Layout, a: int, w: int, bad: bool, z: int, prev: int) {
    && l.fl != [] && z == l.fl[|l.fl| - 1] && prev == Link(l.fl, |l.fl| - 2)
    && (bad ==> !Topmost(l))
    && (prev == a && Short(l, a) ==> !Topmost(l) && z != w)
  }

  lemma EndTest(m: Memory, l: Layout, start: int, a: int, w: int, bad: bool, z: int, prev: int)
    requires Mid(m, l, start, -1, a, w, bad) && Ending(l, a, w, bad, z, prev)
    ensures 0 < z && z + 4 <= |m| && (prev == 0 <==> |l.fl| == 1) && (prev != 0 ==> 0 < prev && prev + 4 <= |m|)
    ensures !bad || z != w ==> (AtBreak(m, z, l.brk) <==> Topmost(l))
    ensures AtBreak(m, z, l.brk) && prev != 0 ==> ClearOf(l.sz, prev + 2)
  {
    var n := |l.fl| - 1;
    MidEntry(m, l, start, -1, a, w, bad, n);
    TopmostIsLast(l, start);
    if n > 0 {
      MidEntry(m, l, start, -1, a, w, bad, n - 1);
      if prev == a && MIN <= l.sz[a] { NodeClear(l.sz, start, l.brk, a); }
    }
  }

  lemma DropMid(m: Memory, l: Layout, start: int, a: int, w: int, bad: bool, z: int, prev: int)
    requires Mid(m, l, start, -1, a, w, bad) && Ending(l, a, w, bad, z, prev)
    ensures 0 < z && z + 4 <= |m| && (prev == 0 <==> |l.fl| == 1) && (prev != 0 ==> 0 < prev && prev + 4 <= |m|)
    ensures HeadersBut(Dropped(m, z, prev, l.brk), l.sz, w, bad)
    ensures !bad ==> Links(Dropped(m, z, prev, l.brk), Trim(l).fl)
  {
    EndTest(m, l, start, a, w, bad, z, prev);
    TopmostIsLast(l, start);
    var n := |l.fl| - 1;
    if AtBreak(m, z, l.brk) && prev != 0 { AsideBut(m, l.sz, w, bad, prev + 2, 0, Dropped(m, z, prev, l.brk)); }
    if !bad { DropLinks(m, l, start, a, n, z, prev); }
  }

  lemma DropLinks(m: Memory, l: Layout, start: int, a: int, n: nat, z: int, prev: int)
    requires Tiled(l.sz, start, l.brk) && Ordered(l.sz, l.fl) && Spaced(l, a) && LinksBut(m, l.fl, -1)
    requires n == |l.fl| - 1 && 0 <= z == l.fl[n] && prev == Link(l.fl, n - 1) && (prev == 0 <==> n == 0)
    requires prev != 0 ==> 0 < prev && prev + 4 <= |m|
    requires AtBreak(m, z, l.brk) <==> End(l.sz, z) == l.brk
    ensures Links(Dropped(m, z, prev, l.brk), Trim(l).fl)
  {
    forall i ensures Linked(m, l.fl, i) { assert i == -1 || Linked(m, l.fl, i); }
    assert l.fl[..n] == Without(l.fl, n);
    if AtBreak(m, z, l.brk) && n > 0 {
      FreeGaps(l, start, a);
      UnlinkLinks(m, l.fl, a, n);
    }
  }

  /** The size fields of the layout that free means are right exactly if it does no harm;
      then its bytes describe that layout. */
  ghost predicate FreedTo(m: Memory, flp: int, brk: int, l: Layout, a: int) {
    && (Headers(m, Free(l, a).sz) <==> !Harms(l, a))
    && (!Harms(l, a) ==> Links(m, Free(l, a).fl) && flp == Link(Free(l, a).fl, 0) && brk == Free(l, a).brk)
  }

  /** Lowering the break, from the merged list to the final layout. */
  ghost predicate Ends(m: Memory, l2: Layout, z: int, prev: int, m': Memory, flp: int, brk: int)
    requires 0 <= z && l2.fl != []
  {
    var t := AtBreak(m, z, l2.brk);
    && (prev == 0 || (0 < prev && prev + 4 <= |m|)) && m' == Dropped(m, z, prev, l2.brk)
    && flp == (if t && prev == 0 then 0 else l2.fl[0]) && brk == (if t then z else l2.brk)
  }

  lemma TrimFreed(m: Memory, l: Layout, l2: Layout, start: int, a: int, w: int, bad: bool, z: int, prev: int, m': Memory, flp: int, brk: int)
    requires Ok(l, start) && Live(l, a) && l2 == Joined(l, a) && bad == Harms(l, a)
    requires Mid(m, l2, start, -1, a, w, bad) && Ending(l2, a, w, bad, z, prev) && 0 <= z && Ends(m, l2, z, prev, m', flp, brk)
    ensures FreedTo(m', flp, brk, l, a)
  {
    DropMid(m, l2, start, a, w, bad, z, prev);
    ButMeans(m', l2.sz, w, bad);
    TopmostIsLast(l2, start);
    if !bad { TrimMeans(m, l2, start, a, w, z, prev, m', flp, brk); }
  }

  lemma TrimMeans(m: Memory, l2: Layout, start: int, a: int, w: int, z: int, prev: int, m': Memory, flp: int, brk: int)
    requires Mid(m, l2, start, -1, a, w, false) && Ending(l2, a, w, false, z, prev) && 0 <= z && Ends(m, l2, z, prev, m', flp, brk)
    requires Headers(m', l2.sz)
    ensures Headers(m', Trim(l2).sz) && flp == Link(Trim(l2).fl, 0) && brk == Trim(l2).brk
  {
    EndTest(m, l2, start, a, w, false, z, prev);
    TopmostIsLast(l2, start);
  }

  lemma BehindShort(l: Layout, start: int, a: int, n: nat)
    requires Ok(l, start) && Live(l, a) && 0 < n == |Insert(l, a).fl| - 1 && Insert(l, a).fl[n - 1] == a
    ensures End(l.sz, a) != l.brk && Insert(l, a).fl[n] in l.fl
  {
    InsertSpaced(l, start, a);
    var z := Insert(l, a).fl[n];
    assert z in Insert(l, a).fl && a < z;
  }

  /** After the merges the conditions on the last entries hold. */
  lemma JoinedEnding(l: Layout, start: int, a: int, w: int, z: int, prev: int)
    requires Ok(l, start) && 0 < start && Live(l, a) && Joined(l, a).fl != []
    requires End(l.sz, a) !in l.fl ==> w == End(l.sz, a)
    requires var fl := Joined(l, a).fl; z == fl[|fl| - 1] && prev == Link(fl, |fl| - 2)
    ensures Ending(Joined(l, a), a, w, Harms(l, a), z, prev)
  {
    JoinedShort(l, start, a);
    JoinedTopmost(l, start, a);
    if prev == a && Short(Joined(l, a), a) { BehindShort(l, start, a, |Joined(l, a).fl| - 1); }
  }

  // ---------------------------------------------------------------- around the writes

  /** The list can be walked. */
  ghost predicate Chained(m: Memory, flp: int, fl: seq<int>) {
    && flp == Link(fl, 0) && Links(m, fl)
    && (forall x :: x in fl ==> 0 < x)
  }

  /** `fpnew->nx = 0` disturbs no list entry. */
  lemma ClearedChain(m: Memory, flp: int, l: Layout, start: int, a: int)
    requires Good(m, flp, l, start) && Live(l, a) && a + 4 <= |m|
    ensures 0 < a && Chained(PutWord(m, a + 2, 0), flp, l.fl)
  {
    forall i | 0 <= i < |l.fl| ensures Disjoint(a + 2, l.fl[i] + 2) {
      assert l.fl[i] in l.fl;
      assert l.fl[i] < a || a < l.fl[i];
    }
    LinksAside(m, l.fl, a + 2, 0);
  }

  lemma MidChained(m: Memory, l: Layout, start: int, a: int, w: int, bad: bool)
    requires Mid(m, l, start, -1, a, w, bad)
    ensures Chained(m, Link(l.fl, 0), l.fl)
  {
    forall i ensures Linked(m, l.fl, i) { assert i == -1 || Linked(m, l.fl, i); }
  }

  lemma PutTwice(m: Memory, b: int, v: int)
    requires 0 <= b && b + 1 < |m| && 0 <= v < WORD
    ensures PutWord(PutWord(m, b, 0), b, v) == PutWord(m, b, v)
  {
  }

  /** The list entries may be written without harm to the blocks of r. */
  ghost predicate Writable(r: Layout, fl: seq<int>) {
    forall x :: x in fl ==> Harmless(r, x) && Harmless(r, x + 2)
  }

  lemma InsertWritable(l: Layout, start: int, a: int)
    requires Ok(l, start) && Live(l, a)
    ensures Writable(Insert(l, a), Insert(l, a).fl) && a in Insert(l, a).fl
  {
    InsertSpaced(l, start, a);
    forall x | x in Insert(l, a).fl ensures Harmless(Insert(l, a), x) && Harmless(Insert(l, a), x + 2) {
      HeaderHarmless(Insert(l, a), start, x);
    }
  }

  lemma MergeShrinks(l: Layout, j: nat)
    ensures forall x :: x in Merge(l, j).fl ==> x in l.fl
    ensures j < |l.fl| ==> j < |Merge(l, j).fl| && forall i :: 0 <= i <= j ==> Merge(l, j).fl[i] == l.fl[i]
  {
  }

  lemma MergeUntouched(r: Layout, m0: Memory, m: Memory, a: int, b: int)
    requires 0 <= a && a + 4 <= |m| && Untouched(r, m0, m) && Harmless(r, a) && Harmless(r, a + 2)
    ensures Untouched(r, m0, MergeWords(m, a, b))
  {
    var v := Wrap(Word(m, a) + Word(m, b) + HDR);
    PutUntouched(r, m0, m, a, v);
    PutUntouched(r, m0, PutWord(m, a, v), a + 2, Word(m, b + 2));
  }

  /** A new first entry: the break stays, because a free chunk lies above it. */
  lemma FirstFreed(m: Memory, l: Layout, start: int, a: int, w: int)
    requires Ok(l, start) && 0 < start && Live(l, a) && l.fl != [] && Pos(l.fl, a) == 0
    requires Mid(m, Joined(l, a), start, -1, a, w, Harms(l, a))
    ensures FreedTo(m, a, l.brk, l, a)
  {
    var l2 := Joined(l, a);
    JoinedTopmost(l, start, a);
    JoinedNearly(l, start, a);
    TopmostIsLast(l2, start);
    UpMerges(l, start, a, 0);
    assert l.fl[0] in l.fl;
    MidChained(m, l2, start, a, w, Harms(l, a));
    ButMeans(m, l2.sz, w, Harms(l, a));
  }

  lemma TrimBrk(l: Layout, start: int)
    requires Tiled(l.sz, start, l.brk) && Ordered(l.sz, l.fl)
    ensures start <= Trim(l).brk <= l.brk
  {
    assert l.fl != [] ==> l.fl[|l.fl| - 1] in l.fl;
  }

  /** free leaves the heap in order exactly if the block is freeable. */
  lemma FreedGood(m: Memory, flp: int, brk: int, l: Layout, start: int, a: int)
    requires Ok(l, start) && 0 < start && Live(l, a) && |m| < WORD && l.brk <= |m| && FreedTo(m, flp, brk, l, a)
    ensures start <= Free(l, a).brk
    ensures Good(m, flp, Free(l, a), start) <==> Freeable(l, a)
    ensures Freeable(l, a) ==> brk == Free(l, a).brk
  {
    FreeOk(l, start, a);
    JoinedNearly(l, start, a);
    JoinedTopmost(l, start, a);
    TrimBrk(Joined(l, a), start);
  }

  /** What free does to layout and bytes; `ok` is whether the heap is in order. The size
      fields are those of the new layout exactly if free did no harm. */
  ghost predicate Freed(l: Layout, a: int, m: Memory, m': Memory, l': Layout, ok: bool) {
    && l' == Free(l, a) && UntouchedBut(l, a, m, m')
    && (Headers(m', l'.sz) <==> !Harms(l, a))
    && (ok <==> Freeable(l, a))
  }

  lemma UpFacts(l: Layout, start: int, a: int, j: nat, r: Layout)
    requires Ok(l, start) && Live(l, a) && j == Pos(l.fl, a) && r == Insert(l, a)
    ensures j < |r.fl| && r.fl[j] == a && Link(r.fl, j + 1) == Link(l.fl, j) && (j + 1 == |r.fl| <==> j == |l.fl|)
    ensures End(l.sz, a) in l.fl <==> j < |l.fl| && End(l.sz, a) == l.fl[j]
  {
    UpMerges(l, start, a, j);
    assert j < |l.fl| ==> l.fl[j] in l.fl;
  }

  lemma DownFacts(l: Layout, start: int, a: int, j: nat, r: Layout, l1: Layout)
    requires Ok(l, start) && Live(l, a) && j == Pos(l.fl, a) > 0 && r == Insert(l, a) && l1 == Merge(r, j) && Writable(r, r.fl)
    ensures j < |l1.fl| && l1.fl[j] == a && l1.fl[j - 1] == l.fl[j - 1] < a && l.fl[j - 1] in l1.fl
    ensures Merge(l1, j - 1) == Joined(l, a) && Joined(l, a).fl != [] && Joined(l, a).fl[0] == l.fl[0]
    ensures Writable(r, l1.fl) && Writable(r, Joined(l, a).fl)
  {
    UpMerges(l, start, a, j);
    MergeShrinks(r, j);
    MergeShrinks(l1, j - 1);
    assert r.fl[0] == l.fl[0];
  }
}
