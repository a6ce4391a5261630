/** realloc on layouts and on bytes. */
module HeapResize {
  import opened HeapLayout
  import opened HeapOps
  import opened HeapMemory
  import opened HeapWrites
  import opened HeapFree

  function Max(a: int, b: int): int {
    if a < b then b else a
  }

  function Min(a: int, b: int): int {
    if a < b then a else b
  }

  // ---------------------------------------------------------------- realloc on layouts

  /** Shrinking splits the released bytes off when they can hold a list entry. */
  predicate Splits(s: int, len: int) {
    NODE < s && len <= s - NODE
  }

  /** Entry i is the chunk behind a, and together they hold len bytes. */
  predicate Above(l: Layout, a: int, len: int, i: int) {
    0 <= i < |l.fl| && l.fl[i] == End(l.sz, a) && len - Size(l.sz, a) <= Size(l.sz, l.fl[i]) + HDR
  }

  predicate CanGrow(l: Layout, a: int, len: int) {
    exists i :: 0 <= i < |l.fl| && Above(l, a, len, i)
  }

  function CutAt(l: Layout, a: int, n: int): Layout
    requires a in l.sz
  {
    l.(sz := Cut(l.sz, a, n))
  }

  /** realloc of the live block a to len bytes, which end below the top of the address
      space: r is the new address of the payload, 0 for failure. */
  ghost predicate Resized(l: Layout, end: int, a: int, len: int, l': Layout, r: int)
    requires Live(l, a)
  {
    var s := l.sz[a];
    if len <= s then
      r == a + HDR && l' == if Splits(s, len) then Free(CutAt(l, a, len), a + HDR + len) else l
    else if CanGrow(l, a, len) then
      r == a + HDR && exists i: nat :: Above(l, a, len, i) && End(l.sz, a) in l.sz && l' == GrowInto(l, a, i, len)
    else if l.brk == End(l.sz, a) && !Fits(l, len) then
      if a + HDR + len < end then r == a + HDR && l' == GrowBreak(l, a, len) else r == 0 && l' == l
    else
      Moved(l, end, a, len, l', r)
  }

  /** malloc for len bytes and, if that succeeds, free of a. */
  ghost predicate Moved(l: Layout, end: int, a: int, len: int, l': Layout, r: int) {
    exists l1 :: Placed(l, end, Max(len, MIN), l1, r) && l' == if r == 0 then l else Free(l1, a)
  }

  /** The requests after which the block is where it was: shrinking, or growing in place. */
  predicate Stays(l: Layout, a: int, len: int) {
    len <= Size(l.sz, a) || CanGrow(l, a, len) || (l.brk == End(l.sz, a) && !Fits(l, len))
  }

  /** After malloc, if it succeeds, block a is freeable. */
  ghost predicate Releases(l: Layout, end: int, a: int, len: int) {
    forall l1, r {:trigger Placed(l, end, Max(len, MIN), l1, r)} :: Placed(l, end, Max(len, MIN), l1, r) && r != 0 ==> Freeable(l1, a)
  }

  /** realloc leaves the heap in order: the block stays, or it can be moved. */
  ghost predicate Resizable(l: Layout, end: int, a: int, len: int) {
    Stays(l, a, len) || Releases(l, end, a, len)
  }

  lemma ReleasesIff(l: Layout, end: int, a: int, len: int, l1: Layout, r: int)
    requires Placed(l, end, Max(len, MIN), l1, r)
    ensures Releases(l, end, a, len) <==> r == 0 || Freeable(l1, a)
  {
    forall l2, q | Placed(l, end, Max(len, MIN), l2, q) ensures l2 == l1 && q == r {
      PlacedDetermined(l, end, Max(len, MIN), l1, r, l2, q);
    }
  }

  /** A block that can hold a list entry can always be moved. */
  lemma RoomyReleases(l: Layout, start: int, end: int, a: int, len: int)
    requires Ok(l, start) && 0 < start && Live(l, a) && MIN <= l.sz[a]
    ensures Releases(l, end, a, len)
  {
    forall l1, r | Placed(l, end, Max(len, MIN), l1, r) && r != 0 ensures Freeable(l1, a) {
      PlacedBlocks(l, start, end, Max(len, MIN), l1, r, a);
    }
  }

  /** The requests that realloc refuses: growing, with no room above the block, and
      neither a free chunk that is large enough nor room at the break. */
  predicate Refused(l: Layout, end: int, a: int, len: int) {
    && Size(l.sz, a) < len && !CanGrow(l, a, len) && !Fits(l, len)
    && (if l.brk == End(l.sz, a) then end <= a + HDR + len else end < l.brk + HDR + Max(len, MIN))
  }

  /** The requests whose end wraps far below the block. */
  predicate TooLong(p: int, len: int) {
    WORD <= p + len && len < WORD - HDR
  }

  /** The requests that wrap past the top of the address space unnoticed: the sum of
      pointer and length comes out just below the block. */
  predicate Wraps(l: Layout, a: int, len: int) {
    len >= WORD - HDR && End(l.sz, a) == l.brk
  }

  /** What a successful realloc did to block x. */
  ghost predicate Renewed(l: Layout, a: int, len: int, l': Layout, b: int, x: int) {
    && Live(l', b) && len <= Size(l'.sz, b)
    && (x != a && x != b ==> (Live(l', x) <==> Live(l, x)) && (Live(l, x) ==> Size(l'.sz, x) == Size(l.sz, x)))
    && (b != a ==> !Live(l', a) && !Live(l, b))
  }

  lemma ShrinkMeans(l: Layout, start: int, a: int, len: int, x: int)
    requires Ok(l, start) && Live(l, a) && 0 <= len && Splits(l.sz[a], len)
    ensures Ok(Free(CutAt(l, a, len), a + HDR + len), start)
    ensures Renewed(l, a, len, Free(CutAt(l, a, len), a + HDR + len), a, x)
    ensures Size(Free(CutAt(l, a, len), a + HDR + len).sz, a) == len
  {
    var b := a + HDR + len;
    CutLiveOk(l, start, a, len);
    FreeKeeps(CutAt(l, a, len), start, b);
    var l' := Free(CutAt(l, a, len), b);
    assert Live(l', a) <==> Live(CutAt(l, a, len), a) && a !in {b};
    assert Live(l', x) <==> Live(CutAt(l, a, len), x) && x !in {b};
  }

  lemma GrantThenFree(l: Layout, l1: Layout, l': Layout, a: int, b: int, len: int, x: int)
    requires Live(l, a) && Granted(l, len, l1, b, a) && Granted(l, len, l1, b, x) && SameBlocks(l1, l', {a})
    ensures Renewed(l, a, len, l', b, x) && b != a
  {
    assert Live(l', b) <==> Live(l1, b) && b !in {a};
    assert Live(l', x) <==> Live(l1, x) && x !in {a};
    assert Live(l', a) <==> Live(l1, a) && a !in {a};
  }

  lemma MoveMeans(l: Layout, start: int, a: int, len: int, l1: Layout, b: int, x: int)
    requires Ok(l1, start) && Live(l, a) && Granted(l, len, l1, b, a) && Granted(l, len, l1, b, x)
    ensures Renewed(l, a, len, Free(l1, a), b, x) && b != a
    ensures Freeable(l1, a) ==> Ok(Free(l1, a), start)
  {
    FreeOk(l1, start, a);
    FreeBlocks(l1, start, a);
    GrantThenFree(l, l1, Free(l1, a), a, b, len, x);
  }

  lemma PlacedOk(l: Layout, start: int, end: int, n: int, l': Layout, p: int)
    requires Ok(l, start) && MIN <= n && Placed(l, end, n, l', p)
    ensures Ok(l', start)
  {
    if Fits(l, n) {
      var i: nat :| BestFit(l, n, i) && Serves(l, i, n, l', p);
      assert l.fl[i] in l.fl;
      if Size(l.sz, l.fl[i]) - n < NODE {
        TakeOk(l, start, i);
      } else {
        SplitOk(l, start, i, n);
      }
    } else if l.brk + HDR + n <= end {
      ExtendOk(l, start, n);
    }
  }

  lemma PlacedMeans(l: Layout, start: int, end: int, n: int, l1: Layout, r: int, a: int, x: int)
    requires Ok(l, start) && 0 < start && MIN <= n && Placed(l, end, n, l1, r)
    ensures Ok(l1, start) && (r == 0 <==> !Fits(l, n) && end < l.brk + HDR + n)
    ensures r != 0 ==> Granted(l, n, l1, r - HDR, a) && Granted(l, n, l1, r - HDR, x)
  {
    PlacedOk(l, start, end, n, l1, r);
    PlacedBlocks(l, start, end, n, l1, r, a);
    PlacedBlocks(l, start, end, n, l1, r, x);
  }

  lemma MovedIs(l: Layout, end: int, a: int, len: int, l1: Layout, r: int, l': Layout)
    requires Placed(l, end, Max(len, MIN), l1, r) && l' == if r == 0 then l else Free(l1, a)
    ensures Moved(l, end, a, len, l', r)
  {
  }

  /** After the malloc of realloc the old and the new block are both there. */
  lemma BothLive(l: Layout, start: int, end: int, len: int, l1: Layout, r: int, a: int)
    requires Ok(l, start) && 0 < start && Live(l, a) && l.sz[a] < len && Placed(l, end, Max(len, MIN), l1, r)
    ensures r != 0 ==> Live(l1, a) && Live(l1, r - HDR) && a != r - HDR && l1.sz[a] == l.sz[a] < l1.sz[r - HDR]
  {
    PlacedMeans(l, start, end, Max(len, MIN), l1, r, a, a);
  }

  /** The list holds nothing smaller than the least request. */
  lemma FitsMin(l: Layout, start: int, len: int)
    requires Ok(l, start)
    ensures Fits(l, Max(len, MIN)) <==> Fits(l, len)
  {
    if Fits(l, len) {
      var j :| 0 <= j < |l.fl| && len <= Size(l.sz, l.fl[j]);
      assert l.fl[j] in l.fl;
      assert Max(len, MIN) <= Size(l.sz, l.fl[j]);
    }
  }

  lemma MovedMeans(l: Layout, start: int, end: int, a: int, len: int, l1: Layout, r: int, x: int)
    requires Ok(l, start) && 0 < start && Live(l, a) && 0 <= l.sz[a] < len && Placed(l, end, Max(len, MIN), l1, r)
    ensures r == 0 <==> !Fits(l, len) && end < l.brk + HDR + Max(len, MIN)
    ensures r != 0 ==> Renewed(l, a, len, Free(l1, a), r - HDR, x)
    ensures r != 0 && Releases(l, end, a, len) ==> Ok(Free(l1, a), start)
  {
    FitsMin(l, start, len);
    PlacedAtLeast(l, start, end, len, Max(len, MIN), l1, r, a, x);
    if r != 0 { GrantedMoves(l, start, end, a, len, l1, r, x); }
  }

  lemma GrantedMoves(l: Layout, start: int, end: int, a: int, len: int, l1: Layout, r: int, x: int)
    requires Placed(l, end, Max(len, MIN), l1, r) && r != 0 && Ok(l1, start) && Live(l, a)
    requires Granted(l, len, l1, r - HDR, a) && Granted(l, len, l1, r - HDR, x)
    ensures Renewed(l, a, len, Free(l1, a), r - HDR, x)
    ensures Releases(l, end, a, len) ==> Ok(Free(l1, a), start)
  {
    ReleasesIff(l, end, a, len, l1, r);
    MoveMeans(l, start, a, len, l1, r - HDR, x);
  }

  lemma PlacedAtLeast(l: Layout, start: int, end: int, len: int, n: int, l1: Layout, r: int, a: int, x: int)
    requires Ok(l, start) && 0 < start && MIN <= n && len <= n && Placed(l, end, n, l1, r)
    ensures Ok(l1, start) && (r == 0 <==> !Fits(l, n) && end < l.brk + HDR + n)
    ensures r != 0 ==> Granted(l, len, l1, r - HDR, a) && Granted(l, len, l1, r - HDR, x)
  {
    PlacedMeans(l, start, end, n, l1, r, a, x);
  }

  lemma GrownMeans(l: Layout, start: int, a: int, len: int, i: nat, l': Layout, x: int)
    requires Ok(l, start) && 0 < start && Live(l, a) && l.sz[a] < len
    requires Above(l, a, len, i) && End(l.sz, a) in l.sz && l' == GrowInto(l, a, i, len)
    ensures Ok(l', start) && Renewed(l, a, len, l', a, x)
  {
    GrowIntoOk(l, start, a, i, len);
    GrowIntoBlocks(l, start, a, i, len, x);
    GrowIntoBlocks(l, start, a, i, len, a);
  }

  // ---------------------------------------------------------------- sizes

  /** A block of s bytes for a request of n: the rest is too small for a list entry. */
  predicate Snug(n: int, s: int) {
    n <= s < n + NODE
  }

  /** malloc hands out less than the size of a list entry more than was asked for. */
  lemma PlacedSnug(l: Layout, start: int, end: int, n: int, l': Layout, r: int)
    requires Ok(l, start) && 0 < start && MIN <= n && Placed(l, end, n, l', r) && r != 0
    ensures Snug(n, Size(l'.sz, r - HDR))
  {
    if Fits(l, n) {
      var i: nat :| BestFit(l, n, i) && Serves(l, i, n, l', r);
      assert l.fl[i] in l.fl;
      ServesSnug(l, i, n, l', r);
    }
  }

  lemma ServesSnug(l: Layout, i: nat, n: int, l': Layout, r: int)
    requires i < |l.fl| && l.fl[i] in l.sz && n <= l.sz[l.fl[i]] && Serves(l, i, n, l', r)
    ensures Snug(n, Size(l'.sz, r - HDR))
  {
  }

  /** The size t of a block of s bytes after realloc to len; `moved` if it is a new block. */
  predicate Trimmed(len: int, s: int, t: int, moved: bool) {
    if moved then Snug(Max(len, MIN), t)
    else if len <= s then (t == len || t == s) && (t < len + NODE || s <= NODE)
    else len <= t <= len + NODE
  }

  /** realloc hands out little more than was asked for: less than a list entry in a new
      place, at most a list entry in the old place, and a block that shrinks keeps that much
      or its old size of at most a list entry. It moves the block exactly if it has to. */
  lemma ResizedTrimmed(l: Layout, start: int, end: int, a: int, len: int, l': Layout, r: int)
    requires Ok(l, start) && 0 < start && Live(l, a) && 0 <= len && Resized(l, end, a, len, l', r) && r != 0
    ensures Trimmed(len, l.sz[a], Size(l'.sz, r - HDR), r - HDR != a) && (r - HDR == a <==> Stays(l, a, len))
  {
    if len <= l.sz[a] {
      if Splits(l.sz[a], len) { ShrinkMeans(l, start, a, len, a); }
    } else if CanGrow(l, a, len) {
      var i: nat :| Above(l, a, len, i) && End(l.sz, a) in l.sz && l' == GrowInto(l, a, i, len);
      GrownSize(l, a, i, len);
    } else if !(l.brk == End(l.sz, a) && !Fits(l, len)) {
      var l1 :| Placed(l, end, Max(len, MIN), l1, r) && l' == if r == 0 then l else Free(l1, a);
      MovedSize(l, start, end, a, len, l1, r);
    }
  }

  lemma GrownSize(l: Layout, a: int, i: nat, len: int)
    requires Live(l, a) && Above(l, a, len, i) && End(l.sz, a) in l.sz && 0 <= l.sz[a] < len
    ensures len <= Size(GrowInto(l, a, i, len).sz, a) <= len + NODE
  {
  }

  lemma MovedSize(l: Layout, start: int, end: int, a: int, len: int, l1: Layout, r: int)
    requires Ok(l, start) && 0 < start && Live(l, a) && Placed(l, end, Max(len, MIN), l1, r) && r != 0
    ensures r - HDR != a && Snug(Max(len, MIN), Size(Free(l1, a).sz, r - HDR))
  {
    var n, b := Max(len, MIN), r - HDR;
    PlacedSnug(l, start, end, n, l1, r);
    PlacedMeans(l, start, end, n, l1, r, b, a);
    PlacedMeans(l, start, end, n, l1, r, b, b);
    FreeBlocks(l1, start, a);
    assert Live(l1, b) && b !in {a};
    assert Live(Free(l1, a), b);
  }

  /** The block at r, if malloc for n bytes succeeded, is no larger than it has to be. */
  ghost predicate Tight(n: int, l': Layout, r: int) {
    forall u {:trigger Looked(u)} :: Looked(u) ==> r == 0 || Snug(n, Size(l'.sz, r - HDR))
  }

  lemma PlacedTight(l: Layout, start: int, end: int, n: int, l': Layout, r: int)
    requires Ok(l, start) && 0 < start && MIN <= n && Placed(l, end, n, l', r)
    ensures Tight(n, l', r)
  {
    if r != 0 { PlacedSnug(l, start, end, n, l', r); }
  }

  /** The block at r, if realloc to len succeeded, is no larger than it has to be. */
  ghost predicate Fitted(l: Layout, a: int, len: int, l': Layout, r: int) {
    forall u {:trigger Looked(u)} :: Looked(u) ==> r == 0 || Trimmed(len, Size(l.sz, a), Size(l'.sz, r - HDR), r - HDR != a)
  }

  lemma ResizedFitted(l: Layout, start: int, end: int, a: int, len: int, l': Layout, r: int)
    requires Ok(l, start) && 0 < start && Live(l, a) && 0 <= len && Resized(l, end, a, len, l', r)
    ensures Fitted(l, a, len, l', r)
  {
    if r != 0 { ResizedTrimmed(l, start, end, a, len, l', r); }
  }

  // ---------------------------------------------------------------- what realloc promises

  /** realloc either fails and changes nothing or yields a block of len bytes or little more;
      all other blocks stay, and a block that moved is gone from its old place. */
  lemma ResizedMeans(l: Layout, start: int, end: int, a: int, len: int, l': Layout, r: int, x: int)
    requires Ok(l, start) && 0 < start && Live(l, a) && 0 <= len && Resized(l, end, a, len, l', r)
    ensures Resizable(l, end, a, len) ==> Ok(l', start)
    ensures r == 0 <==> Refused(l, end, a, len)
    ensures if r == 0 then l' == l
            else Renewed(l, a, len, l', r - HDR, x) && Trimmed(len, l.sz[a], Size(l'.sz, r - HDR), r - HDR != a)
  {
    ResizedKeeps(l, start, end, a, len, l', r, x);
    if r != 0 { ResizedTrimmed(l, start, end, a, len, l', r); }
  }

  lemma ResizedKeeps(l: Layout, start: int, end: int, a: int, len: int, l': Layout, r: int, x: int)
    requires Ok(l, start) && 0 < start && Live(l, a) && 0 <= len && Resized(l, end, a, len, l', r)
    ensures Resizable(l, end, a, len) ==> Ok(l', start)
    ensures r == 0 <==> Refused(l, end, a, len)
    ensures if r == 0 then l' == l else Renewed(l, a, len, l', r - HDR, x)
  {
    if len <= l.sz[a] {
      ShrunkMeansAll(l, start, end, a, len, l', r, x);
    } else if CanGrow(l, a, len) {
      GrownMeansAll(l, start, a, len, l', x);
    } else if l.brk == End(l.sz, a) && !Fits(l, len) {
      if r != 0 { GrowBreakOk(l, start, a, len); }
    } else {
      MovedMeansAll(l, start, end, a, len, l', r, x);
    }
  }

  lemma ShrunkMeansAll(l: Layout, start: int, end: int, a: int, len: int, l': Layout, r: int, x: int)
    requires Ok(l, start) && Live(l, a) && 0 <= len <= l.sz[a] && Resized(l, end, a, len, l', r)
    ensures r == a + HDR && Ok(l', start) && Renewed(l, a, len, l', a, x)
  {
    if Splits(l.sz[a], len) { ShrinkMeans(l, start, a, len, x); }
  }

  lemma GrownMeansAll(l: Layout, start: int, a: int, len: int, l': Layout, x: int)
    requires Ok(l, start) && 0 < start && Live(l, a) && l.sz[a] < len
    requires exists i: nat :: Above(l, a, len, i) && End(l.sz, a) in l.sz && l' == GrowInto(l, a, i, len)
    ensures Ok(l', start) && Renewed(l, a, len, l', a, x)
  {
    var i: nat :| Above(l, a, len, i) && End(l.sz, a) in l.sz && l' == GrowInto(l, a, i, len);
    GrownMeans(l, start, a, len, i, l', x);
  }

  lemma MovedMeansAll(l: Layout, start: int, end: int, a: int, len: int, l': Layout, r: int, x: int)
    requires Ok(l, start) && 0 < start && Live(l, a) && 0 <= l.sz[a] < len && Moved(l, end, a, len, l', r)
    ensures r == 0 <==> !Fits(l, len) && end < l.brk + HDR + Max(len, MIN)
    ensures if r == 0 then l' == l else Renewed(l, a, len, l', r - HDR, x)
    ensures Releases(l, end, a, len) ==> Ok(l', start)
  {
    var l1 :| Placed(l, end, Max(len, MIN), l1, r) && l' == if r == 0 then l else Free(l1, a);
    MovedMeans(l, start, end, a, len, l1, r, x);
  }

  // ---------------------------------------------------------------- realloc on bytes

  /** The bytes outside [lo, hi) are the same. */
  ghost predicate SameOutside(m: Memory, m': Memory, lo: int, hi: int) {
    |m'| == |m| && forall y :: 0 <= y < |m| && !(lo <= y < hi) ==> m'[y] == m[y]
  }

  /** The owner of a block may write to all of it. */
  lemma PayloadWrite(m: Memory, m': Memory, flp: int, l: Layout, start: int, a: int, lo: int, hi: int)
    requires Good(m, flp, l, start) && Live(l, a) && SameOutside(m, m', lo, hi) && a + HDR <= lo && hi <= End(l.sz, a)
    ensures Good(m', flp, l, start)
  {
    forall x | x in l.sz ensures Word(m', x) == Word(m, x) {
      assert x == a || x < a || a < x;
    }
    forall i ensures Linked(m', l.fl, i) {
      assert Linked(m, l.fl, i);
      if 0 <= i < |l.fl| {
        assert l.fl[i] in l.fl;
        assert l.fl[i] < a || a < l.fl[i];
      }
    }
  }

  lemma CutGood(m: Memory, flp: int, l: Layout, start: int, a: int, n: int, b: int, v: int)
    requires Good(m, flp, l, start) && Live(l, a) && 0 <= n && b == a + HDR + n && 0 <= v == l.sz[a] - n - HDR
    ensures var l' := CutAt(l, a, n);
      && 0 < a && a + 2 <= |m| && b + 2 <= |m| && l.sz[a] < WORD
      && Live(l', a) && Live(l', b) && l'.sz[b] == v
      && var m' := PutWord(PutWord(m, b, v), a, n);
         Good(m', flp, l', start) && Untouched(l', m, m')
  {
    var l' := CutAt(l, a, n);
    CutLiveOk(l, start, a, n);
    CutHeaders(m, l, start, a, n, b, v);
    CutLinks(m, flp, l, start, a, n, b, v);
    HeaderHarmless(l', start, a);
    HeaderHarmless(l', start, b);
    PutUntouched(l', m, m, b, v);
    PutUntouched(l', m, PutWord(m, b, v), a, n);
  }

  lemma CutHeaders(m: Memory, l: Layout, start: int, a: int, n: int, b: int, v: int)
    requires Headers(m, l.sz) && Tiled(l.sz, start, l.brk) && a in l.sz && l.brk <= |m| < WORD
    requires 0 <= n && b == a + HDR + n && 0 <= v == l.sz[a] - n - HDR
    ensures 0 <= a && Headers(PutWord(PutWord(m, b, v), a, n), Cut(l.sz, a, n))
  {
    forall x | x in l.sz ensures Disjoint(b, x) && (x != a ==> Disjoint(a, x)) {
      assert x == a || x < a || a < x;
    }
    HeaderPut(m, l.sz, b, v);
    HeaderPut(PutWord(m, b, v), l.sz[b := v], a, n);
    assert l.sz[b := v][a := n] == Cut(l.sz, a, n);
  }

  lemma CutLinks(m: Memory, flp: int, l: Layout, start: int, a: int, n: int, b: int, v: int)
    requires Good(m, flp, l, start) && Live(l, a) && 0 <= n && b == a + HDR + n && 0 <= v == l.sz[a] - n - HDR
    ensures 0 <= a && Links(PutWord(PutWord(m, b, v), a, n), l.fl)
  {
    forall i | 0 <= i < |l.fl| ensures Disjoint(b, l.fl[i] + 2) && Disjoint(a, l.fl[i] + 2) {
      assert l.fl[i] in l.fl;
      assert l.fl[i] < a || a < l.fl[i];
    }
    LinksAside(m, l.fl, b, v);
    LinksAside(PutWord(m, b, v), l.fl, a, n);
  }

  /** A block's header may be rewritten without touching a list entry. */
  lemma HeaderAsideLinks(m: Memory, flp: int, l: Layout, start: int, a: int, v: int)
    requires Good(m, flp, l, start) && Live(l, a) && 0 <= v < WORD
    ensures 0 < a && a + 2 <= |m| && Links(PutWord(m, a, v), l.fl) && Untouched(l, m, PutWord(m, a, v))
    ensures forall x :: x in l.sz && x != a ==> Disjoint(a, x)
  {
    forall i | 0 <= i < |l.fl| ensures Disjoint(a, l.fl[i] + 2) {
      assert l.fl[i] in l.fl;
      assert l.fl[i] < a || a < l.fl[i];
    }
    LinksAside(m, l.fl, a, v);
    forall x | x in l.sz && x != a ensures Disjoint(a, x) {
      assert x < a || a < x;
    }
    HeaderHarmless(l, start, a);
    PutUntouched(l, m, m, a, v);
  }

  /** The topmost block grows with the break. */
  lemma GrowBreakGood(m: Memory, flp: int, l: Layout, start: int, a: int, len: int)
    requires Good(m, flp, l, start) && Live(l, a) && End(l.sz, a) == l.brk && l.sz[a] < len && a + HDR + len <= |m|
    ensures 0 < a && a + 2 <= |m| && Word(m, a) == l.sz[a]
    ensures Good(PutWord(m, a, len), flp, GrowBreak(l, a, len), start) && Untouched(l, m, PutWord(m, a, len))
  {
    GrowBreakOk(l, start, a, len);
    HeaderAsideLinks(m, flp, l, start, a, len);
    HeaderPut(m, l.sz, a, len);
  }

  // ---------------------------------------------------------------- growing into the next chunk

  lemma NextFacts(m: Memory, flp: int, l: Layout, start: int, a: int, i: nat)
    requires Good(m, flp, l, start) && Live(l, a) && i < |l.fl| && l.fl[i] == End(l.sz, a)
    ensures var c := l.fl[i];
      && c in l.sz && 0 < a && a + 2 <= c && c + 4 <= End(l.sz, c) <= |m| && MIN <= l.sz[c]
      && Word(m, a) == l.sz[a] && Word(m, c) == l.sz[c] && Word(m, c + 2) == Link(l.fl, i + 1)
      && l.sz[a] + HDR + l.sz[c] < WORD && 0 <= Link(l.fl, i + 1) < WORD
  {
    EntryFacts(m, flp, l, start, i);
  }

  /** Taking all of the next chunk: the links but for the predecessor's. */
  lemma AllLinks(m: Memory, fl: seq<int>, i: nat)
    requires Links(m, fl) && i < |fl|
    ensures LinksBut(m, Without(fl, i), i - 1)
  {
    var fl' := Without(fl, i);
    forall j | j != i - 1 ensures Linked(m, fl', j) {
      assert Linked(m, fl, if j < i then j else j + 1);
    }
  }

  lemma AllPartial(m: Memory, flp: int, l: Layout, start: int, a: int, i: nat, v: int)
    requires Good(m, flp, l, start) && Live(l, a) && i < |l.fl| && l.fl[i] == End(l.sz, a)
    requires v == l.sz[a] + HDR + Size(l.sz, l.fl[i])
    ensures l.fl[i] in l.sz && 0 < a && a + 2 <= |m| && v < WORD
    ensures var m' := PutWord(m, a, v);
      && Partial(m', GrowAll(l, a, i), start, i - 1)
      && Untouched(l, m, m') && Word(m', l.fl[i] + 2) == Word(m, l.fl[i] + 2)
  {
    NextFacts(m, flp, l, start, a, i);
    HeaderAsideLinks(m, flp, l, start, a, v);
    HeaderPut(m, l.sz, a, v);
    AllLinks(PutWord(m, a, v), l.fl, i);
    WordPut(m, a, v);
    assert Disjoint(a, l.fl[i] + 2);
    GrowAllOk(l, start, a, i);
  }

  /** The three writes that split the next chunk, in the order the code makes them. */
  function PartWords(m: Memory, a: int, b: int, nx: int, rest: int, len: int): (r: Memory)
    requires 0 <= a && a + 1 < |m| && 0 <= b && b + 3 < |m| && 0 <= nx < WORD && 0 <= rest < WORD && 0 <= len < WORD
    ensures |r| == |m|
  {
    PutWord(PutWord(PutWord(m, b + 2, nx), b, rest), a, len)
  }

  /** The writes are inside the heap, and the first leaves the old entry's size alone. */
  predicate PartRoom(m: Memory, a: int, c: int, b: int, incr: int, len: int) {
    && 0 <= a && a + 2 <= c < b && b + 4 <= |m| && c + 4 <= |m| && 0 <= len < WORD
    && 0 <= incr <= Word(m, c)
  }

  /** Where the new list entry lies. */
  lemma PartPlace(l: Layout, start: int, a: int, i: nat, len: int, b: int)
    requires Ok(l, start) && Live(l, a) && i < |l.fl| && End(l.sz, a) == l.fl[i] && l.sz[a] < len
    requires NODE < Size(l.sz, l.fl[i]) + HDR - (len - l.sz[a]) && b == a + HDR + len
    ensures var c := l.fl[i];
      && ClearOf(l.sz - {c}, b) && ClearOf(l.sz - {c}, b + 2) && Harmless(l, b) && Harmless(l, b + 2)
      && (forall k :: 0 <= k < |l.fl| && k != i ==> Disjoint(b, l.fl[k] + 2) && Disjoint(b + 2, l.fl[k] + 2))
  {
    var c := l.fl[i];
    assert c in l.fl;
    forall x | x in l.sz - {c} ensures Disjoint(b, x) && Disjoint(b + 2, x) {
      assert x < c || c < x;
    }
    forall x | Live(l, x) ensures (b + 2 <= x + HDR || End(l.sz, x) <= b) && (b + 4 <= x + HDR || End(l.sz, x) <= b + 2) {
      assert x < c || c < x;
    }
    forall k | 0 <= k < |l.fl| && k != i ensures Disjoint(b, l.fl[k] + 2) && Disjoint(b + 2, l.fl[k] + 2) {
      assert l.fl[k] in l.fl;
      assert l.fl[k] < c || c < l.fl[k];
    }
  }

  lemma PartHeaders(m: Memory, sz: Sizes, a: int, c: int, b: int, nx: int, rest: int, len: int)
    requires Headers(m, sz) && ClearOf(sz - {c}, b) && ClearOf(sz - {c}, b + 2) && a in sz && a != c && a + 2 <= b
    requires forall x :: x in sz && x != a ==> Disjoint(a, x)
    requires b + 3 < |m| && 0 <= nx < WORD && 0 <= rest < WORD && 0 <= len < WORD
    ensures 0 <= a && Headers(PartWords(m, a, b, nx, rest, len), (sz - {c})[a := len][b := rest])
  {
    var sz1, m1 := sz - {c}, PutWord(m, b + 2, nx);
    assert Headers(m, sz1);
    HeadersAside(m, sz1, b + 2, nx);
    HeaderPut(m1, sz1, b, rest);
    HeaderPut(PutWord(m1, b, rest), sz1[b := rest], a, len);
    assert sz1[b := rest][a := len] == sz1[a := len][b := rest];
  }

  lemma PartLinks(m: Memory, fl: seq<int>, i: nat, a: int, b: int, nx: int, rest: int, len: int)
    requires Links(m, fl) && i < |fl| && 0 <= a && a + 2 <= b && b + 3 < |m|
    requires 0 <= nx == Link(fl, i + 1) < WORD && 0 <= rest < WORD && 0 <= len < WORD
    requires forall k :: 0 <= k < |fl| && k != i ==> Disjoint(b, fl[k] + 2) && Disjoint(b + 2, fl[k] + 2)
    requires forall k :: 0 <= k < |fl| ==> Disjoint(a, fl[k] + 2)
    ensures LinksBut(PartWords(m, a, b, nx, rest, len), fl[i := b], i - 1)
  {
    var m1 := PutWord(m, b + 2, nx);
    var m2 := PutWord(m1, b, rest);
    WordPut(m, b + 2, nx);
    WordPut(m1, b, rest);
    WordPut(m2, a, len);
    var m', fl' := PutWord(m2, a, len), fl[i := b];
    forall j | j != i - 1 ensures Linked(m', fl', j) {
      assert Linked(m, fl, j);
    }
  }

  lemma PartUntouched(l: Layout, m: Memory, a: int, b: int, nx: int, rest: int, len: int)
    requires 0 <= a && a + 1 < |m| && 0 <= b && b + 3 < |m| && 0 <= nx < WORD && 0 <= rest < WORD && 0 <= len < WORD
    requires Harmless(l, a) && Harmless(l, b) && Harmless(l, b + 2)
    ensures Untouched(l, m, PartWords(m, a, b, nx, rest, len))
  {
    PutUntouched(l, m, m, b + 2, nx);
    PutUntouched(l, m, PutWord(m, b + 2, nx), b, rest);
    PutUntouched(l, m, PutWord(PutWord(m, b + 2, nx), b, rest), a, len);
  }

  lemma AsideEntries(l: Layout, start: int, a: int)
    requires Ok(l, start) && Live(l, a)
    ensures forall k :: 0 <= k < |l.fl| ==> Disjoint(a, l.fl[k] + 2)
    ensures forall x :: x in l.sz && x != a ==> Disjoint(a, x)
  {
    forall k | 0 <= k < |l.fl| ensures Disjoint(a, l.fl[k] + 2) {
      assert l.fl[k] in l.fl;
      assert l.fl[k] < a || a < l.fl[k];
    }
    forall x | x in l.sz && x != a ensures Disjoint(a, x) {
      assert x < a || a < x;
    }
  }

  lemma PartStored(m: Memory, flp: int, l: Layout, start: int, a: int, i: nat, len: int, b: int, nx: int, rest: int)
    requires Good(m, flp, l, start) && Live(l, a) && i < |l.fl| && End(l.sz, a) == l.fl[i] && l.sz[a] < len < WORD
    requires b == a + HDR + len && nx == Link(l.fl, i + 1) && rest == Size(l.sz, l.fl[i]) - (len - l.sz[a])
    requires 0 < a && b + 4 <= |m| && 0 <= nx < WORD && NODE < rest + HDR && rest < WORD
    ensures var m' := PartWords(m, a, b, nx, rest, len);
      Headers(m', (l.sz - {l.fl[i]})[a := len][b := rest]) && LinksBut(m', l.fl[i := b], i - 1) && Untouched(l, m, m')
  {
    PartPlace(l, start, a, i, len, b);
    AsideEntries(l, start, a);
    HeaderHarmless(l, start, a);
    PartHeaders(m, l.sz, a, l.fl[i], b, nx, rest, len);
    PartLinks(m, l.fl, i, a, b, nx, rest, len);
    PartUntouched(l, m, a, b, nx, rest, len);
  }

  /** Taking the lower part of the next chunk, c; the list entry moves to b. */
  lemma PartPartial(m: Memory, flp: int, l: Layout, start: int, a: int, i: nat, len: int, b: int, nx: int, rest: int)
    requires Good(m, flp, l, start) && Live(l, a) && i < |l.fl| && End(l.sz, a) == l.fl[i] && l.sz[a] < len < WORD
    requires b == a + HDR + len && nx == Link(l.fl, i + 1) && rest == Size(l.sz, l.fl[i]) - (len - l.sz[a])
    requires 0 < a && b + 4 <= |m| && 0 <= nx < WORD && NODE < rest + HDR && rest < WORD
    ensures var m' := PartWords(m, a, b, nx, rest, len);
      Partial(m', GrowPart(l, a, i, len, b, rest), start, i - 1) && Untouched(l, m, m')
  {
    GrowPartOk(l, start, a, i, len, b, rest);
    PartStored(m, flp, l, start, a, i, len, b, nx, rest);
  }

  // ---------------------------------------------------------------- what the caller sees

  /** Byte k behind r is what was byte k behind p. */
  predicate Carried(m: Memory, p: int, m': Memory, r: int, k: int) {
    0 <= p + k < |m| && 0 <= r + k < |m'| && m'[r + k] == m[p + k]
  }

  ghost predicate Carries(m: Memory, p: int, m': Memory, r: int, n: int) {
    forall k {:trigger Carried(m, p, m', r, k)} :: 0 <= k < n ==> Carried(m, p, m', r, k)
  }

  /** What realloc does to layout and bytes; `ok` is whether the heap is in order. */
  ghost predicate Reshaped(l: Layout, end: int, a: int, len: int, m: Memory, m': Memory, l': Layout, r: int, ok: bool)
    requires Live(l, a)
  {
    Resized(l, end, a, len, l', r) && Copied(l, a, len, m, m', r) && (ok <==> Resizable(l, end, a, len))
  }

  /** A failing realloc changes no byte. Otherwise the contents of the block, as far as
      they fit, stand at r, and the other blocks keep theirs. */
  ghost predicate Copied(l: Layout, a: int, len: int, m: Memory, m': Memory, r: int) {
    && UntouchedBut(l, a, m, m')
    && (r == 0 ==> m' == m)
    && (r != 0 ==> Carries(m, a + HDR, m', r, Min(Size(l.sz, a), len)))
  }

  lemma InPlace(m: Memory, l: Layout, start: int, a: int, len: int, p: int, m': Memory)
    requires Ok(l, start) && 0 < start && l.brk <= |m| && Live(l, a) && p == a + HDR && Untouched(l, m, m')
    ensures Copied(l, a, len, m, m', p)
  {
    forall k | 0 <= k < Min(l.sz[a], len) ensures Carried(m, p, m', p, k) {
      assert p <= p + k < End(l.sz, a);
    }
  }

  /** The released part of a shrinking block may be overwritten. */
  lemma ShrunkInPlace(m: Memory, l: Layout, start: int, a: int, len: int, b: int, p: int, m1: Memory, m': Memory)
    requires Ok(l, start) && 0 < start && l.brk <= |m| && Live(l, a) && 0 <= len <= l.sz[a] - HDR && b == a + HDR + len && p == a + HDR
    requires Untouched(CutAt(l, a, len), m, m1) && UntouchedBut(CutAt(l, a, len), b, m1, m')
    ensures Copied(l, a, len, m, m', p)
  {
    var l' := CutAt(l, a, len);
    CutLiveOk(l, start, a, len);
    assert Live(l', a) && a != b && End(l'.sz, a) == b;
    forall x, y | Live(l, x) && x != a && x + HDR <= y < End(l.sz, x) && 0 <= y < |m| ensures m'[y] == m[y] {
      assert Live(l', x) && x != b && End(l'.sz, x) == End(l.sz, x);
    }
    forall k | 0 <= k < len ensures Carried(m, p, m', p, k) {
      assert p <= p + k < End(l'.sz, a);
    }
  }

  /** malloc, memcpy and free, seen from one block. */
  lemma MovedByte(l: Layout, l1: Layout, start: int, a: int, b: int, m: Memory, m1: Memory, m2: Memory, m3: Memory, n: int, x: int, y: int)
    requires Ok(l1, start) && Live(l, x) && x != a && Granted(l, Size(l.sz, a), l1, b, x)
    requires Untouched(l, m, m1) && SameOutside(m1, m2, b + HDR, b + HDR + n) && n <= Size(l1.sz, b) && UntouchedBut(l1, a, m2, m3)
    requires x + HDR <= y < End(l.sz, x) && 0 <= y < |m|
    ensures m3[y] == m[y]
  {
    assert x != b && (x < b || b < x);
  }

  lemma MovedOwn(l: Layout, l1: Layout, start: int, a: int, b: int, len: int, m: Memory, m1: Memory, m2: Memory, m3: Memory)
    requires Ok(l, start) && Ok(l1, start) && 0 < start && Live(l, a) && l.sz[a] < len && Granted(l, len, l1, b, a) && l1.brk <= |m| && l.brk <= |m|
    requires Untouched(l, m, m1) && UntouchedBut(l1, a, m2, m3) && Carries(m1, a + HDR, m2, b + HDR, l.sz[a])
    ensures Carries(m, a + HDR, m3, b + HDR, Min(l.sz[a], len))
  {
    var p, r := a + HDR, b + HDR;
    forall k | 0 <= k < l.sz[a] ensures Carried(m, p, m3, r, k) {
      assert Carried(m1, p, m2, r, k);
      assert Live(l1, b) && b + HDR <= r + k < End(l1.sz, b);
    }
  }

  lemma MovedOthers(l: Layout, l1: Layout, start: int, end: int, a: int, len: int, r: int, m: Memory, m1: Memory, m2: Memory, m3: Memory)
    requires Ok(l, start) && 0 < start && Live(l, a) && 0 <= l.sz[a] < len && Placed(l, end, Max(len, MIN), l1, r) && r != 0
    requires Untouched(l, m, m1) && SameOutside(m1, m2, r, r + l.sz[a]) && UntouchedBut(l1, a, m2, m3)
    ensures UntouchedBut(l, a, m, m3)
  {
    forall x, y | Live(l, x) && x != a && x + HDR <= y < End(l.sz, x) && 0 <= y < |m| ensures m3[y] == m[y] {
      MovedOther(l, l1, start, end, a, len, r, m, m1, m2, m3, x, y);
    }
  }

  lemma MovedOther(l: Layout, l1: Layout, start: int, end: int, a: int, len: int, r: int, m: Memory, m1: Memory, m2: Memory, m3: Memory, x: int, y: int)
    requires Ok(l, start) && 0 < start && Live(l, a) && 0 <= l.sz[a] < len && Placed(l, end, Max(len, MIN), l1, r) && r != 0
    requires Untouched(l, m, m1) && SameOutside(m1, m2, r, r + l.sz[a]) && UntouchedBut(l1, a, m2, m3)
    requires Live(l, x) && x != a && x + HDR <= y < End(l.sz, x) && 0 <= y < |m|
    ensures |m3| == |m| && m3[y] == m[y]
  {
    PlacedMeans(l, start, end, Max(len, MIN), l1, r, a, x);
    MovedByte(l, l1, start, a, r - HDR, m, m1, m2, m3, l.sz[a], x, y);
  }

  lemma MovedCopied(l: Layout, l1: Layout, start: int, end: int, a: int, len: int, r: int, m: Memory, m1: Memory, m2: Memory, m3: Memory)
    requires Ok(l, start) && 0 < start && Live(l, a) && 0 <= l.sz[a] < len && Placed(l, end, Max(len, MIN), l1, r) && r != 0
    requires l.brk <= |m| && l1.brk <= |m| && Untouched(l, m, m1) && UntouchedBut(l1, a, m2, m3)
    requires SameOutside(m1, m2, r, r + l.sz[a]) && Carries(m1, a + HDR, m2, r, l.sz[a])
    ensures Copied(l, a, len, m, m3, r)
  {
    MovedOthers(l, l1, start, end, a, len, r, m, m1, m2, m3);
    PlacedMeans(l, start, end, Max(len, MIN), l1, r, a, a);
    MovedOwn(l, l1, start, a, r - HDR, len, m, m1, m2, m3);
  }

  lemma BlocksApart(l: Layout, start: int, a: int, b: int)
    requires Ok(l, start) && Live(l, a) && Live(l, b) && a != b
    ensures End(l.sz, a) <= b || End(l.sz, b) <= a
  {
    assert a < b || b < a;
  }

  /** No layout that the heap could store has a block at a. */
  ghost predicate Lost(m: Memory, flp: int, start: int, a: int) {
    forall l {:trigger Good(m, flp, l, start)} :: Good(m, flp, l, start) ==> !Live(l, a)
  }

  lemma LostBlock(m: Memory, flp: int, start: int, a: int)
    requires Word(m, a) >= WORD - HDR
    ensures Lost(m, flp, start, a)
  {
    forall l | Good(m, flp, l, start) ensures !Live(l, a) {
      assert a in l.sz ==> End(l.sz, a) <= l.brk;
    }
  }

  /** What realloc reads of its block. */
  lemma BlockFacts(m: Memory, flp: int, l: Layout, start: int, a: int)
    requires Good(m, flp, l, start) && Live(l, a)
    ensures 0 < a && a + 2 <= |m| && Word(m, a) == l.sz[a] && End(l.sz, a) <= |m| && start < l.brk
  {
  }

  /** With the predecessor's link, the list is complete. */
  lemma RelinkGood(m: Memory, flp: int, l: Layout, start: int, i: nat, prev: int, nx: int, l0: Layout, m0: Memory)
    requires Partial(m, l, start, i - 1) && i <= |l.fl| && Ok(l, start) && Untouched(l0, m0, m)
    requires prev == Link(l.fl, i - 1) && nx == Link(l.fl, i)
    requires i > 0 ==> 0 < prev && Harmless(l0, prev + 2) && flp == l.fl[0]
    ensures if prev == 0 then Good(m, nx, l, start)
            else && prev + 4 <= |m| && 0 <= nx < WORD
                 && Good(PutWord(m, prev + 2, nx), flp, l, start) && Untouched(l0, m0, PutWord(m, prev + 2, nx))
  {
    if i > 0 {
      CompletePartial(m, l, start, i - 1);
      PartialGood(PutWord(m, prev + 2, nx), l, start);
      PutUntouched(l0, m0, m, prev + 2, nx);
    } else {
      PartialGood(m, l, start);
    }
  }

  lemma WithoutLinks(fl: seq<int>, i: nat)
    requires i < |fl|
    ensures Link(Without(fl, i), i - 1) == Link(fl, i - 1) && Link(Without(fl, i), i) == Link(fl, i + 1)
    ensures i > 0 ==> Without(fl, i)[0] == fl[0]
  {
  }

  /** All writes of a split: the entry before c now points to b. */
  lemma PartGood(m: Memory, flp: int, l: Layout, start: int, a: int, i: nat, len: int, c: int, b: int, incr: int, nx: int, rest: int, prev: int)
    requires Good(m, flp, l, start) && Live(l, a) && i < |l.fl| && End(l.sz, a) == c == l.fl[i] && 0 < incr == len - l.sz[a]
    requires b == a + HDR + len && nx == Word(m, c + 2) && rest == Word(m, c) - incr && NODE < rest + HDR
    requires prev == Link(l.fl, i - 1)
    ensures PartRoom(m, a, c, b, incr, len)
    ensures var m1, l' := PartWords(m, a, b, nx, rest, len), GrowPart(l, a, i, len, b, rest);
      if prev == 0 then Good(m1, b, l', start) && Untouched(l, m, m1)
      else && 0 < prev && prev + 4 <= |m|
           && Good(PutWord(m1, prev + 2, b), flp, l', start) && Untouched(l, m, PutWord(m1, prev + 2, b))
  {
    NextFacts(m, flp, l, start, a, i);
    PartPartial(m, flp, l, start, a, i, len, b, nx, rest);
    GrowPartOk(l, start, a, i, len, b, rest);
    if i > 0 { EntryFacts(m, flp, l, start, i - 1); }
    RelinkGood(PartWords(m, a, b, nx, rest, len), flp, GrowPart(l, a, i, len, b, rest), start, i, prev, b, l, m);
  }

  lemma AllGood(m: Memory, flp: int, l: Layout, start: int, a: int, i: nat, c: int, nx: int, v: int, prev: int)
    requires Good(m, flp, l, start) && Live(l, a) && i < |l.fl| && End(l.sz, a) == c == l.fl[i]
    requires nx == Word(m, c + 2) && v == l.sz[a] + Word(m, c) + HDR && prev == Link(l.fl, i - 1)
    ensures c in l.sz && 0 < a && a + 2 <= c && c + 4 <= |m| && v < WORD && Word(PutWord(m, a, v), c + 2) == nx
    ensures var m1, l' := PutWord(m, a, v), GrowAll(l, a, i);
      if prev == 0 then Good(m1, nx, l', start) && Untouched(l, m, m1)
      else && 0 < prev && prev + 4 <= |m|
           && Good(PutWord(m1, prev + 2, nx), flp, l', start) && Untouched(l, m, PutWord(m1, prev + 2, nx))
  {
    NextFacts(m, flp, l, start, a, i);
    AllPartial(m, flp, l, start, a, i, v);
    GrowAllOk(l, start, a, i);
    if i > 0 { EntryFacts(m, flp, l, start, i - 1); }
    WithoutLinks(l.fl, i);
    RelinkGood(PutWord(m, a, v), flp, GrowAll(l, a, i), start, i, prev, nx, l, m);
  }

  lemma WrapFacts(l: Layout, start: int, a: int, len: int)
    requires Ok(l, start) && 0 < start && l.brk < WORD && Live(l, a)
    ensures len >= WORD - HDR ==> !CanGrow(l, a, len) && !Fits(l, len)
  {
    forall i | 0 <= i < |l.fl| && len >= WORD - HDR ensures !Above(l, a, len, i) && Size(l.sz, l.fl[i]) < len {
      assert l.fl[i] in l.fl;
    }
  }

  lemma ResizedAbove(l: Layout, end: int, a: int, len: int, i: nat, p: int, l': Layout)
    requires p == a + HDR && Live(l, a) && l.sz[a] < len && Above(l, a, len, i) && End(l.sz, a) in l.sz && l' == GrowInto(l, a, i, len)
    ensures Resized(l, end, a, len, l', p) && CanGrow(l, a, len)
  {
  }

  lemma ResizedShrunk(l: Layout, end: int, a: int, len: int, b: int, p: int, l': Layout)
    requires Live(l, a) && len <= l.sz[a] && b == a + HDR + len && p == a + HDR
    requires l' == if Splits(l.sz[a], len) then Free(CutAt(l, a, len), b) else l
    ensures Resized(l, end, a, len, l', p)
  {
  }

  /** What the unsuccessful walk establishes; big is the largest free chunk. */
  lemma NotAbove(l: Layout, a: int, len: int, big: int)
    requires a in l.sz && 0 <= l.sz[a] < len
    requires forall j :: 0 <= j < |l.fl| ==> !(l.fl[j] == a + HDR + l.sz[a] && len - l.sz[a] <= Size(l.sz, a + HDR + l.sz[a]) + HDR)
    requires forall j :: 0 <= j < |l.fl| ==> Size(l.sz, l.fl[j]) <= big
    requires big > 0 ==> exists j :: 0 <= j < |l.fl| && Size(l.sz, l.fl[j]) == big
    ensures !CanGrow(l, a, len) && (len > big <==> !Fits(l, len))
  {
  }
}
