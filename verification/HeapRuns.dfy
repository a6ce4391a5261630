/** Whole runs of malloc, free and realloc. */
module HeapRuns {
  import opened HeapLayout
  import opened HeapOps
  import opened HeapMemory
  import opened HeapFree
  import opened HeapResize

  /** Blocks are named by the address of their header. A call of free with NULL does
      nothing and realloc of NULL is malloc, so neither is listed. `Write` is a store of
      the block's owner to byte k of it. */
  datatype Call = Malloc(len: int) | FreeIt(a: int) | Realloc(a: int, len: int) | Write(a: int, k: int, v: byte)

  datatype Event = Event(call: Call, result: int)

  /** Every block can hold a list entry, so that it can be freed. */
  ghost predicate Roomy(l: Layout) {
    forall x {:trigger Live(l, x)} :: Live(l, x) ==> MIN <= Size(l.sz, x)
  }

  /** Shrinking below the size of a list entry. */
  predicate Tiny(l: Layout, a: int, len: int) {
    len < MIN && Splits(Size(l.sz, a), len)
  }

  /** The calls that leave the heap in order: of blocks that it gave out, no free or move
      of a block that is not freeable, and no realloc that wraps. */
  ghost predicate Legal(l: Layout, end: int, c: Call) {
    match c
    case Malloc(len) => 0 <= len < WORD
    case FreeIt(a) => Live(l, a) && Freeable(l, a)
    case Realloc(a, len) => 0 <= len < WORD && Live(l, a) && !Wraps(l, a, len) && Resizable(l, end, a, len)
    case Write(a, k, _) => Live(l, a) && 0 <= k < Size(l.sz, a)
  }

  ghost predicate Reallocated(l: Layout, end: int, a: int, len: int, l': Layout, r: int) {
    && Live(l, a)
    && if TooLong(a + HDR, len) then l' == l && r == 0 else Resized(l, end, a, len, l', r)
  }

  ghost predicate Does(l: Layout, end: int, e: Event, l': Layout) {
    match e.call
    case Malloc(len) => Placed(l, end, Max(len, MIN), l', e.result)
    case FreeIt(a) => l' == Free(l, a)
    case Realloc(a, len) => Reallocated(l, end, a, len, l', e.result)
    case Write(_, _, _) => l' == l
  }

  lemma MallocRoomy(l: Layout, start: int, end: int, n: int, l': Layout, r: int)
    requires Ok(l, start) && 0 < start && Roomy(l) && MIN <= n && Placed(l, end, n, l', r)
    ensures Ok(l', start) && Roomy(l')
  {
    PlacedMeans(l, start, end, n, l', r, 0, 0);
    forall x | Live(l', x) ensures MIN <= Size(l'.sz, x) {
      PlacedMeans(l, start, end, n, l', r, x, x);
      assert Live(l, x) ==> MIN <= Size(l.sz, x);
    }
  }

  lemma FreeRoomy(l: Layout, start: int, a: int)
    requires Ok(l, start) && Roomy(l) && Live(l, a)
    ensures Ok(Free(l, a), start) && Roomy(Free(l, a))
  {
    assert MIN <= Size(l.sz, a);
    FreeKeeps(l, start, a);
    SameRoomy(l, Free(l, a), {a});
  }

  lemma SameRoomy(l: Layout, l': Layout, gone: set<int>)
    requires Roomy(l) && SameBlocks(l, l', gone)
    ensures Roomy(l')
  {
    forall x | Live(l', x) ensures MIN <= Size(l'.sz, x) {
      assert Live(l, x);
    }
  }

  lemma ResizedSize(l: Layout, start: int, end: int, a: int, len: int, l': Layout, r: int)
    requires Ok(l, start) && 0 < start && Live(l, a) && MIN <= l.sz[a] && 0 <= len && !Tiny(l, a, len)
    requires Resized(l, end, a, len, l', r) && r != 0
    ensures MIN <= Size(l'.sz, r - HDR)
  {
    if len > l.sz[a] {
      GrownRoomy(l, start, end, a, len, l', r);
    } else if Splits(l.sz[a], len) {
      ShrinkMeans(l, start, a, len, a);
    }
  }

  lemma GrownRoomy(l: Layout, start: int, end: int, a: int, len: int, l': Layout, r: int)
    requires Ok(l, start) && 0 < start && Live(l, a) && MIN <= l.sz[a] < len && Resized(l, end, a, len, l', r) && r != 0
    ensures MIN <= Size(l'.sz, r - HDR)
  {
    ResizedMeans(l, start, end, a, len, l', r, a);
  }

  lemma RenewedRoomy(l: Layout, a: int, len: int, l': Layout, b: int, x: int)
    requires Roomy(l) && Renewed(l, a, len, l', b, x) && MIN <= Size(l'.sz, b)
    ensures Live(l', x) ==> MIN <= Size(l'.sz, x)
  {
    assert Live(l, x) ==> MIN <= Size(l.sz, x);
  }

  lemma StillRoomy(l: Layout, start: int, end: int, a: int, len: int, l': Layout, r: int)
    requires Ok(l, start) && 0 < start && Roomy(l) && Live(l, a) && 0 <= len && Resized(l, end, a, len, l', r)
    requires !Tiny(l, a, len) && r != 0
    ensures Roomy(l')
  {
    forall x | Live(l', x) ensures MIN <= Size(l'.sz, x) {
      StillRoomyAt(l, start, end, a, len, l', r, x);
    }
  }

  lemma StillRoomyAt(l: Layout, start: int, end: int, a: int, len: int, l': Layout, r: int, x: int)
    requires Ok(l, start) && 0 < start && Roomy(l) && Live(l, a) && 0 <= len && Resized(l, end, a, len, l', r)
    requires !Tiny(l, a, len) && r != 0
    ensures Live(l', x) ==> MIN <= Size(l'.sz, x)
  {
    ResizedSize(l, start, end, a, len, l', r);
    ResizedMeans(l, start, end, a, len, l', r, x);
    RenewedRoomy(l, a, len, l', r - HDR, x);
  }

  lemma TinyNotRoomy(l: Layout, start: int, end: int, a: int, len: int, l': Layout, r: int)
    requires Ok(l, start) && 0 < start && Live(l, a) && 0 <= len && Resized(l, end, a, len, l', r) && Tiny(l, a, len)
    ensures !Roomy(l') && r != 0
  {
    ShrinkMeans(l, start, a, len, a);
    assert Live(l', a) && Size(l'.sz, a) == len;
  }

  /** realloc keeps every block freeable, unless it shrinks one below a list entry. */
  lemma ResizedRoomy(l: Layout, start: int, end: int, a: int, len: int, l': Layout, r: int)
    requires Ok(l, start) && 0 < start && Roomy(l) && Live(l, a) && 0 <= len && Resized(l, end, a, len, l', r)
    ensures Ok(l', start) && (Roomy(l') <==> !Tiny(l, a, len))
  {
    assert MIN <= Size(l.sz, a);
    RoomyReleases(l, start, end, a, len);
    ResizedMeans(l, start, end, a, len, l', r, a);
    if Tiny(l, a, len) {
      TinyNotRoomy(l, start, end, a, len, l', r);
    } else if r != 0 {
      StillRoomy(l, start, end, a, len, l', r);
    }
  }

  lemma MallocOk(l: Layout, start: int, end: int, n: int, l': Layout, r: int)
    requires Ok(l, start) && 0 < start && MIN <= n && Placed(l, end, n, l', r)
    ensures Ok(l', start)
  {
    PlacedMeans(l, start, end, n, l', r, 0, 0);
  }

  lemma ReallocOk(l: Layout, start: int, end: int, a: int, len: int, l': Layout, r: int)
    requires Ok(l, start) && 0 < start && Reallocated(l, end, a, len, l', r) && 0 <= len && Resizable(l, end, a, len)
    ensures Ok(l', start)
  {
    if !TooLong(a + HDR, len) { ResizedMeans(l, start, end, a, len, l', r, a); }
  }

  lemma StepOk(l: Layout, start: int, end: int, e: Event, l': Layout)
    requires Ok(l, start) && 0 < start && Legal(l, end, e.call) && Does(l, end, e, l')
    ensures Ok(l', start)
  {
    match e.call
    case Malloc(len) => MallocOk(l, start, end, Max(len, MIN), l', e.result);
    case FreeIt(a) => FreeOk(l, start, a);
    case Realloc(a, len) => ReallocOk(l, start, end, a, len, l', e.result);
    case Write(_, _, _) =>
  }

  /** The calls that make a block too small to be freed. */
  predicate Shrivels(l: Layout, c: Call) {
    c.Realloc? && !TooLong(c.a + HDR, c.len) && Tiny(l, c.a, c.len)
  }

  lemma ReallocRoomy(l: Layout, start: int, end: int, a: int, len: int, l': Layout, r: int)
    requires Ok(l, start) && 0 < start && Roomy(l) && Reallocated(l, end, a, len, l', r) && 0 <= len
    ensures Roomy(l') <==> !Shrivels(l, Realloc(a, len))
  {
    if !TooLong(a + HDR, len) { ResizedRoomy(l, start, end, a, len, l', r); }
  }

  /** Where every block can be freed, this stays so exactly if no call shrivels one. */
  lemma StepRoomy(l: Layout, start: int, end: int, e: Event, l': Layout)
    requires Ok(l, start) && 0 < start && Roomy(l) && Legal(l, end, e.call) && Does(l, end, e, l')
    ensures Roomy(l') <==> !Shrivels(l, e.call)
  {
    match e.call
    case Malloc(len) => MallocRoomy(l, start, end, Max(len, MIN), l', e.result);
    case FreeIt(a) => FreeRoomy(l, start, a);
    case Realloc(a, len) => ReallocRoomy(l, start, end, a, len, l', e.result);
    case Write(_, _, _) =>
  }

  /** A run from the empty heap: the layouts before and after each event. */
  ghost predicate Run(start: int, end: int, es: seq<Event>, ls: seq<Layout>) {
    && |ls| == |es| + 1 && ls[0] == Layout(map[], [], start)
    && (forall i :: 0 <= i < |es| ==> Legal(ls[i], end, es[i].call))
    && (forall i {:trigger es[i]} :: 0 <= i < |es| ==> Does(ls[i], end, es[i], ls[i + 1]))
  }

  /** In every state of every run the chunks tile the heap, and the free list is in
      address order with no two free chunks side by side and none at the break. */
  lemma {:induction false} RunKeeps(start: int, end: int, es: seq<Event>, ls: seq<Layout>, i: nat)
    requires Run(start, end, es, ls) && 0 < start && i < |ls|
    ensures Ok(ls[i], start)
  {
    if i > 0 {
      RunKeeps(start, end, es, ls, i - 1);
      StepOk(ls[i - 1], start, end, es[i - 1], ls[i]);
    }
  }

  /** As long as no call shrivels a block, every block can be freed. */
  lemma {:induction false} RunRoomy(start: int, end: int, es: seq<Event>, ls: seq<Layout>, i: nat)
    requires Run(start, end, es, ls) && 0 < start && i < |ls|
    requires forall j :: 0 <= j < i ==> !Shrivels(ls[j], es[j].call)
    ensures Roomy(ls[i])
  {
    if i > 0 {
      RunKeeps(start, end, es, ls, i - 1);
      RunRoomy(start, end, es, ls, i - 1);
      StepRoomy(ls[i - 1], start, end, es[i - 1], ls[i]);
    }
  }

  /** However the blocks were allocated, resized and freed: once none is left, the heap
      is as it was at the start. */
  lemma RunReclaims(start: int, end: int, es: seq<Event>, ls: seq<Layout>)
    requires Run(start, end, es, ls) && 0 < start && forall a :: a in ls[|es|].sz ==> !Live(ls[|es|], a)
    ensures ls[|es|] == ls[0]
  {
    RunKeeps(start, end, es, ls, |es|);
    AllFreed(ls[|es|], start);
  }

  /** Blocks that are live at the same time never overlap, and lie inside the heap. */
  lemma RunBlocksApart(start: int, end: int, es: seq<Event>, ls: seq<Layout>, i: nat, a: int, b: int)
    requires Run(start, end, es, ls) && 0 < start && i < |ls| && Live(ls[i], a) && Live(ls[i], b) && a != b
    ensures End(ls[i].sz, a) <= b || End(ls[i].sz, b) <= a
    ensures start <= a && End(ls[i].sz, a) <= ls[i].brk
  {
    RunKeeps(start, end, es, ls, i);
    BlocksApart(ls[i], start, a, b);
  }

  // ---------------------------------------------------------------- room for the writes of free

  /** The list entry of every block, even of one too small for it, lies inside the heap. */
  ghost predicate Reaches(l: Layout, end: int) {
    l.brk <= end && forall x {:trigger Live(l, x)} :: Live(l, x) ==> x + NODE <= end
  }

  lemma SameReaches(l: Layout, l': Layout, end: int, gone: set<int>)
    requires Reaches(l, end) && SameBlocks(l, l', gone) && l'.brk <= l.brk
    ensures Reaches(l', end)
  {
    forall x | Live(l', x) ensures x + NODE <= end { assert Live(l, x); }
  }

  lemma FreeReaches(l: Layout, start: int, end: int, a: int)
    requires Ok(l, start) && Live(l, a) && Reaches(l, end)
    ensures Reaches(Free(l, a), end)
  {
    JoinedNearly(l, start, a);
    JoinedTopmost(l, start, a);
    TrimBrk(Joined(l, a), start);
    FreeBlocks(l, start, a);
    SameReaches(l, Free(l, a), end, {a});
  }

  lemma PlacedReaches(l: Layout, start: int, end: int, n: int, l': Layout, r: int)
    requires Ok(l, start) && 0 < start && MIN <= n && Placed(l, end, n, l', r) && Reaches(l, end)
    ensures Reaches(l', end)
  {
    PlacedMeans(l, start, end, n, l', r, 0, 0);
    forall x | Live(l', x) ensures x + NODE <= end {
      PlacedMeans(l, start, end, n, l', r, x, x);
      assert Live(l, x) ==> x + NODE <= end;
    }
  }

  lemma CutReaches(l: Layout, start: int, end: int, a: int, len: int)
    requires Ok(l, start) && Live(l, a) && 0 <= len && Splits(l.sz[a], len) && Reaches(l, end)
    ensures Reaches(CutAt(l, a, len), end)
  {
    CutLiveOk(l, start, a, len);
    var l' := CutAt(l, a, len);
    forall x | Live(l', x) ensures x + NODE <= end { assert x != a + HDR + len ==> Live(l, x); }
  }

  lemma GrownReaches(l: Layout, start: int, end: int, a: int, len: int, l': Layout)
    requires Ok(l, start) && 0 < start && Live(l, a) && l.sz[a] < len && Reaches(l, end)
    requires exists i: nat :: Above(l, a, len, i) && End(l.sz, a) in l.sz && l' == GrowInto(l, a, i, len)
    ensures Reaches(l', end)
  {
    var i: nat :| Above(l, a, len, i) && End(l.sz, a) in l.sz && l' == GrowInto(l, a, i, len);
    forall x | Live(l', x) ensures x + NODE <= end {
      GrownMeans(l, start, a, len, i, l', x);
      assert Live(l, x);
    }
  }

  lemma ShrunkReaches(l: Layout, start: int, end: int, a: int, len: int)
    requires Ok(l, start) && Live(l, a) && 0 <= len && Splits(l.sz[a], len) && Reaches(l, end)
    ensures Reaches(Free(CutAt(l, a, len), a + HDR + len), end)
  {
    var b := a + HDR + len;
    CutReaches(l, start, end, a, len);
    CutLiveOk(l, start, a, len);
    var l1 := CutAt(l, a, len);
    FreeReaches(l1, start, end, b);
    assert Reaches(Free(l1, b), end);
  }

  lemma LessReaches(l: Layout, start: int, end: int, a: int, len: int, l': Layout, r: int)
    requires Ok(l, start) && Live(l, a) && 0 <= len <= l.sz[a] && Resized(l, end, a, len, l', r) && Reaches(l, end)
    ensures Reaches(l', end)
  {
    if Splits(l.sz[a], len) { ShrunkReaches(l, start, end, a, len); }
  }

  lemma RaisedReaches(l: Layout, end: int, a: int, len: int)
    requires Live(l, a) && a + HDR + len < end && Reaches(l, end)
    ensures Reaches(GrowBreak(l, a, len), end)
  {
    forall x | Live(GrowBreak(l, a, len), x) ensures x + NODE <= end { assert Live(l, x); }
  }

  lemma ResizedReaches(l: Layout, start: int, end: int, a: int, len: int, l': Layout, r: int)
    requires Ok(l, start) && 0 < start && Live(l, a) && 0 <= len && Resized(l, end, a, len, l', r) && Reaches(l, end)
    ensures Reaches(l', end)
  {
    if len <= l.sz[a] {
      LessReaches(l, start, end, a, len, l', r);
    } else if CanGrow(l, a, len) {
      GrownReaches(l, start, end, a, len, l');
    } else if l.brk == End(l.sz, a) && !Fits(l, len) {
      if a + HDR + len < end { RaisedReaches(l, end, a, len); }
      assert Reaches(l', end);
    } else {
      MovedReaches(l, start, end, a, len, l', r);
    }
  }

  lemma MovedReaches(l: Layout, start: int, end: int, a: int, len: int, l': Layout, r: int)
    requires Ok(l, start) && 0 < start && Live(l, a) && l.sz[a] < len && Moved(l, end, a, len, l', r) && Reaches(l, end)
    ensures Reaches(l', end)
  {
    var l1 :| Placed(l, end, Max(len, MIN), l1, r) && l' == if r == 0 then l else Free(l1, a);
    PlacedReaches(l, start, end, Max(len, MIN), l1, r);
    BothLive(l, start, end, len, l1, r, a);
    PlacedMeans(l, start, end, Max(len, MIN), l1, r, a, a);
    if r != 0 { FreeReaches(l1, start, end, a); }
  }

  lemma StepReaches(l: Layout, start: int, end: int, e: Event, l': Layout)
    requires Ok(l, start) && 0 < start && Reaches(l, end) && Legal(l, end, e.call) && Does(l, end, e, l')
    ensures Reaches(l', end)
  {
    match e.call
    case Malloc(len) => PlacedReaches(l, start, end, Max(len, MIN), l', e.result);
    case FreeIt(a) => FreeReaches(l, start, end, a);
    case Realloc(a, len) => if !TooLong(a + HDR, len) { ResizedReaches(l, start, end, a, len, l', e.result); }
    case Write(_, _, _) =>
  }

  /** In every state of every run free would write inside the heap only. */
  lemma {:induction false} RunReaches(start: int, end: int, es: seq<Event>, ls: seq<Layout>, i: nat)
    requires Run(start, end, es, ls) && 0 < start <= end && i < |ls|
    ensures Reaches(ls[i], end)
  {
    if i > 0 {
      RunKeeps(start, end, es, ls, i - 1);
      RunReaches(start, end, es, ls, i - 1);
      StepReaches(ls[i - 1], start, end, es[i - 1], ls[i]);
    }
  }
}
