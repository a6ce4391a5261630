/** Short sequences of calls after which the allocator has lost track of a block. */
module HeapFailures {
  import opened HeapLayout
  import opened HeapOps
  import opened HeapMemory
  import opened HeapFree
  import opened HeapResize
  import opened HeapRuns
  import opened HeapAllocator

  /** malloc(2), then realloc of the block, which is the topmost, to 0xfffe bytes or more:
      it succeeds, and afterwards no layout has the block. */
  method WrapLosesBlock(start: int, end: int, len: int) returns (h: Heap, p: int, r: int)
    requires 0 < start && start + 4 <= end < WORD && end - start < 0xfffe && WORD - HDR <= len < WORD
    ensures p != 0 && r == p && Lost(h.mem[..], h.flp, h.start, p - HDR)
  {
    h := new Heap(start, end);
    p := h.Malloc(2);
    assert h.lay == Extend(Layout(map[], [], start), 2);
    r := h.Realloc(p, len);
  }

  function Empty(start: int): Layout {
    Layout(map[], [], start)
  }

  /** One block of n bytes. */
  function OneBlock(start: int, n: int): Layout {
    Layout(map[start := n], [], start + HDR + n)
  }

  /** Appending an event to a run. */
  lemma RunMore(start: int, end: int, es: seq<Event>, ls: seq<Layout>, e: Event, l: Layout)
    requires Run(start, end, es, ls) && Legal(ls[|es|], end, e.call) && Does(ls[|es|], end, e, l)
    ensures Run(start, end, es + [e], ls + [l])
  {
    var es', ls' := es + [e], ls + [l];
    forall i | 0 <= i < |es'| ensures Goes(ls'[i], end, es'[i], ls'[i + 1]) {
      if i < |es| {
        RunGoes(start, end, es, ls, i);
        assert es'[i] == es[i] && ls'[i] == ls[i] && ls'[i + 1] == ls[i + 1];
      } else {
        StepGoes(ls[|es|], end, e, l);
        assert es'[i] == e && ls'[i] == ls[|es|] && ls'[i + 1] == l;
      }
    }
    AllGo(start, end, es', ls');
  }

  ghost predicate Goes(l: Layout, end: int, e: Event, l': Layout) {
    forall u {:trigger Looked(u)} :: Looked(u) ==> Legal(l, end, e.call) && Does(l, end, e, l')
  }

  lemma StepGoes(l: Layout, end: int, e: Event, l': Layout)
    requires Legal(l, end, e.call) && Does(l, end, e, l')
    ensures Goes(l, end, e, l')
  {
  }

  lemma RunGoes(start: int, end: int, es: seq<Event>, ls: seq<Layout>, i: nat)
    requires Run(start, end, es, ls) && i < |es|
    ensures Goes(ls[i], end, es[i], ls[i + 1])
  {
    StepGoes(ls[i], end, es[i], ls[i + 1]);
  }

  lemma AllGo(start: int, end: int, es: seq<Event>, ls: seq<Layout>)
    requires |ls| == |es| + 1 && ls[0] == Layout(map[], [], start)
    requires forall i {:trigger es[i]} :: 0 <= i < |es| ==> Goes(ls[i], end, es[i], ls[i + 1])
    ensures Run(start, end, es, ls)
  {
    assert Looked(0);
  }

  /** The run that leads to the wrapping request. */
  lemma WrapIsNear(start: int, end: int) returns (es: seq<Event>, ls: seq<Layout>)
    requires 0 < start && start + 4 <= end
    ensures Run(start, end, es, ls) && Live(ls[|es|], start) && Wraps(ls[|es|], start, 0xfffe)
  {
    es, ls := [Event(Malloc(2), start + HDR)], [Empty(start), OneBlock(start, 2)];
    assert Extend(Empty(start), 2) == OneBlock(start, 2);
  }

  /** Blocks of 8 and of 2 bytes. */
  function TwoBlocks(start: int): Layout {
    Layout(map[start := 8, start + 10 := 2], [], start + 14)
  }

  /** The first one shrunk to nothing, with the rest of it free. */
  function Shriveled(start: int): Layout {
    Layout(map[start := 0, start + 2 := 6, start + 10 := 2], [start + 2], start + 14)
  }

  lemma ShrinkToNothing(start: int, end: int)
    ensures Resized(TwoBlocks(start), end, start, 0, Shriveled(start), start + HDR)
  {
    var l := CutAt(TwoBlocks(start), start, 0);
    assert l == Layout(map[start := 0, start + 2 := 6, start + 10 := 2], [], start + 14);
    assert Insert(l, start + 2).fl == [start + 2];
    assert Insert(l, start + 2) == Shriveled(start);
  }

  /** malloc(8), malloc(2), and realloc of the first block to nothing. */
  lemma ShrivelRun(start: int, end: int) returns (es: seq<Event>, ls: seq<Layout>)
    requires 0 < start && start + 14 <= end < WORD
    ensures Run(start, end, es, ls) && ls[|es|] == Shriveled(start)
  {
    es, ls := [Event(Malloc(8), start + HDR)], [Empty(start), OneBlock(start, 8)];
    assert Extend(Empty(start), 8) == OneBlock(start, 8);
    assert Extend(OneBlock(start, 8), 2) == TwoBlocks(start);
    RunMore(start, end, es, ls, Event(Malloc(2), start + 12), TwoBlocks(start));
    es, ls := es + [Event(Malloc(2), start + 12)], ls + [TwoBlocks(start)];
    ShrinkToNothing(start, end);
    RunMore(start, end, es, ls, Event(Realloc(start, 0), start + HDR), Shriveled(start));
    es, ls := es + [Event(Realloc(start, 0), start + HDR)], ls + [Shriveled(start)];
  }

  lemma ShriveledHarms(start: int)
    requires 0 < start
    ensures var l := Shriveled(start); Live(l, start) && Size(l.sz, start) == 0 && (Harms(l, start) <==> start != 4)
    ensures Freeable(Shriveled(start), start) <==> start == 4
  {
    var l := Shriveled(start);
    assert l.fl[0] == start + 2 && Successor(l, start) == start + 2 && End(l.sz, start) in l.fl;
  }

  /** Then free of the first block destroys the size of the free chunk behind it, unless
      that happens to be its address. */
  lemma ShrivelHappens(start: int, end: int) returns (es: seq<Event>, ls: seq<Layout>)
    requires 0 < start && start + 14 <= end < WORD
    ensures Run(start, end, es, ls)
    ensures var l := ls[|es|]; Live(l, start) && !Roomy(l) && (Harms(l, start) <==> start != 4) && (Freeable(l, start) <==> start == 4)
  {
    es, ls := ShrivelRun(start, end);
    ShriveledHarms(start);
  }

  method Shrivel(start: int, end: int) returns (h: Heap, p: int)
    requires 0 < start && start + 14 <= end < WORD && end - start < 0xfffe
    ensures h.Valid() && h.lay == Shriveled(start) && h.end == end && p == start + HDR && fresh(h) && fresh(h.mem)
  {
    h := new Heap(start, end);
    p := h.Malloc(8);
    assert h.lay == Extend(Empty(start), 8) == OneBlock(start, 8);
    var q := h.Malloc(2);
    assert h.lay == Extend(OneBlock(start, 8), 2) == TwoBlocks(start);
    ShrinkToNothing(start, end);
    var r := h.Realloc(p, 0);
  }

  /** The same on the allocator's bytes: afterwards a size field is wrong. */
  method ShrivelLoses(start: int, end: int) returns (h: Heap, p: int)
    requires 0 < start && start + 14 <= end < WORD && end - start < 0xfffe && start != 4
    ensures !h.Valid() && !Headers(h.mem[..], h.lay.sz)
  {
    h, p := Shrivel(start, end);
    ShriveledHarms(start);
    h.Free(p);
  }

  /** The rest of the first block given away again. */
  function Refilled(start: int): Layout {
    Layout(map[start := 0, start + 2 := 6, start + 10 := 2], [], start + 14)
  }

  /** That block shrunk to nothing as well. */
  function TwoShriveled(start: int): Layout {
    Layout(map[start := 0, start + 2 := 0, start + 4 := 4, start + 10 := 2], [start + 4], start + 14)
  }

  /** And its rest given away. */
  function AllTaken(start: int): Layout {
    Layout(map[start := 0, start + 2 := 0, start + 4 := 4, start + 10 := 2], [], start + 14)
  }

  lemma TakeWhole(l: Layout, end: int, n: int, a: int)
    requires l.fl == [a] && a in l.sz && l.sz[a] == n
    ensures Placed(l, end, n, l.(fl := []), a + HDR)
  {
    assert BestFit(l, n, 0);
    assert Without(l.fl, 0) == [];
    assert Serves(l, 0, n, l.(fl := []), a + HDR);
  }

  lemma ShrinkAgain(start: int, end: int)
    ensures Resized(Refilled(start), end, start + 2, 0, TwoShriveled(start), start + 4)
  {
    var l := CutAt(Refilled(start), start + 2, 0);
    assert l == AllTaken(start);
    assert Insert(l, start + 4).fl == [start + 4];
    assert Insert(l, start + 4) == TwoShriveled(start);
  }

  /** A run after which free of the first block does no harm, but puts a chunk of no bytes
      on the list: its `nx` field is the size field of the next block. */
  lemma ShortEntryHappens(start: int, end: int) returns (es: seq<Event>, ls: seq<Layout>)
    requires 0 < start && start + 14 <= end < WORD
    ensures Run(start, end, es, ls)
    ensures var l := ls[|es|]; Live(l, start) && !Harms(l, start) && !Settles(l, start)
  {
    es, ls := ShrivelRun(start, end);
    TakeWhole(Shriveled(start), end, 6, start + 2);
    RunMore(start, end, es, ls, Event(Malloc(6), start + 4), Refilled(start));
    es, ls := es + [Event(Malloc(6), start + 4)], ls + [Refilled(start)];
    ShrinkAgain(start, end);
    RunMore(start, end, es, ls, Event(Realloc(start + 2, 0), start + 4), TwoShriveled(start));
    es, ls := es + [Event(Realloc(start + 2, 0), start + 4)], ls + [TwoShriveled(start)];
    TakeWhole(TwoShriveled(start), end, 4, start + 4);
    RunMore(start, end, es, ls, Event(Malloc(4), start + 6), AllTaken(start));
    es, ls := es + [Event(Malloc(4), start + 6)], ls + [AllTaken(start)];
    var l := AllTaken(start);
    assert Live(l, start) && Size(l.sz, start) == 0 && End(l.sz, start) == start + 2 && Successor(l, start) == 0;
  }
}
