/** The allocator object through whole runs, and what the owners of the blocks see. */
module HeapDriver {
  import opened HeapLayout
  import opened HeapOps
  import opened HeapMemory
  import opened HeapWrites
  import opened HeapFree
  import opened HeapResize
  import opened HeapRuns
  import opened HeapBlocks
  import opened HeapAllocator

  // ---------------------------------------------------------------- the owners' view

  /** The blocks with their contents. */
  type Blocks = map<int, Memory>

  function Payload(l: Layout, m: Memory, a: int): Memory {
    if 0 <= a + HDR <= End(l.sz, a) <= |m| then m[a + HDR..End(l.sz, a)] else []
  }

  ghost function View(l: Layout, m: Memory): Blocks {
    map a | a in l.sz && a !in l.fl :: Payload(l, m, a)
  }

  /** A call as the owners of blocks see it. Blocks that the call does not name keep
      their place and every byte. */
  ghost predicate Seen(v: Blocks, e: Event, v': Blocks) {
    match e.call
    case Malloc(len) =>
      if e.result == 0 then v' == v
      else var b := e.result - HDR; b !in v && b in v' && Snug(Max(len, MIN), |v'[b]|) && v' - {b} == v
    case FreeIt(a) => v' == v - {a}
    case Realloc(a, len) =>
      if e.result == 0 then v' == v
      else
        var b := e.result - HDR;
        && a in v && b in v' && len <= |v'[b]| && Trimmed(len, |v[a]|, |v'[b]|, b != a)
        && v' - {b} == v - {a} && (b != a ==> b !in v)
        && (forall k :: 0 <= k < len && k < |v[a]| ==> v'[b][k] == v[a][k])
    case Write(a, k, x) => a in v && 0 <= k < |v[a]| && v' == v[a := v[a][k := x]]
  }

  lemma PayloadAt(l: Layout, m: Memory, start: int, a: int)
    requires Ok(l, start) && 0 < start && l.brk <= |m| && Live(l, a)
    ensures Payload(l, m, a) == m[a + HDR..End(l.sz, a)] && |Payload(l, m, a)| == l.sz[a]
  {
  }

  /** A block that keeps its size and whose bytes stay has the same contents. */
  lemma SamePayload(l: Layout, m: Memory, l': Layout, m': Memory, start: int, a: int)
    requires Ok(l, start) && Ok(l', start) && 0 < start && l.brk <= |m| && l'.brk <= |m'| && |m'| == |m|
    requires Live(l, a) && Live(l', a) && l'.sz[a] == l.sz[a]
    requires forall y :: a + HDR <= y < End(l.sz, a) && 0 <= y < |m| ==> m'[y] == m[y]
    ensures Payload(l', m', a) == Payload(l, m, a)
  {
    PayloadAt(l, m, start, a);
    PayloadAt(l', m', start, a);
    assert m'[a + HDR..End(l.sz, a)] == m[a + HDR..End(l.sz, a)];
  }

  /** Both layouts are in order and inside the memory. */
  ghost predicate Inside(l: Layout, m: Memory, start: int) {
    Ok(l, start) && 0 < start && l.brk <= |m|
  }

  lemma ViewBut(l: Layout, m: Memory, l': Layout, m': Memory, start: int, a: int, b: int)
    requires Inside(l, m, start) && Inside(l', m', start) && SameBut(l, l', a, b) && UntouchedBut(l, a, m, m')
    ensures View(l', m') - {b} == View(l, m) - {a}
  {
    var v, v' := View(l, m), View(l', m');
    forall x | x != b ensures SameAt(v, v', a, x) { ViewAt(l, m, l', m', start, a, b, x); }
    assert b in v ==> a == b;
    MapsBut(v, v', a, b);
  }

  ghost predicate SameAt(v: Blocks, v': Blocks, a: int, x: int) {
    (x in v' <==> x in v && x != a) && (x in v' && x in v ==> v[x] == v'[x])
  }

  lemma ViewAt(l: Layout, m: Memory, l': Layout, m': Memory, start: int, a: int, b: int, x: int)
    requires Inside(l, m, start) && Inside(l', m', start) && SameBut(l, l', a, b) && UntouchedBut(l, a, m, m') && x != b
    ensures SameAt(View(l, m), View(l', m'), a, x)
  {
    assert Live(l', x) <==> Live(l, x) && x != a;
    if Live(l', x) { SamePayload(l, m, l', m', start, x); }
  }

  lemma MapsBut(v: Blocks, v': Blocks, a: int, b: int)
    requires (b in v ==> a == b) && forall x :: x != b ==> SameAt(v, v', a, x)
    ensures v' - {b} == v - {a}
  {
    var w, w' := v - {a}, v' - {b};
    forall x ensures x in w' <==> x in w { assert x != b ==> SameAt(v, v', a, x); }
    forall x | x in w' ensures w'[x] == w[x] { assert SameAt(v, v', a, x); }
    assert w' == w;
  }

  // ---------------------------------------------------------------- each call

  lemma MallocBut(l: Layout, start: int, end: int, n: int, l': Layout, r: int)
    requires Ok(l, start) && 0 < start && MIN <= n && Placed(l, end, n, l', r) && r != 0
    ensures SameBut(l, l', r - HDR, r - HDR) && Live(l', r - HDR) && !Live(l, r - HDR) && Snug(n, Size(l'.sz, r - HDR))
  {
    var b := r - HDR;
    PlacedSnug(l, start, end, n, l', r);
    PlacedMeans(l, start, end, n, l', r, b, b);
    forall x | x != b ensures (Live(l', x) <==> Live(l, x) && x != b) && (Live(l', x) ==> Size(l'.sz, x) == Size(l.sz, x)) {
      PlacedMeans(l, start, end, n, l', r, b, x);
    }
  }

  lemma MallocSeen(l: Layout, m: Memory, l': Layout, m': Memory, start: int, len: int, r: int, b: int)
    requires Inside(l, m, start) && Inside(l', m', start) && Untouched(l, m, m') && b == r - HDR && r != 0
    requires SameBut(l, l', b, b) && Live(l', b) && !Live(l, b) && Snug(Max(len, MIN), Size(l'.sz, b))
    ensures Seen(View(l, m), Event(Malloc(len), r), View(l', m'))
  {
    ViewBut(l, m, l', m', start, b, b);
    PayloadAt(l', m', start, b);
    assert View(l, m) - {b} == View(l, m);
  }

  lemma FreeBut(l: Layout, start: int, a: int)
    requires Ok(l, start) && Live(l, a) && Settles(l, a)
    ensures Ok(Free(l, a), start) && SameBut(l, Free(l, a), a, a) && !Live(Free(l, a), a)
  {
    FreeKeeps(l, start, a);
    SameBlocksBut(l, Free(l, a), a);
  }

  lemma SameBlocksBut(l: Layout, l': Layout, a: int)
    requires SameBlocks(l, l', {a})
    ensures SameBut(l, l', a, a) && !Live(l', a)
  {
    assert Live(l', a) <==> Live(l, a) && a !in {a};
  }

  lemma FreeSeen(l: Layout, m: Memory, l': Layout, m': Memory, start: int, a: int, r: int)
    requires Inside(l, m, start) && Inside(l', m', start) && UntouchedBut(l, a, m, m') && SameBut(l, l', a, a) && !Live(l', a)
    ensures Seen(View(l, m), Event(FreeIt(a), r), View(l', m'))
  {
    ViewBut(l, m, l', m', start, a, a);
    assert View(l', m') - {a} == View(l', m');
  }

  lemma ReallocBut(l: Layout, start: int, end: int, a: int, len: int, l': Layout, r: int)
    requires Ok(l, start) && 0 < start && Live(l, a) && 0 <= len && Resized(l, end, a, len, l', r) && r != 0
    ensures SameBut(l, l', a, r - HDR) && Live(l', r - HDR) && len <= Size(l'.sz, r - HDR)
    ensures Trimmed(len, l.sz[a], Size(l'.sz, r - HDR), r - HDR != a)
  {
    var b := r - HDR;
    ResizedMeans(l, start, end, a, len, l', r, a);
    forall x | x != b ensures (Live(l', x) <==> Live(l, x) && x != a) && (Live(l', x) ==> Size(l'.sz, x) == Size(l.sz, x)) {
      ResizedMeans(l, start, end, a, len, l', r, x);
    }
  }

  /** realloc turns exactly the bytes of the old block into free bytes and uses exactly those
      of the resulting one; the rest of a free chunk into which the block grows stays free. */
  lemma ReallocUses(l: Layout, start: int, end: int, a: int, len: int, l': Layout, r: int, x: int)
    requires Ok(l, start) && 0 < start && Live(l, a) && 0 <= len && Resized(l, end, a, len, l', r) && r != 0 && Resizable(l, end, a, len)
    ensures Unused(l', x) <==> (Unused(l, x) || Within(l, a, x)) && !Within(l', r - HDR, x)
  {
    ResizedMeans(l, start, end, a, len, l', r, a);
    ReallocBut(l, start, end, a, len, l', r);
    UnusedExactly(l, l', start, a, r - HDR, x);
  }

  lemma ReallocSeen(l: Layout, m: Memory, l': Layout, m': Memory, start: int, a: int, len: int, r: int, b: int)
    requires Inside(l, m, start) && Inside(l', m', start) && Live(l, a) && Copied(l, a, len, m, m', r) && b == r - HDR && r != 0
    requires SameBut(l, l', a, b) && Live(l', b) && len <= Size(l'.sz, b) && Trimmed(len, l.sz[a], Size(l'.sz, b), b != a)
    ensures Seen(View(l, m), Event(Realloc(a, len), r), View(l', m'))
  {
    ViewBut(l, m, l', m', start, a, b);
    PayloadAt(l, m, start, a);
    PayloadAt(l', m', start, b);
    var v, v' := View(l, m), View(l', m');
    forall k | 0 <= k < len && k < |v[a]| ensures v'[b][k] == v[a][k] {
      assert Carried(m, a + HDR, m', r, k);
    }
  }

  lemma WriteSeen(l: Layout, m: Memory, m': Memory, start: int, a: int, k: int, x: byte, r: int)
    requires Inside(l, m, start) && Live(l, a) && 0 <= k < l.sz[a] && a + HDR + k < |m| && m' == m[a + HDR + k := x]
    ensures Seen(View(l, m), Event(Write(a, k, x), r), View(l, m'))
  {
    WriteAside(l, m, m', start, a, k, x);
    ViewBut(l, m, l, m', start, a, a);
    PayloadAt(l, m, start, a);
    PayloadAt(l, m', start, a);
    PutOne(View(l, m), View(l, m'), a, k, x);
  }

  lemma WriteAside(l: Layout, m: Memory, m': Memory, start: int, a: int, k: int, x: byte)
    requires Inside(l, m, start) && Live(l, a) && 0 <= k < l.sz[a] && a + HDR + k < |m| && m' == m[a + HDR + k := x]
    ensures UntouchedBut(l, a, m, m')
  {
    forall y, z | Live(l, y) && y != a && y + HDR <= z < End(l.sz, y) && 0 <= z < |m| ensures m'[z] == m[z] {
      assert y < a || a < y;
    }
  }

  lemma PutOne(v: Blocks, v': Blocks, a: int, k: int, x: byte)
    requires v' - {a} == v - {a} && a in v && a in v' && 0 <= k < |v[a]| && v'[a] == v[a][k := x]
    ensures v' == v[a := v[a][k := x]]
  {
    forall b ensures b in v' <==> b in v { assert b in v' - {a} <==> b in v - {a}; }
    forall b | b in v' && b != a ensures v'[b] == v[b] { assert (v' - {a})[b] == (v - {a})[b]; }
  }

  lemma MallocStep(l: Layout, m: Memory, l': Layout, m': Memory, start: int, end: int, len: int, r: int)
    requires Inside(l, m, start) && Inside(l', m', start) && Untouched(l, m, m') && (r == 0 ==> m' == m)
    requires Placed(l, end, Max(len, MIN), l', r)
    ensures Seen(View(l, m), Event(Malloc(len), r), View(l', m'))
  {
    if r != 0 {
      MallocBut(l, start, end, Max(len, MIN), l', r);
      MallocSeen(l, m, l', m', start, len, r, r - HDR);
    } else {
      PlacedBlocks(l, start, end, Max(len, MIN), l', r, 0);
    }
  }

  lemma ReallocStep(l: Layout, m: Memory, l': Layout, m': Memory, start: int, end: int, a: int, len: int, r: int)
    requires Inside(l, m, start) && Inside(l', m', start) && Live(l, a) && 0 <= len
    requires Copied(l, a, len, m, m', r) && Resized(l, end, a, len, l', r)
    ensures Seen(View(l, m), Event(Realloc(a, len), r), View(l', m'))
  {
    if r != 0 {
      ReallocBut(l, start, end, a, len, l', r);
      ReallocSeen(l, m, l', m', start, a, len, r, r - HDR);
    } else {
      ResizedMeans(l, start, end, a, len, l', r, a);
    }
  }

  // ---------------------------------------------------------------- the object

  method DoMalloc(h: Heap, len: int) returns (r: int)
    requires h.Valid() && Legal(h.lay, h.end, Malloc(len))
    modifies h, h.mem
    ensures h.Valid() && Does(old(h.lay), h.end, Event(Malloc(len), r), h.lay)
    ensures Seen(View(old(h.lay), old(h.mem[..])), Event(Malloc(len), r), View(h.lay, h.mem[..]))
  {
    ghost var l, m := h.lay, h.mem[..];
    r := h.Malloc(len);
    MallocStep(l, m, h.lay, h.mem[..], h.start, h.end, len, r);
  }

  method DoFree(h: Heap, a: int) returns (r: int)
    requires h.Valid() && Legal(h.lay, h.end, FreeIt(a)) && a + NODE <= h.end
    modifies h, h.mem
    ensures h.Valid() && Does(old(h.lay), h.end, Event(FreeIt(a), r), h.lay)
    ensures Seen(View(old(h.lay), old(h.mem[..])), Event(FreeIt(a), r), View(h.lay, h.mem[..]))
  {
    ghost var l, m := h.lay, h.mem[..];
    FreeBut(l, h.start, a);
    h.FreeBlock(a);
    FreeSeen(l, m, h.lay, h.mem[..], h.start, a, 0);
    r := 0;
  }

  method DoRealloc(h: Heap, a: int, len: int) returns (r: int)
    requires h.Valid() && Legal(h.lay, h.end, Realloc(a, len)) && a + NODE <= h.end
    modifies h, h.mem
    ensures h.Valid() && Does(old(h.lay), h.end, Event(Realloc(a, len), r), h.lay)
    ensures Seen(View(old(h.lay), old(h.mem[..])), Event(Realloc(a, len), r), View(h.lay, h.mem[..]))
  {
    ghost var l, m := h.lay, h.mem[..];
    r := h.Resize(a, a + HDR, len);
    if !TooLong(a + HDR, len) { ReallocStep(l, m, h.lay, h.mem[..], h.start, h.end, a, len, r); }
  }

  /** The owner of block a stores to byte k of it. */
  method DoWrite(h: Heap, a: int, k: int, v: byte) returns (r: int)
    requires h.Valid() && Legal(h.lay, h.end, Write(a, k, v))
    modifies h.mem
    ensures h.Valid() && Does(h.lay, h.end, Event(Write(a, k, v), r), h.lay)
    ensures Seen(View(h.lay, old(h.mem[..])), Event(Write(a, k, v), r), View(h.lay, h.mem[..]))
  {
    ghost var m := h.mem[..];
    BlockFacts(m, h.flp, h.lay, h.start, a);
    h.mem[a + HDR + k] := v;
    PayloadWrite(m, h.mem[..], h.flp, h.lay, h.start, a, a + HDR, End(h.lay.sz, a));
    WriteSeen(h.lay, m, h.mem[..], h.start, a, k, v, 0);
    r := 0;
  }

  method Do(h: Heap, c: Call) returns (r: int)
    requires h.Valid() && Reaches(h.lay, h.end) && Legal(h.lay, h.end, c)
    modifies h, h.mem
    ensures h.Valid() && Does(old(h.lay), h.end, Event(c, r), h.lay)
    ensures Seen(View(old(h.lay), old(h.mem[..])), Event(c, r), View(h.lay, h.mem[..]))
  {
    match c {
      case Malloc(len) => r := DoMalloc(h, len);
      case FreeIt(a) => r := DoFree(h, a);
      case Realloc(a, len) => r := DoRealloc(h, a, len);
      case Write(a, k, v) => r := DoWrite(h, a, k, v);
    }
  }

  // ---------------------------------------------------------------- whole runs

  lemma ResizedDetermined(l: Layout, start: int, end: int, a: int, len: int, l1: Layout, r1: int, l2: Layout, r2: int)
    requires Ok(l, start) && Live(l, a) && Resized(l, end, a, len, l1, r1) && Resized(l, end, a, len, l2, r2)
    ensures l1 == l2 && r1 == r2
  {
    if len > l.sz[a] {
      if CanGrow(l, a, len) {
        var i: nat :| Above(l, a, len, i) && End(l.sz, a) in l.sz && l1 == GrowInto(l, a, i, len);
        var j: nat :| Above(l, a, len, j) && End(l.sz, a) in l.sz && l2 == GrowInto(l, a, j, len);
        assert !(i < j) && !(j < i);
      } else if !(l.brk == End(l.sz, a) && !Fits(l, len)) {
        MovedDetermined(l, end, a, len, l1, r1, l2, r2);
      }
    }
  }

  lemma MovedDetermined(l: Layout, end: int, a: int, len: int, l1: Layout, r1: int, l2: Layout, r2: int)
    requires Moved(l, end, a, len, l1, r1) && Moved(l, end, a, len, l2, r2)
    ensures l1 == l2 && r1 == r2
  {
    var p :| Placed(l, end, Max(len, MIN), p, r1) && l1 == if r1 == 0 then l else Free(p, a);
    var q :| Placed(l, end, Max(len, MIN), q, r2) && l2 == if r2 == 0 then l else Free(q, a);
    PlacedDetermined(l, end, Max(len, MIN), p, r1, q, r2);
  }

  /** The two calls whose result matters. */
  predicate Answers(c: Call) {
    c.Malloc? || c.Realloc?
  }

  /** A call leads to one layout and gives one answer. */
  lemma DoesDetermined(l: Layout, start: int, end: int, c: Call, r1: int, l1: Layout, r2: int, l2: Layout)
    requires Ok(l, start) && Does(l, end, Event(c, r1), l1) && Does(l, end, Event(c, r2), l2)
    ensures l1 == l2 && (Answers(c) ==> r1 == r2)
  {
    match c
    case Malloc(len) => PlacedDetermined(l, end, Max(len, MIN), l1, r1, l2, r2);
    case Realloc(a, len) =>
      if !TooLong(a + HDR, len) { ResizedDetermined(l, start, end, a, len, l1, r1, l2, r2); }
    case _ =>
  }

  /** The bytes after each event of a run: they describe the run's layout, and each event
      shows the owners of blocks what it promises. */
  ghost predicate Watched(start: int, es: seq<Event>, ls: seq<Layout>, ms: seq<Memory>) {
    && |ms| == |es| + 1 == |ls|
    && (forall i {:trigger ms[i]} :: 0 <= i < |ms| ==> Good(ms[i], Link(ls[i].fl, 0), ls[i], start))
    && (forall i {:trigger SeenAt(es, ls, ms, i)} :: SeenAt(es, ls, ms, i))
  }

  ghost predicate SeenAt(es: seq<Event>, ls: seq<Layout>, ms: seq<Memory>, i: int) {
    0 <= i < |es| && |ms| == |es| + 1 == |ls| ==> Seen(View(ls[i], ms[i]), es[i], View(ls[i + 1], ms[i + 1]))
  }

  lemma WatchedStart(start: int, es: seq<Event>, ls: seq<Layout>, m: Memory, ms: seq<Memory>)
    requires es == [] && |ls| == 1 && ls[0].fl == [] && Good(m, 0, ls[0], start) && ms == [m]
    ensures Watched(start, es, ls, ms)
  {
  }

  lemma WatchedMore(start: int, es: seq<Event>, ls: seq<Layout>, ms: seq<Memory>, n: nat, m: Memory)
    requires n == |es| - 1 && |ls| == |es| + 1 && Watched(start, es[..n], ls[..n + 1], ms)
    requires Seen(View(ls[n], ms[n]), es[n], View(ls[n + 1], m)) && Good(m, Link(ls[n + 1].fl, 0), ls[n + 1], start)
    ensures Watched(start, es, ls, ms + [m])
  {
    var ms' := ms + [m];
    forall i ensures SeenAt(es, ls, ms', i) {
      if 0 <= i < n {
        assert SeenAt(es[..n], ls[..n + 1], ms, i);
        assert es[..n][i] == es[i] && ls[..n + 1][i] == ls[i] && ls[..n + 1][i + 1] == ls[i + 1];
      }
    }
    forall i | 0 <= i < |ms'| ensures Good(ms'[i], Link(ls[i].fl, 0), ls[i], start) {
      if i <= n { assert ms'[i] == ms[i] && ls[..n + 1][i] == ls[i]; }
    }
  }

  lemma RunBefore(start: int, end: int, es: seq<Event>, ls: seq<Layout>, n: nat)
    requires Run(start, end, es, ls) && n == |es| - 1
    ensures Run(start, end, es[..n], ls[..n + 1]) && ls[..n + 1][n] == ls[n]
    ensures Legal(ls[n], end, es[n].call) && Does(ls[n], end, es[n], ls[n + 1])
  {
    var es', ls' := es[..n], ls[..n + 1];
    forall i | 0 <= i < |es'| ensures Legal(ls'[i], end, es'[i].call) && Does(ls'[i], end, es'[i], ls'[i + 1]) {
      assert es'[i] == es[i];
    }
  }

  /** The last event of a run, on an object that has come through the ones before. */
  method Advance(h: Heap, e: Event, ghost l: Layout, ghost l': Layout)
    requires h.Valid() && h.lay == l && Reaches(l, h.end) && Legal(l, h.end, e.call) && Does(l, h.end, e, l')
    modifies h, h.mem
    ensures h.Valid() && h.lay == l' && Seen(View(l, old(h.mem[..])), e, View(l', h.mem[..]))
  {
    ghost var m := h.mem[..];
    var r := Do(h, e.call);
    DoesDetermined(l, h.start, h.end, e.call, r, h.lay, e.result, l');
    SeenResult(View(l, m), e, r, View(l', h.mem[..]));
  }

  lemma SeenResult(v: Blocks, e: Event, r: int, v': Blocks)
    requires Seen(v, Event(e.call, r), v') && (Answers(e.call) ==> r == e.result)
    ensures Seen(v, e, v')
  {
    if Answers(e.call) { assert Event(e.call, r) == e; }
  }

  /** The object goes through every run: its layout is the run's, and ms are its bytes
      after each event. */
  method RunAll(start: int, end: int, es: seq<Event>, ghost ls: seq<Layout>) returns (h: Heap, ghost ms: seq<Memory>)
    requires 0 < start <= end < WORD && end - start < 0xfffe && Run(start, end, es, ls)
    ensures h.Valid() && h.start == start && h.end == end && fresh(h) && fresh(h.mem)
    ensures h.lay == ls[|es|] && Watched(start, es, ls, ms) && ms[|es|] == h.mem[..]
    decreases |es|
  {
    if es == [] {
      h := new Heap(start, end);
      ms := [h.mem[..]];
      WatchedStart(start, es, ls, h.mem[..], ms);
    } else {
      ghost var n := |es| - 1;
      RunBefore(start, end, es, ls, n);
      h, ms := RunAll(start, end, es[..|es| - 1], ls[..n + 1]);
      RunReaches(start, end, es, ls, n);
      ms := AdvanceRun(h, es, |es| - 1, ls, ms);
    }
  }

  method AdvanceRun(h: Heap, es: seq<Event>, n: nat, ghost ls: seq<Layout>, ghost ms: seq<Memory>) returns (ghost ms': seq<Memory>)
    requires n == |es| - 1 && |ls| == |es| + 1 && h.Valid() && h.lay == ls[n] && Reaches(ls[n], h.end)
    requires Legal(ls[n], h.end, es[n].call) && Does(ls[n], h.end, es[n], ls[n + 1])
    requires Watched(h.start, es[..n], ls[..n + 1], ms) && ms[n] == h.mem[..]
    modifies h, h.mem
    ensures h.Valid() && h.lay == ls[n + 1] && Watched(h.start, es, ls, ms') && ms'[|es|] == h.mem[..]
  {
    Advance(h, es[n], ls[n], ls[n + 1]);
    WatchedMore(h.start, es, ls, ms, n, h.mem[..]);
    ms' := ms + [h.mem[..]];
  }

  // ---------------------------------------------------------------- contents over a run

  /** The stores to block a among the events, applied to its contents s. */
  function Stored(es: seq<Event>, a: int, s: Memory): Memory
    decreases |es|
  {
    if es == [] then s
    else
      var e, t := es[|es| - 1].call, Stored(es[..|es| - 1], a, s);
      if e.Write? && e.a == a && 0 <= e.k < |t| then t[e.k := e.v] else t
  }

  /** Over any stretch of any run in which a block is neither freed nor resized, it stays
      live, and its contents change by its owner's stores and nothing else. */
  lemma ContentsKept(start: int, es: seq<Event>, ls: seq<Layout>, ms: seq<Memory>, i: nat, j: nat, a: int)
    requires Watched(start, es, ls, ms) && i <= j <= |es| && Live(ls[i], a)
    requires forall x :: i <= x < j ==> es[x].call != FreeIt(a) && !(es[x].call.Realloc? && es[x].call.a == a)
    ensures Live(ls[j], a) && Payload(ls[j], ms[j], a) == Stored(es[i..j], a, Payload(ls[i], ms[i], a))
  {
    StretchKept(es, ls, ms, i, j, a);
  }

  lemma {:induction false} StretchKept(es: seq<Event>, ls: seq<Layout>, ms: seq<Memory>, i: nat, j: nat, a: int)
    requires |ms| == |es| + 1 == |ls| && (forall x {:trigger SeenAt(es, ls, ms, x)} :: SeenAt(es, ls, ms, x))
    requires i <= j <= |es| && Live(ls[i], a)
    requires forall x :: i <= x < j ==> es[x].call != FreeIt(a) && !(es[x].call.Realloc? && es[x].call.a == a)
    ensures Live(ls[j], a) && Payload(ls[j], ms[j], a) == Stored(es[i..j], a, Payload(ls[i], ms[i], a))
    decreases j - i
  {
    if i < j {
      StretchKept(es, ls, ms, i, j - 1, a);
      assert SeenAt(es, ls, ms, j - 1);
      KeptStep(es, ls[j - 1], ms[j - 1], ls[j], ms[j], i, j, a, Payload(ls[i], ms[i], a));
    }
  }

  lemma KeptStep(es: seq<Event>, l: Layout, m: Memory, l': Layout, m': Memory, i: nat, j: nat, a: int, s: Memory)
    requires i < j <= |es| && Seen(View(l, m), es[j - 1], View(l', m')) && Live(l, a) && Payload(l, m, a) == Stored(es[i..j - 1], a, s)
    requires es[j - 1].call != FreeIt(a) && !(es[j - 1].call.Realloc? && es[j - 1].call.a == a)
    ensures Live(l', a) && Payload(l', m', a) == Stored(es[i..j], a, s)
  {
    KeptOnce(es, View(l, m), View(l', m'), i, j, a, s);
  }

  lemma KeptOnce(es: seq<Event>, v: Blocks, v': Blocks, i: nat, j: nat, a: int, s: Memory)
    requires i < j <= |es| && Seen(v, es[j - 1], v') && a in v && v[a] == Stored(es[i..j - 1], a, s)
    requires es[j - 1].call != FreeIt(a) && !(es[j - 1].call.Realloc? && es[j - 1].call.a == a)
    ensures a in v' && v'[a] == Stored(es[i..j], a, s)
  {
    assert es[i..j][..j - 1 - i] == es[i..j - 1] && es[i..j][j - 1 - i] == es[j - 1];
    OthersKeep(v, es[j - 1], v', a);
  }

  lemma OthersKeep(v: Blocks, e: Event, v': Blocks, a: int)
    requires Seen(v, e, v') && a in v && e.call != FreeIt(a) && !(e.call.Realloc? && e.call.a == a)
    ensures a in v'
    ensures v'[a] == if e.call.Write? && e.call.a == a then v[a][e.call.k := e.call.v] else v[a]
  {
    match e.call
    case Malloc(_) => if e.result != 0 { assert a in v' - {e.result - HDR}; }
    case Realloc(c, _) => if e.result != 0 { assert a in v - {c}; }
    case _ =>
  }
}
