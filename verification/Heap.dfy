/** The MSP430 allocator: malloc, free and realloc over a byte array, with the chunk
    headers and the free list inside it. Pointers and sizes are 16-bit numbers; 0 is
    NULL. The end of the heap is fixed. */
module HeapAllocator {
  import opened HeapLayout
  import opened HeapOps
  import opened HeapMemory
  import opened HeapWrites
  import opened HeapFree
  import opened HeapResize

  class Heap {
    /** __malloc_heap_start and __malloc_heap_end */
    const start: int
    const end: int
    const mem: array<byte>
    /** __flp and __brkval */
    var flp: int
    var brkval: int
    /** The chunks that the bytes of `mem` describe. */
    ghost var lay: Layout

    /** The bounds of the heap, which never change. */
    predicate Bounds()
      reads this
    {
      0 < start <= end < WORD && end - start < 0xfffe && mem.Length == end
    }

    ghost predicate Valid()
      reads this, mem
    {
      && Bounds()
      && Good(mem[..], flp, lay, start)
      && lay.brk == (if brkval == 0 then start else brkval)
    }

    constructor (start: int, end: int)
      requires 0 < start <= end < WORD && end - start < 0xfffe
      ensures Valid() && lay == Layout(map[], [], start) && this.start == start && this.end == end && fresh(mem)
    {
      this.start, this.end := start, end;
      mem := new byte[end](_ => 0);
      flp, brkval := 0, 0;
      lay := Layout(map[], [], start);
    }

    method Set(a: int, v: int)
      requires 0 <= a && a + 1 < mem.Length && 0 <= v < WORD
      modifies mem
      ensures mem[..] == PutWord(old(mem[..]), a, v)
    {
      mem[a] := (v % 256) as byte;
      mem[a + 1] := (v / 256) as byte;
    }

    function Get(a: int): (v: int)
      requires 0 <= a && a + 1 < mem.Length
      reads mem
      ensures v == Word(mem[..], a)
    {
      mem[a] as int + 256 * mem[a + 1] as int
    }

    /** malloc's walk over the free list: the first chunk of exactly len bytes, else the
        smallest larger one. */
    method Search(len: int) returns (s: int, fp: int, prev: int, ghost i: int)
      requires Walkable(mem[..], flp, lay) && MIN <= len
      ensures s == 0 ==> forall j :: 0 <= j < |lay.fl| ==> Size(lay.sz, lay.fl[j]) < len
      ensures s != 0 ==> i >= 0 && BestFit(lay, len, i) && fp == lay.fl[i] && s == Size(lay.sz, fp) && prev == Link(lay.fl, i - 1)
    {
      var fp1, fp2 := flp, 0;
      s, fp, prev, i := 0, 0, 0, -1;
      ghost var k := 0;
      while fp1 != 0
        invariant 0 <= k <= |lay.fl| && fp1 == Link(lay.fl, k) && fp2 == Link(lay.fl, k - 1)
        invariant Scanned(lay, len, k, s, i)
        invariant s != 0 ==> fp == lay.fl[i] && prev == Link(lay.fl, i - 1)
        decreases |lay.fl| - k
      {
        assert Node(mem[..], lay, k);
        var n := Get(fp1);
        ScanEnd(lay, len, k, s, i);
        if n == len {
          return n, fp1, fp2, k;
        }
        ScanStep(lay, len, k, s, i);
        if n > len && (s == 0 || n < s) {
          s, fp, prev, i := n, fp1, fp2, k;
        }
        fp2 := fp1;
        fp1 := Get(fp1 + 2);
        k := k + 1;
      }
      assert Node(mem[..], lay, k);
      ScanEnd(lay, len, k, s, i);
    }

    /** Entry i leaves the free list: `fp2->nx = fp1->nx` or `__flp = fp1->nx`. */
    method Unlink(prev: int, fp: int, ghost i: nat)
      requires Valid() && i < |lay.fl| && fp == lay.fl[i] && prev == Link(lay.fl, i - 1)
      modifies mem, `flp, `lay
      ensures Valid() && lay == Take(old(lay), i) && Untouched(old(lay), old(mem[..]), mem[..])
    {
      EntryFacts(mem[..], flp, lay, start, i);
      var nx := Get(fp + 2);
      UnlinkGood(mem[..], flp, lay, start, i, prev, nx);
      if prev != 0 {
        Set(prev + 2, nx);
      } else {
        flp := nx;
      }
      lay := Take(lay, i);
    }

    /** Step 2 of malloc: leave the lower part in the list, give the upper part away. */
    method SplitOff(fp: int, s: int, n: int, ghost i: nat) returns (p: int)
      requires Valid() && i < |lay.fl| && fp == lay.fl[i] && s == Size(lay.sz, fp) && MIN <= n && NODE <= s - n
      modifies mem, `lay
      ensures Valid() && Serves(old(lay), i, n, lay, p) && Untouched(old(lay), old(mem[..]), mem[..])
    {
      var cp, rest := fp + s - n, s - n - HDR;
      SplitGood(mem[..], flp, lay, start, i, n, fp, cp, rest);
      Set(cp, n);
      Set(fp, rest);
      lay := Split(lay, i, n);
      p := cp + HDR;
    }

    /** Step 3 of malloc: a new chunk above the break, if there is room. The second
        comparison is made modulo 0x10000. */
    method FromBreak(n: int) returns (p: int)
      requires Valid() && MIN <= n < WORD
      modifies mem, `brkval, `lay
      ensures Valid() && Untouched(old(lay), old(mem[..]), mem[..])
      ensures if old(lay).brk + HDR + n <= end then lay == Extend(old(lay), n) && p == old(lay).brk + HDR
              else lay == old(lay) && p == 0 && mem[..] == old(mem[..])
    {
      if brkval == 0 {
        brkval := start;
      }
      if end <= brkval {
        return 0;
      }
      var avail := end - brkval;
      if avail >= n && avail >= (n + HDR) % WORD {
        ExtendOk(lay, start, n);
        ExtendKeeps(mem[..], flp, lay, start, n);
        var fp1 := brkval;
        brkval := brkval + n + HDR;
        Set(fp1, n);
        lay := Extend(lay, n);
        return fp1 + HDR;
      }
      return 0;
    }

    method Malloc(len: int) returns (p: int)
      requires Valid() && 0 <= len < WORD
      modifies this, mem
      ensures Valid() && Placed(old(lay), end, Max(len, MIN), lay, p)
      ensures Tight(Max(len, MIN), lay, p)
      ensures Untouched(old(lay), old(mem[..]), mem[..]) && (p == 0 ==> mem[..] == old(mem[..]))
    {
      ghost var l := lay;
      var n := if len < MIN then MIN else len;
      StoresWalkable(mem[..], flp, lay, start);
      var s, fp, prev; ghost var i;
      s, fp, prev, i := Search(n);
      if s != 0 {
        if s - n < NODE {
          Unlink(prev, fp, i);
          p := fp + HDR;
        } else {
          p := SplitOff(fp, s, n, i);
        }
      } else {
        p := FromBreak(n);
      }
      PlacedTight(l, start, end, n, lay, p);
    }

    /** free's walk to the place of chunk a: fp1 is the first entry not below it. */
    method FindPlace(a: int, ghost fl: seq<int>) returns (fp1: int, fp2: int)
      requires Chained(mem[..], flp, fl)
      ensures fp1 == Link(fl, Pos(fl, a)) && fp2 == Link(fl, Pos(fl, a) - 1)
      ensures fp1 == 0 <==> Pos(fl, a) == |fl|
      ensures fp2 == 0 <==> Pos(fl, a) == 0
    {
      fp1, fp2 := flp, 0;
      ghost var k := 0;
      while fp1 != 0 && fp1 < a
        invariant 0 <= k <= |fl| && fp1 == Link(fl, k) && fp2 == Link(fl, k - 1)
        invariant forall j :: 0 <= j < k ==> fl[j] < a
        decreases |fl| - k
      {
        assert Linked(mem[..], fl, k) && fl[k] in fl;
        fp2 := fp1;
        fp1 := Get(fp1 + 2);
        k := k + 1;
      }
      assert k < |fl| ==> fl[k] in fl;
      assert k > 0 ==> fl[k - 1] in fl;
      assert k == Pos(fl, a);
    }

    /** The walk to the last entry of the free list and the one before it. */
    method FindLast(ghost fl: seq<int>) returns (fp1: int, fp2: int)
      requires Chained(mem[..], flp, fl) && fl != []
      ensures fp1 == fl[|fl| - 1] && fp2 == Link(fl, |fl| - 2)
    {
      fp1, fp2 := flp, 0;
      ghost var k := 0;
      assert Linked(mem[..], fl, 0) && forall i :: 0 <= i < |fl| ==> fl[i] in fl;
      while Get(fp1 + 2) != 0
        invariant 0 <= k < |fl| && fp1 == fl[k] && fp2 == Link(fl, k - 1) && Linked(mem[..], fl, k)
        invariant k + 1 < |fl| ==> 0 < fl[k + 1]
        decreases |fl| - k
      {
        fp2, fp1 := fp1, Get(fp1 + 2);
        k := k + 1;
        assert Linked(mem[..], fl, k);
      }
    }

    method WriteMerge(fp: int, nxt: int)
      requires 0 <= fp && fp + 4 <= mem.Length && 0 <= nxt && nxt + 4 <= mem.Length && Disjoint(fp, nxt + 2)
      modifies mem
      ensures mem[..] == MergeWords(old(mem[..]), fp, nxt)
    {
      WordPut(mem[..], fp, Wrap(Word(mem[..], fp) + Word(mem[..], nxt) + HDR));
      Set(fp, Wrap(Get(fp) + Get(nxt) + HDR));
      Set(fp + 2, Get(nxt + 2));
    }

    /** `fp->sz += nxt->sz + sizeof(size_t); fp->nx = nxt->nx` if nxt lies behind fp.
        Blocks of layout r, which fp belongs to as a free chunk, stay as in m0. */
    method MergeNext(fp: int, nxt: int, ghost l: Layout, ghost j: nat, ghost k: int, ghost a: int, ghost w: int, ghost bad: bool,
                     ghost r: Layout, ghost m0: Memory)
      returns (ghost w': int)
      requires Mid(mem[..], l, start, k, a, w, bad) && j + 1 < |l.fl| && fp == l.fl[j] && nxt == l.fl[j + 1] && k < j
      requires (a == fp || a == nxt) && w != fp
      requires Untouched(r, m0, mem[..]) && Harmless(r, fp) && Harmless(r, fp + 2)
      modifies mem
      ensures Mid(mem[..], Merge(l, j), start, k, a, w', bad) && Untouched(r, m0, mem[..])
      ensures w' == if End(l.sz, fp) == nxt && w == nxt then fp else w
    {
      MergeMid(mem[..], l, start, k, a, w, bad, j, fp, nxt);
      MidEntry(mem[..], l, start, k, a, w, bad, j);
      w' := if End(l.sz, fp) == nxt && w == nxt then fp else w;
      if fp + HDR + Get(fp) == nxt {
        MergeUntouched(r, m0, mem[..], fp, nxt);
        WriteMerge(fp, nxt);
      }
    }

    /** The end of free: a topmost free chunk goes back below the break. */
    method TrimBreak(a: int, ghost l: Layout, ghost w: int, ghost r: Layout, ghost m0: Memory)
      requires Ok(l, start) && Live(l, a) && Joined(l, a).fl != [] && flp == Joined(l, a).fl[0] && brkval == l.brk
      requires Mid(mem[..], Joined(l, a), start, -1, a, w, Harms(l, a)) && (End(l.sz, a) !in l.fl ==> w == End(l.sz, a))
      requires Untouched(r, m0, mem[..]) && Writable(r, Joined(l, a).fl)
      modifies mem, `flp, `brkval
      ensures FreedTo(mem[..], flp, brkval, l, a) && Untouched(r, m0, mem[..])
    {
      ghost var l2, m := Joined(l, a), mem[..];
      MidChained(m, l2, start, a, w, Harms(l, a));
      var fp1, fp2 := FindLast(l2.fl);
      JoinedEnding(l, start, a, w, fp1, fp2);
      EndTest(m, l2, start, a, w, Harms(l, a), fp1, fp2);
      JoinedTopmost(l, start, a);
      DropLast(fp1, fp2, l2, r, m0);
      TrimFreed(m, l, l2, start, a, w, Harms(l, a), fp1, fp2, mem[..], flp, brkval);
    }

    method DropLast(fp1: int, fp2: int, ghost l2: Layout, ghost r: Layout, ghost m0: Memory)
      requires 0 < fp1 && fp1 + 4 <= mem.Length && (fp2 == 0 || (0 < fp2 && fp2 + 4 <= mem.Length)) && l2.fl != []
      requires flp == l2.fl[0] && brkval == l2.brk && (fp2 != 0 ==> fp2 in l2.fl) && Untouched(r, m0, mem[..]) && Writable(r, l2.fl)
      modifies mem, `flp, `brkval
      ensures Ends(old(mem[..]), l2, fp1, fp2, mem[..], flp, brkval) && Untouched(r, m0, mem[..])
    {
      if Wrap(fp1 + HDR + Get(fp1)) == brkval {
        if fp2 == 0 {
          flp := 0;
        } else {
          PutUntouched(r, m0, mem[..], fp2 + 2, 0);
          Set(fp2 + 2, 0);
        }
        brkval := fp1;
      }
    }

    /** The branch of free for an empty free list. */
    method FreeAlone(a: int, ghost m: Memory)
      requires Bounds() && Good(m, flp, lay, start) && Live(lay, a) && a + NODE <= mem.Length == |m| && lay.fl == []
      requires mem[..] == PutWord(m, a + 2, 0) && brkval == lay.brk
      modifies `flp, `brkval
      ensures FreedTo(mem[..], flp, brkval, lay, a)
    {
      InsertMid(m, flp, lay, start, a, 0);
      assert Insert(lay, a).fl == [a] && Joined(lay, a) == Insert(lay, a);
      JoinedEnding(lay, start, a, End(lay.sz, a), a, 0);
      MidEntry(mem[..], Insert(lay, a), start, -1, a, End(lay.sz, a), Harms(lay, a), 0);
      if a + HDR + Get(a) == brkval {
        brkval := a;
      } else {
        flp := a;
      }
      TrimFreed(mem[..], lay, Insert(lay, a), start, a, End(lay.sz, a), Harms(lay, a), a, 0, mem[..], flp, brkval);
    }

    /** The chunk becomes a list entry and swallows the free chunk above it, if that
        is adjacent. Nothing points to it yet. */
    method LinkUp(a: int, fp1: int, ghost m: Memory, ghost j: nat, ghost r: Layout, ghost e: int, ghost bad: bool) returns (ghost w: int)
      requires 0 < a && a + NODE <= mem.Length == |m| && 0 <= fp1 < WORD && mem[..] == PutWord(m, a + 2, 0)
      requires Mid(PutWord(m, a + 2, fp1), r, start, j - 1, a, e, bad) && e != a
      requires j < |r.fl| && r.fl[j] == a && fp1 == Link(r.fl, j + 1) && (fp1 == 0 <==> j + 1 == |r.fl|)
      requires Untouched(r, m, mem[..]) && Harmless(r, a) && Harmless(r, a + 2)
      modifies mem
      ensures Mid(mem[..], Merge(r, j), start, j - 1, a, w, bad) && Untouched(r, m, mem[..])
      ensures w == if fp1 != 0 && End(r.sz, a) == fp1 && e == fp1 then a else e
    {
      w := e;
      if fp1 != 0 {
        PutTwice(m, a + 2, fp1);
        PutUntouched(r, m, mem[..], a + 2, fp1);
        Set(a + 2, fp1);
        w := MergeNext(a, fp1, r, j, j - 1, a, e, bad, r, m);
      }
    }

    /** The list predecessor is linked to the new entry and swallows it, if it is
        adjacent. */
    method LinkDown(a: int, fp2: int, ghost l1: Layout, ghost j: nat, ghost w: int, ghost bad: bool, ghost r: Layout, ghost m: Memory)
      returns (ghost w': int)
      requires Mid(mem[..], l1, start, j - 1, a, w, bad) && 0 < j < |l1.fl| && fp2 == l1.fl[j - 1] && a == l1.fl[j] && w != fp2
      requires Untouched(r, m, mem[..]) && Harmless(r, fp2) && Harmless(r, fp2 + 2)
      modifies mem
      ensures Mid(mem[..], Merge(l1, j - 1), start, -1, a, w', bad) && Untouched(r, m, mem[..])
      ensures w != a ==> w' == w
    {
      CompleteMid(mem[..], l1, start, a, w, bad, j - 1, fp2);
      PutUntouched(r, m, mem[..], fp2 + 2, a);
      Set(fp2 + 2, a);
      w' := MergeNext(fp2, a, l1, j - 1, -1, a, w, bad, r, m);
    }

    /** free with a free list: find the place, link and merge, lower the break. */
    method FreeListed(a: int, ghost m: Memory, ghost r: Layout)
      requires Bounds() && Good(m, flp, lay, start) && Live(lay, a) && a + NODE <= mem.Length == |m| && lay.fl != []
      requires mem[..] == PutWord(m, a + 2, 0) && brkval == lay.brk && Chained(mem[..], flp, lay.fl)
      requires r == Insert(lay, a) && Untouched(r, m, mem[..]) && Writable(r, r.fl) && a in r.fl
      modifies mem, `flp, `brkval
      ensures FreedTo(mem[..], flp, brkval, lay, a) && Untouched(r, m, mem[..])
    {
      var fp1, fp2 := FindPlace(a, lay.fl);
      ghost var j, e := Pos(lay.fl, a), End(lay.sz, a);
      InsertMid(m, flp, lay, start, a, j);
      UpFacts(lay, start, a, j, r);
      ghost var w := LinkUp(a, fp1, m, j, r, e, Harms(lay, a));
      if fp2 == 0 {
        flp := a;
        FirstFreed(mem[..], lay, start, a, w);
      } else {
        FreeLater(a, fp2, m, j, r, w, Merge(r, j));
      }
    }

    method FreeLater(a: int, fp2: int, ghost m: Memory, ghost j: nat, ghost r: Layout, ghost w: int, ghost l1: Layout)
      requires Ok(lay, start) && Live(lay, a) && j == Pos(lay.fl, a) > 0 && r == Insert(lay, a) && l1 == Merge(r, j) && brkval == lay.brk
      requires fp2 == lay.fl[j - 1] && flp == lay.fl[0] && Untouched(r, m, mem[..]) && Writable(r, r.fl)
      requires Mid(mem[..], l1, start, j - 1, a, w, Harms(lay, a))
      requires (w == a || w == End(lay.sz, a)) && (End(lay.sz, a) !in lay.fl ==> w == End(lay.sz, a))
      modifies mem, `flp, `brkval
      ensures FreedTo(mem[..], flp, brkval, lay, a) && Untouched(r, m, mem[..])
    {
      DownFacts(lay, start, a, j, r, l1);
      ghost var w' := LinkDown(a, fp2, l1, j, w, Harms(lay, a), r, m);
      TrimBreak(a, lay, w', r, m);
    }

    /** free of a block of any size. */
    method FreeBlock(a: int)
      requires Valid() && Live(lay, a) && a + NODE <= end
      modifies this, mem
      ensures Freed(old(lay), a, old(mem[..]), mem[..], lay, Valid())
    {
      ghost var l, m, r := lay, mem[..], Insert(lay, a);
      ClearedChain(m, flp, l, start, a);
      BreakAbove(l, start, a);
      InsertWritable(l, start, a);
      PutUntouched(r, m, m, a + 2, 0);
      assert l.fl != [] ==> l.fl[0] in l.fl;
      Set(a + 2, 0);
      if flp == 0 {
        FreeAlone(a, m);
      } else {
        FreeListed(a, m, r);
      }
      FreedGood(mem[..], flp, brkval, l, start, a);
      InsertUntouched(l, a, m, mem[..]);
      lay := HeapOps.Free(l, a);
    }

    method Free(p: int)
      requires Valid() && (p == 0 || (Live(lay, p - HDR) && p - HDR + NODE <= end))
      modifies this, mem
      ensures p == 0 ==> Valid() && lay == old(lay) && mem[..] == old(mem[..])
      ensures p != 0 ==> Freed(old(lay), p - HDR, old(mem[..]), mem[..], lay, Valid())
    {
      if p != 0 {
        FreeBlock(p - HDR);
      }
    }

    /** realloc's walk over the free list: is the chunk at c in it, with room for incr
        bytes? Else, how large is the largest free chunk? */
    method FindAbove(c: int, incr: int) returns (found: bool, fp: int, prev: int, s: int, ghost i: int)
      requires Walkable(mem[..], flp, lay)
      ensures found ==> 0 <= i < |lay.fl| && fp == lay.fl[i] == c && incr <= Size(lay.sz, c) + HDR && prev == Link(lay.fl, i - 1)
      ensures !found ==> forall j :: 0 <= j < |lay.fl| ==> !(lay.fl[j] == c && incr <= Size(lay.sz, c) + HDR)
      ensures !found ==> forall j :: 0 <= j < |lay.fl| ==> Size(lay.sz, lay.fl[j]) <= s
      ensures !found && s > 0 ==> exists j :: 0 <= j < |lay.fl| && Size(lay.sz, lay.fl[j]) == s
    {
      found, fp, prev, s, i := false, flp, 0, 0, 0;
      while fp != 0
        invariant 0 <= i <= |lay.fl| && fp == Link(lay.fl, i) && prev == Link(lay.fl, i - 1) && s >= 0 && !found
        invariant forall j :: 0 <= j < i ==> !(lay.fl[j] == c && incr <= Size(lay.sz, c) + HDR)
        invariant forall j :: 0 <= j < i ==> Size(lay.sz, lay.fl[j]) <= s
        invariant s > 0 ==> exists j :: 0 <= j < i && Size(lay.sz, lay.fl[j]) == s
        decreases |lay.fl| - i
      {
        assert Node(mem[..], lay, i);
        var n := Get(fp);
        if fp == c && n + HDR >= incr {
          found := true;
          return;
        }
        if n > s {
          s := n;
        }
        prev, fp := fp, Get(fp + 2);
        i := i + 1;
      }
      assert Node(mem[..], lay, i);
    }

    /** The writes that split the chunk at fp, nx first: the new entry may overlap it. */
    method WritePart(a: int, len: int, fp: int, nx: int, incr: int, ghost next: int, ghost rest: int)
      requires PartRoom(mem[..], a, fp, nx, incr, len) && next == Word(mem[..], fp + 2) && rest == Word(mem[..], fp) - incr
      modifies mem
      ensures mem[..] == PartWords(old(mem[..]), a, nx, next, rest, len)
    {
      WordPut(mem[..], nx + 2, Word(mem[..], fp + 2));
      assert Disjoint(nx + 2, fp);
      Set(nx + 2, Get(fp + 2));
      Set(nx, Get(fp) - incr);
      Set(a, len);
    }

    /** `ofp3->nx = fp2` or `__flp = fp2`. */
    method Relink(prev: int, nx: int)
      requires prev != 0 ==> 0 < prev && prev + 4 <= mem.Length && 0 <= nx < WORD
      modifies mem, `flp
      ensures if prev == 0 then flp == nx && mem[..] == old(mem[..])
              else flp == old(flp) && mem[..] == PutWord(old(mem[..]), prev + 2, nx)
    {
      if prev != 0 {
        Set(prev + 2, nx);
      } else {
        flp := nx;
      }
    }

    /** The next chunk is split, and its lower part goes to block a. */
    method TakePart(a: int, incr: int, len: int, fp: int, nx: int, prev: int, ghost i: nat, ghost rest: int)
      requires Valid() && Live(lay, a) && 0 < incr == len - lay.sz[a] && i < |lay.fl| && fp == lay.fl[i] == End(lay.sz, a)
      requires nx == a + HDR + len && rest == Word(mem[..], fp) - incr && NODE < rest + HDR && prev == Link(lay.fl, i - 1)
      modifies mem, `lay, `flp
      ensures Valid() && Untouched(old(lay), old(mem[..]), mem[..])
      ensures lay == GrowPart(old(lay), a, i, len, nx, rest)
    {
      ghost var next := Word(mem[..], fp + 2);
      PartGood(mem[..], flp, lay, start, a, i, len, fp, nx, incr, next, rest, prev);
      WritePart(a, len, fp, nx, incr, next, rest);
      Relink(prev, nx);
      lay := GrowPart(lay, a, i, len, nx, rest);
    }

    /** The whole next chunk goes to block a. */
    method TakeAll(a: int, s: int, fp: int, prev: int, ghost i: nat)
      requires Valid() && Live(lay, a) && s == lay.sz[a] && i < |lay.fl| && fp == lay.fl[i] == End(lay.sz, a) && fp in lay.sz
      requires prev == Link(lay.fl, i - 1) && fp + 1 < mem.Length && 0 <= fp
      modifies mem, `lay, `flp
      ensures Valid() && Untouched(old(lay), old(mem[..]), mem[..]) && lay == GrowAll(old(lay), a, i)
    {
      var v := s + Get(fp) + HDR;
      AllGood(mem[..], flp, lay, start, a, i, fp, Word(mem[..], fp + 2), v, prev);
      Set(a, v);
      Relink(prev, Get(fp + 2));
      lay := GrowAll(lay, a, i);
    }

    /** Growing into the chunk above. */
    method GrowAbove(a: int, s: int, len: int, fp: int, prev: int, ghost i: nat)
      requires Valid() && Live(lay, a) && s == lay.sz[a] < len && Above(lay, a, len, i) && fp == lay.fl[i] && prev == Link(lay.fl, i - 1)
      modifies mem, `lay, `flp
      ensures Valid() && Untouched(old(lay), old(mem[..]), mem[..])
      ensures End(old(lay).sz, a) in old(lay).sz && lay == GrowInto(old(lay), a, i, len)
    {
      NextFacts(mem[..], flp, lay, start, a, i);
      var incr := len - s;
      var rest := Get(fp) - incr;
      if rest + HDR > NODE {
        TakePart(a, incr, len, fp, a + HDR + len, prev, i, rest);
      } else {
        TakeAll(a, s, fp, prev, i);
      }
    }

    /** The released part of the block becomes a chunk at b and is freed. */
    method Shrink(a: int, len: int, b: int, v: int, ghost p: int)
      requires Valid() && Live(lay, a) && 0 <= len && p == a + HDR && b == a + HDR + len && MIN <= v == lay.sz[a] - len - HDR
      modifies this, mem
      ensures Valid() && lay == HeapOps.Free(CutAt(old(lay), a, len), b)
      ensures Copied(old(lay), a, len, old(mem[..]), mem[..], p)
    {
      ghost var l, m := lay, mem[..];
      CutOff(a, len, b, v);
      ghost var m1 := mem[..];
      FreeBlock(b);
      ShrunkInPlace(m, l, start, a, len, b, p, m1, mem[..]);
    }

    method CutOff(a: int, len: int, b: int, v: int)
      requires Valid() && Live(lay, a) && 0 <= len && b == a + HDR + len && MIN <= v == lay.sz[a] - len - HDR
      modifies `lay, mem
      ensures Valid() && lay == CutAt(old(lay), a, len) && Live(lay, b) && lay.sz[b] == v
      ensures Untouched(lay, old(mem[..]), mem[..])
    {
      CutGood(mem[..], flp, lay, start, a, len, b, v);
      Set(b, v);
      Set(a, len);
      lay := CutAt(lay, a, len);
    }

    /** memcpy */
    method Copy(dst: int, src: int, n: int)
      requires 0 <= n && 0 <= dst && dst + n <= mem.Length && 0 <= src && src + n <= mem.Length && (dst + n <= src || src + n <= dst)
      modifies mem
      ensures Carries(old(mem[..]), src, mem[..], dst, n) && SameOutside(old(mem[..]), mem[..], dst, dst + n)
    {
      var k := 0;
      while k < n
        invariant 0 <= k <= n
        invariant forall y :: 0 <= y < mem.Length && !(dst <= y < dst + k) ==> mem[y] == old(mem[y])
        invariant forall y :: dst <= y < dst + k ==> mem[y] == old(mem[src + (y - dst)])
      {
        mem[dst + k] := mem[src + k];
        k := k + 1;
      }
    }

    /** memcpy: the contents of block a go to block b. */
    method CopyOver(a: int, b: int, r: int, ghost n: int)
      requires Valid() && Live(lay, a) && Live(lay, b) && a != b && r == b + HDR && n == lay.sz[a] < lay.sz[b]
      modifies mem
      ensures Valid() && SameOutside(old(mem[..]), mem[..], r, r + n) && Carries(old(mem[..]), a + HDR, mem[..], r, n)
    {
      BlockFacts(mem[..], flp, lay, start, a);
      BlockFacts(mem[..], flp, lay, start, b);
      BlocksApart(lay, start, a, b);
      ghost var m := mem[..];
      Copy(r, a + HDR, Get(a));
      PayloadWrite(m, mem[..], flp, lay, start, b, r, r + n);
    }

    /** memcpy and free. */
    method CopyFree(a: int, b: int, r: int, ghost n: int) returns (ghost m2: Memory)
      requires Valid() && Live(lay, a) && Live(lay, b) && a != b && r == b + HDR && n == lay.sz[a] < lay.sz[b] && a + NODE <= end
      modifies this, mem
      ensures lay == HeapOps.Free(old(lay), a) && UntouchedBut(old(lay), a, m2, mem[..]) && (Valid() <==> Freeable(old(lay), a))
      ensures SameOutside(old(mem[..]), m2, r, r + n) && Carries(old(mem[..]), a + HDR, m2, r, n)
    {
      CopyOver(a, b, r, n);
      m2 := mem[..];
      FreeBlock(a);
    }

    /** A new block, the contents copied, the old block freed. */
    method Move(a: int, len: int) returns (r: int)
      requires Valid() && Live(lay, a) && lay.sz[a] < len < WORD && a + NODE <= end
      modifies this, mem
      ensures Copied(old(lay), a, len, old(mem[..]), mem[..], r) && Moved(old(lay), end, a, len, lay, r)
      ensures Valid() <==> Releases(old(lay), end, a, len)
    {
      ghost var l, m := lay, mem[..];
      r := Malloc(len);
      ghost var l1, m1 := lay, mem[..];
      BothLive(l, start, end, len, l1, r, a);
      ReleasesIff(l, end, a, len, l1, r);
      if r != 0 {
        ghost var m2 := CopyFree(a, r - HDR, r, l.sz[a]);
        MovedCopied(l, l1, start, end, a, len, r, m, m1, m2, mem[..]);
      }
      MovedIs(l, end, a, len, l1, r, lay);
    }

    /** The topmost block grows with the break, if the new end stays below the end of
        the heap. The sum is made modulo 0x10000. */
    method GrowTop(a: int, len: int) returns (r: int)
      requires Valid() && Live(lay, a) && End(lay.sz, a) == lay.brk && lay.sz[a] < len < WORD && a <= (a + HDR + len) % WORD
      modifies mem, `lay, `brkval
      ensures len < WORD - HDR && a + HDR + len < end ==>
        Valid() && r == a + HDR && lay == GrowBreak(old(lay), a, len) && Untouched(old(lay), old(mem[..]), mem[..])
      ensures len < WORD - HDR && end <= a + HDR + len ==> Valid() && r == 0 && lay == old(lay) && mem[..] == old(mem[..])
      ensures len >= WORD - HDR ==> r == a + HDR && Word(mem[..], a) == len
    {
      BlockFacts(mem[..], flp, lay, start, a);
      var cp := (a + HDR + len) % WORD;
      if cp < end {
        if len < WORD - HDR { GrowBreakGood(mem[..], flp, lay, start, a, len); }
        WordPut(mem[..], a, len);
        brkval := cp;
        Set(a, len);
        lay := GrowBreak(lay, a, len);
        return a + HDR;
      }
      return 0;
    }

    /** realloc in place, into the free chunk that the search found. */
    method GrowFound(a: int, s: int, len: int, fp: int, prev: int, ghost i: nat) returns (r: int)
      requires Valid() && Live(lay, a) && s == lay.sz[a] < len && Above(lay, a, len, i) && fp == lay.fl[i] && prev == Link(lay.fl, i - 1)
      modifies mem, `lay, `flp
      ensures Valid() && r == a + HDR && CanGrow(old(lay), a, len)
      ensures Resized(old(lay), end, a, len, lay, r) && Copied(old(lay), a, len, old(mem[..]), mem[..], r)
    {
      ghost var l, m := lay, mem[..];
      GrowAbove(a, s, len, fp, prev, i);
      r := a + HDR;
      ResizedAbove(l, end, a, len, i, r, lay);
      InPlace(m, l, start, a, len, r, mem[..]);
    }

    /** realloc to a larger size. */
    method Grow(a: int, s: int, len: int) returns (r: int)
      requires Valid() && Live(lay, a) && s == lay.sz[a] < len < WORD && a + NODE <= end && a <= (a + HDR + len) % WORD
      modifies this, mem
      ensures !Wraps(old(lay), a, len) ==>
        Reshaped(old(lay), end, a, len, old(mem[..]), mem[..], lay, r, Valid())
      ensures Wraps(old(lay), a, len) ==> r == a + HDR && Word(mem[..], a) == len
    {
      ghost var l, m := lay, mem[..];
      BlockFacts(mem[..], flp, lay, start, a);
      StoresWalkable(mem[..], flp, lay, start);
      WrapFacts(lay, start, a, len);
      var found, fp, prev, big; ghost var i;
      found, fp, prev, big, i := FindAbove(a + HDR + s, len - s);
      if found {
        r := GrowFound(a, s, len, fp, prev, i);
        return;
      }
      NotAbove(lay, a, len, big);
      if brkval == a + HDR + s && len > big {
        r := GrowTop(a, len);
        if len < WORD - HDR && r != 0 { InPlace(m, l, start, a, len, r, mem[..]); }
      } else {
        r := Move(a, len);
      }
    }

    /** realloc. A request whose end wraps below the block fails. One that wraps by
        exactly the header's size or one byte less passes for the topmost block; then the
        block belongs to no layout any more. */
    method Realloc(p: int, len: int) returns (r: int)
      requires Valid() && 0 <= len < WORD && (p == 0 || (Live(lay, p - HDR) && p - HDR + NODE <= end))
      modifies this, mem
      ensures p == 0 ==>
        Valid() && Placed(old(lay), end, Max(len, MIN), lay, r) && Untouched(old(lay), old(mem[..]), mem[..])
      ensures p != 0 && TooLong(p, len) ==> Valid() && r == 0 && lay == old(lay) && mem[..] == old(mem[..])
      ensures p != 0 && !TooLong(p, len) && !Wraps(old(lay), p - HDR, len) ==>
        Reshaped(old(lay), end, p - HDR, len, old(mem[..]), mem[..], lay, r, Valid())
      ensures p != 0 && Wraps(old(lay), p - HDR, len) ==> r == p && Lost(mem[..], flp, start, p - HDR)
      ensures if p == 0 then Tight(Max(len, MIN), lay, r) else TooLong(p, len) || Wraps(old(lay), p - HDR, len) || Fitted(old(lay), p - HDR, len, lay, r)
    {
      if p == 0 {
        r := Malloc(len);
      } else {
        r := Resize(p - HDR, p, len);
      }
    }

    method Resize(a: int, p: int, len: int) returns (r: int)
      requires Valid() && 0 <= len < WORD && p == a + HDR && Live(lay, a) && a + NODE <= end
      modifies this, mem
      ensures TooLong(p, len) ==> Valid() && r == 0 && lay == old(lay) && mem[..] == old(mem[..])
      ensures !TooLong(p, len) && !Wraps(old(lay), a, len) ==>
        Reshaped(old(lay), end, a, len, old(mem[..]), mem[..], lay, r, Valid())
      ensures Wraps(old(lay), a, len) ==> r == p && Lost(mem[..], flp, start, a)
      ensures TooLong(p, len) || Wraps(old(lay), a, len) || Fitted(old(lay), a, len, lay, r)
    {
      ghost var l := lay;
      BlockFacts(mem[..], flp, lay, start, a);
      var cp := (p + len) % WORD;
      if cp < a {
        return 0;
      }
      var s := Get(a);
      if len <= s {
        r := ShrinkTo(a, p, s, len, cp);
      } else {
        r := Enlarge(a, p, s, len);
      }
      if !Wraps(l, a, len) { ResizedFitted(l, start, end, a, len, lay, r); }
    }

    method Enlarge(a: int, p: int, s: int, len: int) returns (r: int)
      requires Valid() && Live(lay, a) && s == lay.sz[a] < len < WORD && a + NODE <= end && p == a + HDR && a <= (p + len) % WORD
      modifies this, mem
      ensures !Wraps(old(lay), a, len) ==> Reshaped(old(lay), end, a, len, old(mem[..]), mem[..], lay, r, Valid())
      ensures Wraps(old(lay), a, len) ==> r == p && Lost(mem[..], flp, start, a)
    {
      r := Grow(a, s, len);
      if len >= WORD - HDR && r != 0 { LostBlock(mem[..], flp, start, a); }
    }

    method ShrinkTo(a: int, p: int, s: int, len: int, cp: int) returns (r: int)
      requires Valid() && Live(lay, a) && 0 <= len <= s == lay.sz[a] && p == a + HDR && cp == a + HDR + len
      modifies this, mem
      ensures Valid() && Resized(old(lay), end, a, len, lay, r) && Copied(old(lay), a, len, old(mem[..]), mem[..], r)
    {
      ghost var l := lay;
      if !(s <= NODE || len > s - NODE) {
        Shrink(a, len, cp, s - len - HDR, p);
      } else {
        InPlace(mem[..], lay, start, a, len, p, mem[..]);
      }
      ResizedShrunk(l, end, a, len, cp, p, lay);
      return p;
    }
  }
}
