/** Each group of writes the allocator makes turns the bytes of one layout into the
    bytes of the next and leaves the payload of every live block alone. */
module HeapWrites {
  import opened HeapLayout
  import opened HeapOps
  import opened HeapMemory

  /** A stored layout inside its bounds. */
  ghost predicate Good(m: Memory, flp: int, l: Layout, start: int) {
    && 0 < start && |m| < WORD && l.brk <= |m|
    && Ok(l, start) && Stores(m, flp, l)
  }

  lemma EntryFacts(m: Memory, flp: int, l: Layout, start: int, i: nat)
    requires Good(m, flp, l, start) && i < |l.fl|
    ensures l.fl[i] in l.sz && l.fl[i] in l.fl && start <= l.fl[i] && MIN <= l.sz[l.fl[i]]
    ensures l.fl[i] + 4 <= End(l.sz, l.fl[i]) < l.brk
    ensures Word(m, l.fl[i]) == l.sz[l.fl[i]] && Word(m, l.fl[i] + 2) == Link(l.fl, i + 1)
    ensures 0 <= Link(l.fl, i + 1) < WORD
    ensures ClearOf(l.sz, l.fl[i] + 2) && Harmless(l, l.fl[i]) && Harmless(l, l.fl[i] + 2)
  {
    assert l.fl[i] in l.fl;
    assert Linked(m, l.fl, i) && Clear(l.sz, l.fl, l.brk, l.fl[i]);
    NodeClear(l.sz, start, l.brk, l.fl[i]);
    HeaderHarmless(l, start, l.fl[i]);
  }

  // ---------------------------------------------------------------- malloc

  lemma UnlinkKeeps(m: Memory, flp: int, l: Layout, start: int, i: nat, prev: int, nx: int)
    requires Good(m, flp, l, start) && 0 < i < |l.fl| && prev == l.fl[i - 1] && nx == Word(m, l.fl[i] + 2)
    ensures 0 < prev && prev + 4 <= |m|
    ensures var m' := PutWord(m, prev + 2, nx);
      Headers(m', l.sz) && Links(m', Without(l.fl, i)) && Untouched(l, m, m')
  {
    EntryFacts(m, flp, l, start, i - 1);
    EntryFacts(m, flp, l, start, i);
    UnlinkedLinks(m, l, start, i, prev, nx);
    HeadersAside(m, l.sz, prev + 2, nx);
    PutUntouched(l, m, m, prev + 2, nx);
  }

  lemma UnlinkedLinks(m: Memory, l: Layout, start: int, i: nat, prev: int, nx: int)
    requires Tiled(l.sz, start, l.brk) && Listed(l.sz, l.fl) && Links(m, l.fl) && 0 < i < |l.fl| && prev == l.fl[i - 1]
    requires nx == Link(l.fl, i + 1) && 0 <= nx < WORD && 0 <= prev && prev + 4 <= |m|
    ensures Links(PutWord(m, prev + 2, nx), Without(l.fl, i))
  {
    FreeGaps(l, start, 0);
    UnlinkLinks(m, l.fl, 0, i);
  }

  lemma UnlinkFirstKeeps(m: Memory, flp: int, l: Layout, start: int)
    requires Good(m, flp, l, start) && l.fl != []
    ensures Stores(m, Word(m, l.fl[0] + 2), Take(l, 0))
  {
    UnlinkFirst(m, l.fl);
  }

  /** The address of the upper part lies inside the free chunk, clear of its entry. */
  lemma SplitPlace(l: Layout, start: int, i: nat, len: int, b: int)
    requires Ok(l, start) && i < |l.fl| && MIN <= len && l.fl[i] in l.sz && NODE <= l.sz[l.fl[i]] - len
    requires b == l.fl[i] + l.sz[l.fl[i]] - len
    ensures
      && ClearOf(l.sz, b) && Harmless(l, b)
      && (forall k :: 0 <= k < |l.fl| ==> Disjoint(b, l.fl[k] + 2))
  {
    var c := l.fl[i];
    assert c in l.fl;
    forall x | x in l.sz ensures Disjoint(b, x) && (Live(l, x) ==> b + 2 <= x + HDR || End(l.sz, x) <= b) {
      assert x == c || x < c || c < x;
    }
    FreeGaps(l, start, 0);
    forall k | 0 <= k < |l.fl| ensures Disjoint(b, l.fl[k] + 2) {
      assert l.fl[k] in l.fl;
      assert l.fl[k] == c || l.fl[k] < c || c < l.fl[k];
    }
  }

  lemma SplitKeeps(m: Memory, flp: int, l: Layout, start: int, i: nat, len: int, c: int, b: int, rest: int)
    requires Good(m, flp, l, start) && i < |l.fl| && MIN <= len && c == l.fl[i] && c in l.sz
    requires b == c + l.sz[c] - len && MIN <= rest == l.sz[c] - len - HDR
    ensures 0 <= c && c + 2 <= |m| && 0 <= b && b + 2 <= |m| && len < WORD && rest < WORD
    ensures var m' := PutWord(PutWord(m, b, len), c, rest);
      Headers(m', l.sz[b := len][c := rest]) && Links(m', l.fl) && Untouched(l, m, m')
  {
    EntryFacts(m, flp, l, start, i);
    SplitPlace(l, start, i, len, b);
    HeaderPut(m, l.sz, b, len);
    LinksAside(m, l.fl, b, len);
    PutUntouched(l, m, m, b, len);
    var m1 := PutWord(m, b, len);
    SplitAside(l, start, c, b, len);
    HeaderPut(m1, l.sz[b := len], c, rest);
    LinksAside(m1, l.fl, c, rest);
    PutUntouched(l, m, m1, c, rest);
  }

  lemma SplitAside(l: Layout, start: int, c: int, b: int, len: int)
    requires Ok(l, start) && c in l.fl && c in l.sz && b == c + l.sz[c] - len && MIN <= l.sz[c] - len - HDR
    ensures forall x :: x in l.sz[b := len] && x != c ==> Disjoint(c, x)
    ensures forall k :: 0 <= k < |l.fl| ==> Disjoint(c, l.fl[k] + 2)
  {
    forall x | x in l.sz[b := len] && x != c ensures Disjoint(c, x) {
      assert x == b || x < c || c < x;
    }
    forall k | 0 <= k < |l.fl| ensures Disjoint(c, l.fl[k] + 2) {
      assert l.fl[k] in l.fl;
      assert l.fl[k] == c || l.fl[k] < c || c < l.fl[k];
    }
  }

  /** The words an unlinking reads and writes, and what it achieves. */
  lemma UnlinkGood(m: Memory, flp: int, l: Layout, start: int, i: nat, prev: int, nx: int)
    requires Good(m, flp, l, start) && i < |l.fl| && prev == Link(l.fl, i - 1) && nx == Word(m, l.fl[i] + 2)
    ensures 0 < l.fl[i] && l.fl[i] + 4 <= |m|
    ensures if prev == 0 then Good(m, nx, Take(l, i), start)
            else && 0 < prev && prev + 4 <= |m|
                 && Good(PutWord(m, prev + 2, nx), flp, Take(l, i), start) && Untouched(l, m, PutWord(m, prev + 2, nx))
  {
    EntryFacts(m, flp, l, start, i);
    TakeOk(l, start, i);
    if i > 0 {
      UnlinkKeeps(m, flp, l, start, i, prev, nx);
      assert Without(l.fl, i)[0] == l.fl[0];
    } else {
      UnlinkFirstKeeps(m, flp, l, start);
    }
  }

  lemma SplitGood(m: Memory, flp: int, l: Layout, start: int, i: nat, len: int, c: int, b: int, rest: int)
    requires Good(m, flp, l, start) && i < |l.fl| && MIN <= len && c == l.fl[i]
    requires b == c + Size(l.sz, c) - len && MIN <= rest == Size(l.sz, c) - len - HDR
    ensures c in l.sz && 0 <= c && c + 2 <= |m| && 0 <= b && b + 2 <= |m| && len < WORD && rest < WORD
    ensures var m' := PutWord(PutWord(m, b, len), c, rest);
      Good(m', flp, Split(l, i, len), start) && Untouched(l, m, m')
  {
    assert l.fl[i] in l.fl;
    SplitOk(l, start, i, len);
    SplitKeeps(m, flp, l, start, i, len, c, b, rest);
    assert l.sz[b := len][c := rest] == Cut(l.sz, c, rest);
  }

  lemma ExtendKeeps(m: Memory, flp: int, l: Layout, start: int, len: int)
    requires Good(m, flp, l, start) && MIN <= len && l.brk + HDR + len <= |m|
    ensures var m' := PutWord(m, l.brk, len); Stores(m', flp, Extend(l, len)) && Untouched(l, m, m')
  {
    RaiseTiled(l.sz, start, l.brk, len);
    forall x | x in l.sz ensures Disjoint(l.brk, x) {
      assert End(l.sz, x) <= l.brk;
    }
    HeaderPut(m, l.sz, l.brk, len);
    forall k | 0 <= k < |l.fl| ensures Disjoint(l.brk, l.fl[k] + 2) {
      EntryFacts(m, flp, l, start, k);
    }
    LinksAside(m, l.fl, l.brk, len);
    assert Harmless(l, l.brk);
    PutUntouched(l, m, m, l.brk, len);
  }

  // ---------------------------------------------------------------- lists under construction

  /** A layout whose list is complete except that entry k may point anywhere. */
  ghost predicate Partial(m: Memory, l: Layout, start: int, k: int) {
    && 0 < start && |m| < WORD && l.brk <= |m|
    && Tiled(l.sz, start, l.brk) && Listed(l.sz, l.fl)
    && Headers(m, l.sz) && LinksBut(m, l.fl, k)
  }

  lemma PartialEntry(m: Memory, l: Layout, start: int, k: int, i: nat)
    requires Partial(m, l, start, k) && i < |l.fl|
    ensures l.fl[i] in l.sz && l.fl[i] in l.fl && start <= l.fl[i] && MIN <= l.sz[l.fl[i]]
    ensures l.fl[i] + 4 <= End(l.sz, l.fl[i]) <= l.brk
    ensures Word(m, l.fl[i]) == l.sz[l.fl[i]]
    ensures i != k ==> Word(m, l.fl[i] + 2) == Link(l.fl, i + 1)
  {
    assert l.fl[i] in l.fl;
    assert i == k || Linked(m, l.fl, i);
  }

  lemma CompletePartial(m: Memory, l: Layout, start: int, k: nat)
    requires Partial(m, l, start, k) && k < |l.fl|
    ensures 0 < l.fl[k] && l.fl[k] + 4 <= |m| && 0 <= Link(l.fl, k + 1) < WORD
    ensures Partial(PutWord(m, l.fl[k] + 2, Link(l.fl, k + 1)), l, start, -1)
  {
    PartialEntry(m, l, start, k, k);
    if k + 1 < |l.fl| { PartialEntry(m, l, start, k, k + 1); }
    FreeGaps(l, start, 0);
    CompleteLinks(m, l.fl, 0, k);
    NodeClear(l.sz, start, l.brk, l.fl[k]);
    HeadersAside(m, l.sz, l.fl[k] + 2, Link(l.fl, k + 1));
  }

  lemma PartialGood(m: Memory, l: Layout, start: int)
    requires Partial(m, l, start, -1) && Ok(l, start)
    ensures Good(m, Link(l.fl, 0), l, start)
  {
    forall i ensures Linked(m, l.fl, i) {
      assert i == -1 || Linked(m, l.fl, i);
    }
  }
}
