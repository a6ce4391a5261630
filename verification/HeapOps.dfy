/** malloc, free and realloc on layouts, and why each keeps the layout in order. */
module HeapOps {
  import opened HeapLayout

  function Without(fl: seq<int>, i: nat): seq<int>
    requires i < |fl|
  {
    fl[..i] + fl[i + 1..]
  }

  function InsertAt(fl: seq<int>, i: nat, a: int): seq<int>
    requires i <= |fl|
  {
    fl[..i] + [a] + fl[i..]
  }

  /** Where free's search stops: the first entry that is not below a. */
  function Pos(fl: seq<int>, a: int): (i: nat)
    ensures i <= |fl|
    ensures forall j :: 0 <= j < i ==> fl[j] < a
    ensures i < |fl| ==> a <= fl[i]
  {
    if fl == [] || a <= fl[0] then 0 else 1 + Pos(fl[1..], a)
  }

  /** The address of entry i of the free list, or NULL behind its end. */
  function Link(fl: seq<int>, i: int): int {
    if 0 <= i < |fl| then fl[i] else 0
  }

  lemma WithoutFacts(fl: seq<int>, i: nat)
    requires Ascending(fl) && i < |fl|
    ensures Ascending(Without(fl, i))
    ensures forall x :: x in Without(fl, i) <==> x in fl && x != fl[i]
  {
    var fl' := Without(fl, i);
    forall x | x in fl && x != fl[i] ensures x in fl' {
      var j :| 0 <= j < |fl| && fl[j] == x;
      assert fl'[if j < i then j else j - 1] == x;
    }
  }

  lemma InsertSeq(fl: seq<int>, i: nat, a: int)
    requires Ascending(fl) && i <= |fl|
    requires (i > 0 ==> fl[i - 1] < a) && (i < |fl| ==> a < fl[i])
    ensures Ascending(InsertAt(fl, i, a))
    ensures forall x :: x in InsertAt(fl, i, a) <==> x in fl || x == a
  {
    var fl' := InsertAt(fl, i, a);
    assert fl'[i] == a;
    forall x | x in fl ensures x in fl' {
      var j :| 0 <= j < |fl| && fl[j] == x;
      assert fl'[if j < i then j else j + 1] == x;
    }
    forall u, v | 0 <= u < v < |fl'| ensures fl'[u] < fl'[v] {
      if u < i { assert fl'[u] == fl[u] && (u < i - 1 ==> fl[u] < fl[i - 1]); }
      if v > i { assert fl'[v] == fl[v - 1] && (i < v - 1 ==> fl[i] < fl[v - 1]); }
    }
  }

  lemma InsertFacts(fl: seq<int>, a: int)
    requires Ascending(fl) && a !in fl
    ensures Ascending(InsertAt(fl, Pos(fl, a), a))
    ensures forall x :: x in InsertAt(fl, Pos(fl, a), a) <==> x in fl || x == a
  {
    InsertSeq(fl, Pos(fl, a), a);
  }

  // ---------------------------------------------------------------- malloc

  /** Index i holds a smallest sufficient free chunk, and the lowest-addressed of those. */
  ghost predicate BestFit(l: Layout, len: int, i: nat) {
    && i < |l.fl| && len <= Size(l.sz, l.fl[i])
    && (forall j :: 0 <= j < |l.fl| && len <= Size(l.sz, l.fl[j]) ==> Size(l.sz, l.fl[i]) <= Size(l.sz, l.fl[j]))
    && (forall j :: 0 <= j < i && len <= Size(l.sz, l.fl[j]) ==> Size(l.sz, l.fl[i]) < Size(l.sz, l.fl[j]))
  }

  /** malloc's search after k entries: s is the least size above len seen so far and i
      the first entry of that size, and no entry had exactly len bytes. */
  ghost predicate Scanned(l: Layout, len: int, k: nat, s: int, i: int) {
    && k <= |l.fl|
    && (forall j :: 0 <= j < k ==> Size(l.sz, l.fl[j]) != len)
    && (if s == 0 then forall j :: 0 <= j < k ==> Size(l.sz, l.fl[j]) < len
        else && 0 <= i < k && s == Size(l.sz, l.fl[i]) && len < s
             && (forall j :: 0 <= j < k && len <= Size(l.sz, l.fl[j]) ==> s <= Size(l.sz, l.fl[j]))
             && (forall j :: 0 <= j < i && len <= Size(l.sz, l.fl[j]) ==> s < Size(l.sz, l.fl[j])))
  }

  lemma ScanStep(l: Layout, len: int, k: nat, s: int, i: int)
    requires Scanned(l, len, k, s, i) && k < |l.fl| && Size(l.sz, l.fl[k]) != len && MIN <= len
    ensures var n := Size(l.sz, l.fl[k]); var better := n > len && (s == 0 || n < s);
      Scanned(l, len, k + 1, if better then n else s, if better then k else i)
  {
  }

  lemma ScanEnd(l: Layout, len: int, k: nat, s: int, i: int)
    requires Scanned(l, len, k, s, i)
    ensures k == |l.fl| && s == 0 ==> forall j :: 0 <= j < |l.fl| ==> Size(l.sz, l.fl[j]) < len
    ensures k == |l.fl| && s != 0 ==> i >= 0 && BestFit(l, len, i)
    ensures k < |l.fl| && Size(l.sz, l.fl[k]) == len ==> BestFit(l, len, k)
  {
  }

  /** A free chunk given away whole. */
  function Take(l: Layout, i: nat): Layout
    requires i < |l.fl|
  {
    l.(fl := Without(l.fl, i))
  }

  /** The upper len bytes of a free chunk given away, with a header of their own. */
  function Split(l: Layout, i: nat, len: int): Layout
    requires i < |l.fl| && l.fl[i] in l.sz
  {
    l.(sz := Cut(l.sz, l.fl[i], l.sz[l.fl[i]] - len - HDR))
  }

  function Extend(l: Layout, len: int): Layout {
    Layout(l.sz[l.brk := len], l.fl, l.brk + HDR + len)
  }

  lemma TakeOk(l: Layout, start: int, i: nat)
    requires Ok(l, start) && i < |l.fl|
    ensures Ok(Take(l, i), start)
  {
    WithoutFacts(l.fl, i);
    var l' := Take(l, i);
    forall a ensures Clear(l'.sz, l'.fl, l'.brk, a) {
      assert Clear(l.sz, l.fl, l.brk, a);
    }
  }

  lemma SplitOk(l: Layout, start: int, i: nat, len: int)
    requires Ok(l, start) && i < |l.fl| && MIN <= len
    requires l.fl[i] in l.sz && NODE <= l.sz[l.fl[i]] - len
    ensures var a := l.fl[i] + l.sz[l.fl[i]] - len; a !in l.sz && Ok(Split(l, i, len), start) && Live(Split(l, i, len), a)
  {
    var c := l.fl[i];
    var n := l.sz[c] - len - HDR;
    CutTiled(l.sz, start, l.brk, c, n);
    CutListed(l, start, c, n, Cut(l.sz, c, n));
  }

  lemma CutListed(l: Layout, start: int, c: int, n: int, sz: Sizes)
    requires Ok(l, start) && c in l.fl && c in l.sz && MIN <= n <= l.sz[c] - HDR && c + HDR + n !in l.sz
    requires sz == Cut(l.sz, c, n)
    ensures Listed(sz, l.fl) && Apart(sz, l.fl, l.brk) && c + HDR + n in sz && c + HDR + n !in l.fl
  {
    forall a ensures Clear(sz, l.fl, l.brk, a) {
      assert Clear(l.sz, l.fl, l.brk, a);
    }
  }

  lemma ExtendOk(l: Layout, start: int, len: int)
    requires Ok(l, start) && MIN <= len
    ensures l.brk !in l.sz && Ok(Extend(l, len), start)
  {
    RaiseTiled(l.sz, start, l.brk, len);
    var l' := Extend(l, len);
    forall a ensures Clear(l'.sz, l'.fl, l'.brk, a) {
      assert Clear(l.sz, l.fl, l.brk, a);
    }
  }

  /** Entry i of the free list serves a request of n bytes. */
  ghost predicate Serves(l: Layout, i: nat, n: int, l': Layout, p: int)
    requires i < |l.fl|
  {
    if Size(l.sz, l.fl[i]) - n < NODE then l' == Take(l, i) && p == l.fl[i] + HDR
    else l.fl[i] in l.sz && l' == Split(l, i, n) && p == l.fl[i] + Size(l.sz, l.fl[i]) - n + HDR
  }

  predicate Fits(l: Layout, n: int) {
    exists j :: 0 <= j < |l.fl| && n <= Size(l.sz, l.fl[j])
  }

  /** malloc for n bytes: the best-fitting free chunk, else new room above the break,
      else nothing. */
  ghost predicate Placed(l: Layout, end: int, n: int, l': Layout, p: int) {
    if Fits(l, n) then exists i: nat :: BestFit(l, n, i) && Serves(l, i, n, l', p)
    else if l.brk + HDR + n <= end then l' == Extend(l, n) && p == l.brk + HDR
    else l' == l && p == 0
  }

  /** The best-fitting chunk is unique, so `Placed` fixes layout and address. */
  lemma BestFitUnique(l: Layout, n: int, i: nat, j: nat)
    requires BestFit(l, n, i) && BestFit(l, n, j)
    ensures i == j
  {
    assert i < j || j < i || i == j;
  }

  lemma PlacedDetermined(l: Layout, end: int, n: int, l1: Layout, p1: int, l2: Layout, p2: int)
    requires Placed(l, end, n, l1, p1) && Placed(l, end, n, l2, p2)
    ensures l1 == l2 && p1 == p2
  {
    if Fits(l, n) {
      var i: nat :| BestFit(l, n, i) && Serves(l, i, n, l1, p1);
      var j: nat :| BestFit(l, n, j) && Serves(l, j, n, l2, p2);
      BestFitUnique(l, n, i, j);
    }
  }

  /** A granted request is a new live block of at least n bytes; all others stay. */
  ghost predicate Granted(l: Layout, n: int, l': Layout, a: int, x: int) {
    && Live(l', a) && !Live(l, a) && n <= Size(l'.sz, a)
    && (x != a ==> (Live(l', x) <==> Live(l, x)) && (Live(l, x) ==> Size(l'.sz, x) == Size(l.sz, x)))
  }

  lemma ServesBlocks(l: Layout, start: int, i: nat, n: int, l': Layout, p: int, x: int)
    requires Ok(l, start) && MIN <= n && BestFit(l, n, i) && Serves(l, i, n, l', p)
    ensures Granted(l, n, l', p - HDR, x) && start + HDR <= p
  {
    assert l.fl[i] in l.fl;
    if Size(l.sz, l.fl[i]) - n < NODE {
      WithoutFacts(l.fl, i);
    } else {
      SplitOk(l, start, i, n);
    }
  }

  lemma PlacedBlocks(l: Layout, start: int, end: int, n: int, l': Layout, p: int, x: int)
    requires Ok(l, start) && 0 < start && MIN <= n && Placed(l, end, n, l', p)
    ensures p == 0 ==> l' == l && !Fits(l, n) && end < l.brk + HDR + n
    ensures p != 0 ==> Granted(l, n, l', p - HDR, x)
  {
    if Fits(l, n) {
      var i: nat :| BestFit(l, n, i) && Serves(l, i, n, l', p);
      ServesBlocks(l, start, i, n, l', p, x);
    } else if l.brk + HDR + n <= end {
      ExtendOk(l, start, n);
    }
  }

  // ---------------------------------------------------------------- free

  function Insert(l: Layout, a: int): Layout {
    l.(fl := InsertAt(l.fl, Pos(l.fl, a), a))
  }

  /** Entry j swallows entry j + 1 of the free list if that is the chunk behind it. */
  function Merge(l: Layout, j: nat): (r: Layout)
    ensures |l.fl| - 1 <= |r.fl|
  {
    if j + 1 < |l.fl| && l.fl[j] in l.sz && l.fl[j + 1] in l.sz && End(l.sz, l.fl[j]) == l.fl[j + 1]
    then Layout(Join(l.sz, l.fl[j]), Without(l.fl, j + 1), l.brk)
    else l
  }

  /** A last free chunk that touches the break goes back below it. */
  function Trim(l: Layout): Layout {
    if l.fl != [] && End(l.sz, l.fl[|l.fl| - 1]) == l.brk
    then var a := l.fl[|l.fl| - 1]; Layout(l.sz - {a}, l.fl[..|l.fl| - 1], a)
    else l
  }

  /** No free chunk follows free chunk a. */
  predicate Alone(sz: Sizes, fl: seq<int>, a: int) {
    a in fl ==> End(sz, a) !in fl
  }

  /** Ordered and tiled, and apart except that the entries in p may touch their
      successors, and the last entry the break. */
  ghost predicate Nearly(l: Layout, start: int, p: set<int>) {
    && Tiled(l.sz, start, l.brk) && Ordered(l.sz, l.fl)
    && (forall a {:trigger Alone(l.sz, l.fl, a)} :: a in p || Alone(l.sz, l.fl, a))
  }

  lemma NextEntry(l: Layout, start: int, j: nat)
    requires Tiled(l.sz, start, l.brk) && Ordered(l.sz, l.fl) && j < |l.fl|
    ensures l.fl[j] in l.sz
    ensures End(l.sz, l.fl[j]) in l.fl <==> j + 1 < |l.fl| && End(l.sz, l.fl[j]) == l.fl[j + 1]
  {
    var a := l.fl[j];
    assert a in l.fl;
    if End(l.sz, a) in l.fl {
      var i :| 0 <= i < |l.fl| && l.fl[i] == End(l.sz, a);
      assert j < i;
      assert l.fl[j + 1] in l.fl;
    }
  }

  /** Before the new entry only its list predecessor can touch it. */
  lemma InsertNearly(l: Layout, start: int, a: int, j: nat)
    requires Ok(l, start) && Live(l, a) && j <= |l.fl|
    requires (j > 0 ==> l.fl[j - 1] < a) && (j < |l.fl| ==> a < l.fl[j])
    ensures var l' := l.(fl := InsertAt(l.fl, j, a));
      Nearly(l', start, (if j == 0 then {} else {l.fl[j - 1]}) + {a})
  {
    InsertSeq(l.fl, j, a);
    var l' := l.(fl := InsertAt(l.fl, j, a));
    assert l'.fl[j] == a && (j > 0 ==> l'.fl[j - 1] == l.fl[j - 1]);
    forall x | x !in (if j == 0 then {} else {l.fl[j - 1]}) + {a} ensures Alone(l'.sz, l'.fl, x) {
      assert Clear(l.sz, l.fl, l.brk, x);
      if x in l.fl && End(l.sz, x) == a { BeforeEntry(l', start, x, j); }
    }
  }

  /** An entry that ends where entry j begins is entry j - 1. */
  lemma BeforeEntry(l: Layout, start: int, x: int, j: nat)
    requires Tiled(l.sz, start, l.brk) && Ordered(l.sz, l.fl) && j < |l.fl| && x in l.fl && End(l.sz, x) == l.fl[j]
    ensures j > 0 && l.fl[j - 1] == x
  {
    var i :| 0 <= i < |l.fl| && l.fl[i] == x;
    NextEntry(l, start, i);
    assert l.fl[j] in l.fl;
    assert l.fl[i + 1] == l.fl[j];
    assert i + 1 == j;
  }

  /** The free list of a merged heap. */
  lemma MergeOrdered(l: Layout, start: int, j: nat)
    requires Tiled(l.sz, start, l.brk) && Ordered(l.sz, l.fl)
    requires j + 1 < |l.fl| && End(l.sz, l.fl[j]) == l.fl[j + 1]
    ensures l.fl[j] in l.sz && l.fl[j + 1] in l.sz
    ensures var l' := Merge(l, j);
      && Tiled(l'.sz, start, l'.brk) && Ordered(l'.sz, l'.fl)
      && (forall x :: x in l'.fl <==> x in l.fl && x != l.fl[j + 1])
      && (forall x :: x in l.fl && x != l.fl[j] && x != l.fl[j + 1] ==> End(l'.sz, x) == End(l.sz, x))
      && End(l'.sz, l.fl[j]) == End(l.sz, l.fl[j + 1])
  {
    assert l.fl[j] in l.fl && l.fl[j + 1] in l.fl;
    JoinTiled(l.sz, start, l.brk, l.fl[j]);
    WithoutFacts(l.fl, j + 1);
  }

  /** Merging entry j with its successor settles entry j. */
  lemma MergeNearly(l: Layout, start: int, j: nat, p: set<int>)
    requires j < |l.fl| && Nearly(l, start, p + {l.fl[j]})
    requires j + 1 < |l.fl| ==> l.fl[j + 1] !in p
    ensures Nearly(Merge(l, j), start, p)
    ensures j < |Merge(l, j).fl| && Merge(l, j).fl[..j + 1] == l.fl[..j + 1]
  {
    NextEntry(l, start, j);
    var a := l.fl[j];
    if j + 1 < |l.fl| && End(l.sz, a) == l.fl[j + 1] {
      MergeOrdered(l, start, j);
      var b, l' := l.fl[j + 1], Merge(l, j);
      assert b in l.fl && Alone(l.sz, l.fl, b);
      forall x | x !in p ensures Alone(l'.sz, l'.fl, x) {
        assert x == a || Alone(l.sz, l.fl, x);
      }
    } else if j + 1 < |l.fl| {
      assert l.fl[j + 1] in l.fl;
    }
  }

  lemma TrimApart(l: Layout, start: int)
    requires Nearly(l, start, {})
    ensures var l' := Trim(l); Tiled(l'.sz, start, l'.brk) && Ordered(l'.sz, l'.fl) && Apart(l'.sz, l'.fl, l'.brk)
  {
    var l' := Trim(l);
    if l.fl != [] {
      var n := |l.fl| - 1;
      var a := l.fl[n];
      assert a in l.fl;
      if End(l.sz, a) == l.brk {
        LowerTiled(l.sz, start, l.brk, a);
        assert l'.fl == Without(l.fl, n);
        WithoutFacts(l.fl, n);
        forall x ensures Clear(l'.sz, l'.fl, l'.brk, x) {
          assert Alone(l.sz, l.fl, x);
        }
      } else {
        forall x ensures Clear(l.sz, l.fl, l.brk, x) {
          assert Alone(l.sz, l.fl, x);
          if x in l.fl { assert x == a || x < a; }
        }
      }
    }
  }

  /** free, before it lowers the break: insert, merge upwards, merge downwards. */
  function Joined(l: Layout, a: int): Layout {
    var j := Pos(l.fl, a);
    var l1 := Merge(Insert(l, a), j);
    if j == 0 then l1 else Merge(l1, j - 1)
  }

  function Free(l: Layout, a: int): Layout {
    Trim(Joined(l, a))
  }

  /** From the list with the new entry at j to the merged one. */
  lemma MergedNearly(l: Layout, start: int, a: int, j: nat)
    requires j < |l.fl| && l.fl[j] == a && Nearly(l, start, (if j == 0 then {} else {l.fl[j - 1]}) + {a})
    ensures var l1 := Merge(l, j); Nearly(if j == 0 then l1 else Merge(l1, j - 1), start, {})
  {
    if j == 0 {
      MergeNearly(l, start, 0, {});
    } else {
      var q := l.fl[j - 1];
      MergeNearly(l, start, j, {q});
      var l1 := Merge(l, j);
      assert l1.fl[j - 1] == l1.fl[..j + 1][j - 1] == q && l1.fl[j] == l1.fl[..j + 1][j] == a;
      assert {} + {q} == {q};
      MergeNearly(l1, start, j - 1, {});
    }
  }

  lemma JoinedNearly(l: Layout, start: int, a: int)
    requires Ok(l, start) && Live(l, a)
    ensures Nearly(Joined(l, a), start, {})
  {
    var j := Pos(l.fl, a);
    InsertNearly(l, start, a, j);
    MergedNearly(Insert(l, a), start, a, j);
  }

  // ---------------------------------------------------------------- chunks too small for the list

  /** The freed chunk goes back below the break, or becomes part of a free neighbour. */
  ghost predicate Absorbed(l: Layout, a: int) {
    End(l.sz, a) == l.brk || HasNeighbour(l, a)
  }

  ghost predicate HasNeighbour(l: Layout, a: int) {
    End(l.sz, a) in l.fl || exists x :: x in l.fl && End(l.sz, x) == a
  }

  /** No chunk that is too small for a list entry becomes one. */
  ghost predicate Settles(l: Layout, a: int) {
    MIN <= Size(l.sz, a) || Absorbed(l, a)
  }

  /** All entries but a can hold a list entry. */
  ghost predicate Spaced(l: Layout, a: int) {
    forall x :: x in l.fl ==> x in l.sz && (x == a || MIN <= l.sz[x])
  }

  predicate Short(l: Layout, a: int) {
    a in l.fl && Size(l.sz, a) < MIN
  }

  lemma MergeSpaced(l: Layout, start: int, j: nat, a: int)
    requires Tiled(l.sz, start, l.brk) && Ordered(l.sz, l.fl) && Spaced(l, a) && j < |l.fl|
    ensures Spaced(Merge(l, j), a)
  {
    if j + 1 < |l.fl| && End(l.sz, l.fl[j]) == l.fl[j + 1] { MergeOrdered(l, start, j); }
  }

  lemma InsertSpaced(l: Layout, start: int, a: int)
    requires Ok(l, start) && Live(l, a)
    ensures var r := Insert(l, a); Spaced(r, a) && Tiled(r.sz, start, r.brk) && Ordered(r.sz, r.fl) && r.fl[Pos(l.fl, a)] == a
    ensures forall x :: x in Insert(l, a).fl <==> x in l.fl || x == a
  {
    InsertFacts(l.fl, a);
  }

  /** The entry above a is the chunk behind it exactly if that is free at all. */
  lemma UpMerges(l: Layout, start: int, a: int, j: nat)
    requires Ok(l, start) && Live(l, a) && j == Pos(l.fl, a)
    ensures if End(l.sz, a) in l.fl
            then j < |l.fl| && l.fl[j] == End(l.sz, a) && a in Merge(Insert(l, a), j).sz && MIN <= Merge(Insert(l, a), j).sz[a]
            else Merge(Insert(l, a), j) == Insert(l, a)
    ensures var l1 := Merge(Insert(l, a), j);
      && Tiled(l1.sz, start, l1.brk) && Ordered(l1.sz, l1.fl) && Spaced(l1, a) && j < |l1.fl| && l1.fl[j] == a
      && (j > 0 ==> l1.fl[j - 1] == l.fl[j - 1] && End(l1.sz, l.fl[j - 1]) == End(l.sz, l.fl[j - 1]))
  {
    var r := Insert(l, a);
    InsertSpaced(l, start, a);
    NextEntry(r, start, j);
    MergeSpaced(r, start, j, a);
    assert j < |l.fl| ==> r.fl[j + 1] == l.fl[j];
    assert j > 0 ==> r.fl[j - 1] == l.fl[j - 1] && l.fl[j - 1] in l.fl;
    if End(l.sz, a) in l.fl { MergeOrdered(r, start, j); }
  }

  /** So is the entry below, the other way round. */
  lemma DownMerges(l: Layout, start: int, a: int, j: nat)
    requires Ok(l, start) && Live(l, a) && j == Pos(l.fl, a)
    ensures (exists x :: x in l.fl && End(l.sz, x) == a) <==> j > 0 && End(l.sz, l.fl[j - 1]) == a
  {
    InsertSpaced(l, start, a);
    if x :| x in l.fl && End(l.sz, x) == a {
      BeforeEntry(Insert(l, a), start, x, j);
      assert Insert(l, a).fl[j - 1] == l.fl[j - 1];
    }
    assert j > 0 ==> l.fl[j - 1] in l.fl;
  }

  /** An entry too small for the list remains exactly if there was nothing to merge. */
  lemma JoinedShort(l: Layout, start: int, a: int)
    requires Ok(l, start) && Live(l, a)
    ensures Spaced(Joined(l, a), a)
    ensures Short(Joined(l, a), a) <==> l.sz[a] < MIN && !HasNeighbour(l, a)
    ensures Short(Joined(l, a), a) ==> Joined(l, a) == Insert(l, a) && End(l.sz, a) !in l.fl
  {
    var j := Pos(l.fl, a);
    var l1 := Merge(Insert(l, a), j);
    UpMerges(l, start, a, j);
    DownMerges(l, start, a, j);
    assert l1.fl[j] in l1.fl;
    if j > 0 { DownShort(l1, start, a, j); }
  }

  /** Merging entry j into the one before it. */
  lemma DownShort(l: Layout, start: int, a: int, j: nat)
    requires Tiled(l.sz, start, l.brk) && Ordered(l.sz, l.fl) && Spaced(l, a) && 0 < j < |l.fl| && l.fl[j] == a
    ensures Spaced(Merge(l, j - 1), a)
    ensures if End(l.sz, l.fl[j - 1]) == a then a !in Merge(l, j - 1).fl else Merge(l, j - 1) == l
  {
    MergeSpaced(l, start, j - 1, a);
    assert l.fl[j - 1] in l.fl && l.fl[j] in l.fl;
    if End(l.sz, l.fl[j - 1]) == a { MergeOrdered(l, start, j - 1); }
  }

  /** Some free chunk touches the break. */
  ghost predicate Topmost(l: Layout) {
    exists x :: x in l.fl && End(l.sz, x) == l.brk
  }

  lemma MergeTopmost(l: Layout, start: int, j: nat)
    requires Tiled(l.sz, start, l.brk) && Ordered(l.sz, l.fl) && j < |l.fl|
    ensures Topmost(Merge(l, j)) <==> Topmost(l)
    ensures Merge(l, j).brk == l.brk
  {
    if j + 1 < |l.fl| && End(l.sz, l.fl[j]) == l.fl[j + 1] {
      MergeOrdered(l, start, j);
      var l' := Merge(l, j);
      assert l.fl[j] in l.fl && l.fl[j + 1] in l.fl;
      if x :| x in l.fl && End(l.sz, x) == l.brk { assert End(l'.sz, if x == l.fl[j + 1] then l.fl[j] else x) == l.brk; }
      if x :| x in l'.fl && End(l'.sz, x) == l.brk { assert End(l.sz, if x == l.fl[j] then l.fl[j + 1] else x) == l.brk; }
    }
  }

  /** free lowers the break exactly if the chunk touches it. */
  lemma JoinedTopmost(l: Layout, start: int, a: int)
    requires Ok(l, start) && Live(l, a)
    ensures Topmost(Joined(l, a)) <==> End(l.sz, a) == l.brk
    ensures Joined(l, a).brk == l.brk
  {
    var r, j := Insert(l, a), Pos(l.fl, a);
    InsertSpaced(l, start, a);
    forall x | x in l.fl ensures End(l.sz, x) != l.brk { assert Clear(l.sz, l.fl, l.brk, x); }
    assert a in r.fl;
    MergeTopmost(r, start, j);
    UpMerges(l, start, a, j);
    if j > 0 { MergeTopmost(Merge(r, j), start, j - 1); }
  }

  /** A free chunk that touches the break is the last one. */
  lemma TopmostIsLast(l: Layout, start: int)
    requires Tiled(l.sz, start, l.brk) && Ordered(l.sz, l.fl)
    ensures Topmost(l) <==> l.fl != [] && End(l.sz, l.fl[|l.fl| - 1]) == l.brk
  {
    if x :| x in l.fl && End(l.sz, x) == l.brk {
      var z := l.fl[|l.fl| - 1];
      assert z in l.fl;
      assert x == z || x < z;
    }
    assert l.fl != [] ==> l.fl[|l.fl| - 1] in l.fl;
  }

  lemma ListedUnlessShort(l: Layout, a: int)
    requires Ordered(l.sz, l.fl) && Spaced(l, a)
    ensures Listed(l.sz, l.fl) <==> !Short(l, a)
  {
  }

  lemma TrimShort(l: Layout, start: int, a: int, n: nat)
    requires Tiled(l.sz, start, l.brk) && Ordered(l.sz, l.fl) && Spaced(l, a) && n == |l.fl| - 1 && End(l.sz, l.fl[n]) == l.brk
    ensures var l' := Trim(l); Ordered(l'.sz, l'.fl) && Spaced(l', a) && (Short(l', a) <==> Short(l, a) && a != l.fl[n])
    ensures a in l.fl ==> (End(l.sz, a) == l.brk <==> a == l.fl[n])
  {
    assert l.fl[..n] == Without(l.fl, n);
    WithoutFacts(l.fl, n);
    var z := l.fl[n];
    assert z in l.fl;
    assert a in l.fl ==> a == z || a < z || z < a;
  }

  lemma TrimListed(l: Layout, start: int, a: int)
    requires Tiled(l.sz, start, l.brk) && Ordered(l.sz, l.fl) && Spaced(l, a)
    ensures Listed(Trim(l).sz, Trim(l).fl) <==> !(Short(l, a) && End(l.sz, a) != l.brk)
  {
    TopmostIsLast(l, start);
    if l.fl != [] && End(l.sz, l.fl[|l.fl| - 1]) == l.brk {
      TrimShort(l, start, a, |l.fl| - 1);
      ListedUnlessShort(Trim(l), a);
    } else {
      ListedUnlessShort(l, a);
    }
  }

  /** free keeps the heap in order exactly if it puts no chunk on the list that is too
      small for a list entry. */
  lemma FreeOk(l: Layout, start: int, a: int)
    requires Ok(l, start) && Live(l, a)
    ensures Ok(Free(l, a), start) <==> Settles(l, a)
  {
    JoinedNearly(l, start, a);
    JoinedShort(l, start, a);
    JoinedTopmost(l, start, a);
    TrimApart(Joined(l, a), start);
    TrimListed(Joined(l, a), start, a);
  }

  // ---------------------------------------------------------------- what free does to blocks

  /** Every other live block keeps its address and size, and no block appears. */
  ghost predicate SameBlocks(l: Layout, l': Layout, gone: set<int>) {
    forall x {:trigger Live(l', x)} ::
      (Live(l', x) <==> Live(l, x) && x !in gone) && (Live(l', x) ==> Size(l'.sz, x) == Size(l.sz, x))
  }

  lemma MergeBlocks(l: Layout, start: int, j: nat)
    requires Tiled(l.sz, start, l.brk) && Ordered(l.sz, l.fl) && j < |l.fl|
    ensures SameBlocks(l, Merge(l, j), {})
  {
    if j + 1 < |l.fl| {
      WithoutFacts(l.fl, j + 1);
      assert l.fl[j] in l.fl && l.fl[j + 1] in l.fl;
      assert j + 1 != j && l.fl[j] != l.fl[j + 1];
    }
  }

  lemma TrimBlocks(l: Layout)
    requires Ascending(l.fl)
    ensures SameBlocks(l, Trim(l), {})
  {
    if l.fl != [] {
      WithoutFacts(l.fl, |l.fl| - 1);
      assert l.fl[..|l.fl| - 1] == Without(l.fl, |l.fl| - 1);
    }
  }

  /** free(p) ends exactly the block at p. */
  lemma FreeBlocks(l: Layout, start: int, a: int)
    requires Ok(l, start) && Live(l, a)
    ensures SameBlocks(l, Free(l, a), {a})
  {
    var r, j := Insert(l, a), Pos(l.fl, a);
    InsertSpaced(l, start, a);
    MergeBlocks(r, start, j);
    UpMerges(l, start, a, j);
    DownBlocks(Merge(r, j), start, j);
    JoinedNearly(l, start, a);
    TrimBlocks(Joined(l, a));
    SameFrom(l, r, Merge(r, j), Joined(l, a), Free(l, a), a);
  }

  lemma DownBlocks(l: Layout, start: int, j: nat)
    requires Tiled(l.sz, start, l.brk) && Ordered(l.sz, l.fl) && j < |l.fl|
    ensures SameBlocks(l, if j == 0 then l else Merge(l, j - 1), {})
  {
    if j > 0 { MergeBlocks(l, start, j - 1); }
  }

  lemma SameFrom(l: Layout, r: Layout, l1: Layout, l2: Layout, l': Layout, a: int)
    requires SameBlocks(r, l1, {}) && SameBlocks(l1, l2, {}) && SameBlocks(l2, l', {})
    requires r.sz == l.sz && forall x :: x in r.fl <==> x in l.fl || x == a
    ensures SameBlocks(l, l', {a})
  {
    forall x ensures (Live(l', x) <==> Live(l, x) && x !in {a}) && (Live(l', x) ==> Size(l'.sz, x) == Size(l.sz, x)) {
      assert Live(l2, x) <==> Live(l1, x);
      assert Live(l1, x) <==> Live(r, x);
    }
  }

  lemma FreeKeeps(l: Layout, start: int, a: int)
    requires Ok(l, start) && Live(l, a) && Settles(l, a)
    ensures Ok(Free(l, a), start) && SameBlocks(l, Free(l, a), {a})
  {
    FreeOk(l, start, a);
    FreeBlocks(l, start, a);
  }

  /** Once every block has been freed, the free list is empty and the break is back. */
  lemma AllFreed(l: Layout, start: int)
    requires Ok(l, start) && forall a :: a in l.sz ==> !Live(l, a)
    ensures l.fl == [] && l.sz == map[] && l.brk == start
  {
    assert l.fl != [] ==> l.fl[0] in l.fl && l.fl[0] in l.sz;
    assert Clear(l.sz, l.fl, l.brk, start) && Followed(l.sz, l.brk, start);
    assert start in l.sz ==> !Live(l, start) && !Live(l, End(l.sz, start));
    assert start == l.brk;
    forall a ensures a !in l.sz {
      assert a in l.sz ==> End(l.sz, a) <= start <= a;
    }
  }

  // ---------------------------------------------------------------- realloc

  /** A live chunk may be cut into two live chunks. */
  lemma CutLiveOk(l: Layout, start: int, a: int, n: int)
    requires Ok(l, start) && Live(l, a) && 0 <= n <= l.sz[a] - HDR
    ensures var l' := l.(sz := Cut(l.sz, a, n)); var b := a + HDR + n;
      && Ok(l', start) && b !in l.sz && Live(l', a) && Live(l', b)
  {
    CutTiled(l.sz, start, l.brk, a, n);
    var l' := l.(sz := Cut(l.sz, a, n));
    forall x ensures Clear(l'.sz, l'.fl, l'.brk, x) {
      assert Clear(l.sz, l.fl, l.brk, x);
    }
  }

  /** A live chunk may swallow a live chunk behind it. */
  lemma JoinLiveOk(l: Layout, start: int, a: int)
    requires Ok(l, start) && Live(l, a) && Live(l, End(l.sz, a))
    ensures Ok(l.(sz := Join(l.sz, a)), start)
  {
    JoinTiled(l.sz, start, l.brk, a);
    var l' := l.(sz := Join(l.sz, a));
    forall x ensures Clear(l'.sz, l'.fl, l'.brk, x) {
      assert Clear(l.sz, l.fl, l.brk, x);
    }
  }

  /** Growing into all of the free chunk behind, which is entry i. */
  function GrowAll(l: Layout, a: int, i: nat): Layout
    requires i < |l.fl| && a in l.sz && End(l.sz, a) in l.sz
  {
    Layout(Join(l.sz, a), Without(l.fl, i), l.brk)
  }

  /** Growing into its lower part, with a new entry at b for the rest. */
  function GrowPart(l: Layout, a: int, i: nat, len: int, b: int, rest: int): Layout
    requires i < |l.fl|
  {
    Layout((l.sz - {l.fl[i]})[a := len][b := rest], l.fl[i := b], l.brk)
  }

  function GrowInto(l: Layout, a: int, i: nat, len: int): Layout
    requires i < |l.fl| && a in l.sz && End(l.sz, a) in l.sz
  {
    var rest := Size(l.sz, l.fl[i]) - (len - l.sz[a]);
    if rest + HDR > NODE then GrowPart(l, a, i, len, a + HDR + len, rest) else GrowAll(l, a, i)
  }

  lemma GrowAllOk(l: Layout, start: int, a: int, i: nat)
    requires Ok(l, start) && Live(l, a) && i < |l.fl| && End(l.sz, a) == l.fl[i]
    ensures l.fl[i] in l.sz && Ok(GrowAll(l, a, i), start)
  {
    assert l.fl[i] in l.fl;
    TakeOk(l, start, i);
    WithoutFacts(l.fl, i);
    JoinLiveOk(Take(l, i), start, a);
  }

  /** Replacing entry i by a nearby address keeps the order. */
  lemma ReplaceEntry(fl: seq<int>, i: nat, b: int)
    requires Ascending(fl) && i < |fl|
    requires fl[i] <= b && (i + 1 < |fl| ==> b < fl[i + 1])
    ensures Ascending(fl[i := b])
    ensures forall x :: x in fl[i := b] <==> x == b || (x in fl && x != fl[i])
  {
    var fl' := fl[i := b];
    assert fl'[i] == b;
    forall x | x in fl && x != fl[i] ensures x in fl' {
      var j :| 0 <= j < |fl| && fl[j] == x;
      assert fl'[j] == x;
    }
    forall x | x in fl' && x != b ensures x in fl && x != fl[i] {
      var j :| 0 <= j < |fl| && fl'[j] == x;
      assert fl[j] == x;
    }
  }

  lemma GrowPartOk(l: Layout, start: int, a: int, i: nat, len: int, b: int, rest: int)
    requires Ok(l, start) && Live(l, a) && i < |l.fl| && End(l.sz, a) == l.fl[i] && l.sz[a] < len
    requires b == a + HDR + len && rest == Size(l.sz, l.fl[i]) - (len - l.sz[a]) && NODE < rest + HDR
    ensures l.fl[i] in l.sz && Ok(GrowPart(l, a, i, len, b, rest), start)
  {
    var c := l.fl[i];
    assert c in l.fl;
    var l' := GrowPart(l, a, i, len, b, rest);
    GrowPartTiled(l.sz, start, l.brk, a, c, len, b, rest);
    assert i + 1 < |l.fl| ==> l.fl[i + 1] in l.fl && c < l.fl[i + 1];
    ReplaceEntry(l.fl, i, b);
    forall x ensures Clear(l'.sz, l'.fl, l'.brk, x) {
      assert Clear(l.sz, l.fl, l.brk, x) && Clear(l.sz, l.fl, l.brk, c);
      assert End(l'.sz, b) == End(l.sz, c);
    }
  }

  lemma GrowPartTiled(sz: Sizes, start: int, brk: int, a: int, c: int, len: int, b: int, rest: int)
    requires Tiled(sz, start, brk) && a in sz && c in sz && End(sz, a) == c && sz[a] < len
    requires b == a + HDR + len && rest == sz[c] - (len - sz[a]) && NODE < rest + HDR
    ensures Tiled((sz - {c})[a := len][b := rest], start, brk)
  {
    JoinTiled(sz, start, brk, a);
    var j := Join(sz, a);
    assert a in j && j[a] == len + HDR + rest;
    CutTiled(j, start, brk, a, len);
    JoinCut(sz, a, c, len, b, rest, j);
  }

  lemma JoinCut(sz: Sizes, a: int, c: int, len: int, b: int, rest: int, j: Sizes)
    requires a in sz && c in sz && j == (sz - {c})[a := len + HDR + rest] && b == a + HDR + len && a != c
    ensures a in j && (sz - {c})[a := len][b := rest] == Cut(j, a, len)
  {
  }

  lemma GrowIntoOk(l: Layout, start: int, a: int, i: nat, len: int)
    requires Ok(l, start) && Live(l, a) && i < |l.fl| && End(l.sz, a) == l.fl[i] && l.sz[a] < len
    requires len - l.sz[a] <= Size(l.sz, l.fl[i]) + HDR
    ensures l.fl[i] in l.sz && Ok(GrowInto(l, a, i, len), start)
  {
    assert l.fl[i] in l.fl;
    var rest := l.sz[l.fl[i]] - (len - l.sz[a]);
    if NODE < rest + HDR {
      GrowPartOk(l, start, a, i, len, a + HDR + len, rest);
    } else {
      GrowAllOk(l, start, a, i);
    }
  }

  /** Growing in place gives block a at least len bytes and changes no other block. */
  lemma GrowIntoBlocks(l: Layout, start: int, a: int, i: nat, len: int, x: int)
    requires Ok(l, start) && Live(l, a) && i < |l.fl| && End(l.sz, a) == l.fl[i] && l.sz[a] < len
    requires len - l.sz[a] <= Size(l.sz, l.fl[i]) + HDR
    ensures l.fl[i] in l.sz
    ensures Live(GrowInto(l, a, i, len), x) <==> Live(l, x)
    ensures x != a && Live(l, x) ==> Size(GrowInto(l, a, i, len).sz, x) == Size(l.sz, x)
    ensures len <= Size(GrowInto(l, a, i, len).sz, a)
  {
    var c, b := l.fl[i], a + HDR + len;
    assert c in l.fl;
    WithoutFacts(l.fl, i);
    if NODE < l.sz[c] + HDR - (len - l.sz[a]) {
      assert i + 1 < |l.fl| ==> l.fl[i + 1] in l.fl && c < l.fl[i + 1];
      ReplaceEntry(l.fl, i, b);
    }
  }

  /** Raising the break under the topmost block. */
  function GrowBreak(l: Layout, a: int, len: int): Layout {
    Layout(l.sz[a := len], l.fl, a + HDR + len)
  }

  lemma GrowBreakOk(l: Layout, start: int, a: int, len: int)
    requires Ok(l, start) && Live(l, a) && End(l.sz, a) == l.brk && l.sz[a] < len
    ensures Ok(GrowBreak(l, a, len), start)
  {
    GrowTiled(l.sz, start, l.brk, a, len);
    var l' := GrowBreak(l, a, len);
    forall x ensures Clear(l'.sz, l'.fl, l'.brk, x) {
      assert Clear(l.sz, l.fl, l.brk, x);
    }
  }
}
