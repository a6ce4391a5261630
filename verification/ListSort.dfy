/** The merge sort of clist as a function on sequences: passes over runs of doubling
    width, and why the last pass leaves a sorted list with equal elements in their old
    order. */
module ListSort {

  /** cmp(a, b) <= 0, the only question the sort asks. */
  predicate Le<T>(cmp: (T, T) -> int, a: T, b: T) {
    cmp(a, b) <= 0
  }

  function Lesser(a: int, b: int): int {
    if a < b then a else b
  }

  /** The merge of two runs; the first wins ties. */
  function Merge<T>(cmp: (T, T) -> int, a: seq<T>, b: seq<T>): (r: seq<T>)
    ensures |r| == |a| + |b|
    decreases |a| + |b|
  {
    if a == [] then b
    else if b == [] then a
    else if Le(cmp, a[0], b[0]) then [a[0]] + Merge(cmp, a[1..], b)
    else [b[0]] + Merge(cmp, a, b[1..])
  }

  /** One pass: the runs of width w are merged in pairs. */
  function PassOver<T>(cmp: (T, T) -> int, s: seq<T>, w: nat): (r: seq<T>)
    requires w > 0
    ensures |r| == |s|
    decreases |s|
  {
    if s == [] then []
    else
      var i, j := Lesser(w, |s|), Lesser(2 * w, |s|);
      Merge(cmp, s[..i], s[i..j]) + PassOver(cmp, s[j..], w)
  }

  /** Passes of doubling width until one pass is a single merge. */
  function Passes<T>(cmp: (T, T) -> int, s: seq<T>, w: nat): (r: seq<T>)
    requires w > 0
    ensures |r| == |s|
    decreases |s| - w
  {
    if |s| <= 2 * w then PassOver(cmp, s, w) else Passes(cmp, PassOver(cmp, s, w), 2 * w)
  }

  // ---------------------------------------------------------------- what sorting means

  ghost predicate Sorted<T>(cmp: (T, T) -> int, s: seq<T>) {
    forall i, j :: 0 <= i < j < |s| ==> Le(cmp, s[i], s[j])
  }

  /** cmp orders the elements of d: any two compare, and transitively. */
  ghost predicate Orders<T>(cmp: (T, T) -> int, d: set<T>) {
    && (forall a, b :: a in d && b in d ==> Le(cmp, a, b) || Le(cmp, b, a))
    && (forall a, b, c :: a in d && b in d && c in d && Le(cmp, a, b) && Le(cmp, b, c) ==> Le(cmp, a, c))
  }

  /** The elements of s that compare equal to x, in order. */
  function Class<T>(cmp: (T, T) -> int, s: seq<T>, x: T): seq<T> {
    if s == [] then []
    else (if Le(cmp, x, s[0]) && Le(cmp, s[0], x) then [s[0]] else []) + Class(cmp, s[1..], x)
  }

  ghost predicate Within<T>(s: seq<T>, d: set<T>) {
    forall i :: 0 <= i < |s| ==> s[i] in d
  }

  /** Every aligned run of width w is sorted. */
  ghost predicate Runs<T>(cmp: (T, T) -> int, s: seq<T>, w: nat)
    requires w > 0
    decreases |s|
  {
    s == [] || (Sorted(cmp, s[..Lesser(w, |s|)]) && Runs(cmp, s[Lesser(w, |s|)..], w))
  }

  lemma {:induction false} ClassJoin<T>(cmp: (T, T) -> int, a: seq<T>, b: seq<T>, x: T)
    ensures Class(cmp, a + b, x) == Class(cmp, a, x) + Class(cmp, b, x)
  {
    if a == [] {
      assert a + b == b;
    } else {
      assert (a + b)[1..] == a[1..] + b;
      ClassJoin(cmp, a[1..], b, x);
    }
  }

  /** Nothing in a sorted run equals x if its head is above an element equal to x. */
  lemma {:induction false} ClassEmpty<T>(cmp: (T, T) -> int, a: seq<T>, y: T, x: T, d: set<T>)
    requires Orders(cmp, d) && Within(a, d) && y in d && x in d && Le(cmp, y, x)
    requires forall i :: 0 <= i < |a| ==> !Le(cmp, a[i], y)
    requires Le(cmp, x, y)
    ensures Class(cmp, a, x) == []
  {
    if a != [] {
      assert a[0] in d && !Le(cmp, a[0], y);
      ClassEmpty(cmp, a[1..], y, x, d);
    }
  }

  lemma ConsNodes<T>(y: T, s: seq<T>)
    ensures multiset([y] + s) == multiset{y} + multiset(s)
  {
  }

  /** Merging keeps the nodes. */
  lemma {:induction false} MergeNodes<T>(cmp: (T, T) -> int, a: seq<T>, b: seq<T>)
    ensures multiset(Merge(cmp, a, b)) == multiset(a) + multiset(b)
    decreases |a| + |b|
  {
    if a != [] && b != [] {
      if Le(cmp, a[0], b[0]) {
        MergeNodes(cmp, a[1..], b);
        ConsNodes(a[0], Merge(cmp, a[1..], b));
        ConsNodes(a[0], a[1..]);
        assert a == [a[0]] + a[1..];
      } else {
        MergeNodes(cmp, a, b[1..]);
        ConsNodes(b[0], Merge(cmp, a, b[1..]));
        ConsNodes(b[0], b[1..]);
        assert b == [b[0]] + b[1..];
      }
    }
  }

  /** y is not above any element of s. */
  ghost predicate Below<T>(cmp: (T, T) -> int, y: T, s: seq<T>) {
    forall i :: 0 <= i < |s| ==> Le(cmp, y, s[i])
  }

  lemma {:induction false} MergeBelow<T>(cmp: (T, T) -> int, y: T, a: seq<T>, b: seq<T>)
    requires Below(cmp, y, a) && Below(cmp, y, b)
    ensures Below(cmp, y, Merge(cmp, a, b))
    decreases |a| + |b|
  {
    if a != [] && b != [] {
      if Le(cmp, a[0], b[0]) {
        MergeBelow(cmp, y, a[1..], b);
      } else {
        MergeBelow(cmp, y, a, b[1..]);
      }
    }
  }

  lemma SortedCons<T>(cmp: (T, T) -> int, y: T, s: seq<T>)
    requires Sorted(cmp, s) && Below(cmp, y, s)
    ensures Sorted(cmp, [y] + s)
  {
  }

  lemma SortedTail<T>(cmp: (T, T) -> int, s: seq<T>)
    requires Sorted(cmp, s) && s != []
    ensures Sorted(cmp, s[1..]) && Below(cmp, s[0], s[1..])
  {
  }

  /** Everything from the head of a sorted run on is above what its head is above. */
  lemma BelowRun<T>(cmp: (T, T) -> int, y: T, s: seq<T>, d: set<T>)
    requires Orders(cmp, d) && Within(s, d) && y in d && Sorted(cmp, s) && s != [] && Le(cmp, y, s[0])
    ensures Below(cmp, y, s)
  {
    forall i | 0 <= i < |s| ensures Le(cmp, y, s[i]) {
      assert s[0] in d && s[i] in d;
    }
  }

  lemma {:induction false} MergeSorted<T>(cmp: (T, T) -> int, a: seq<T>, b: seq<T>, d: set<T>)
    requires Orders(cmp, d) && Within(a, d) && Within(b, d) && Sorted(cmp, a) && Sorted(cmp, b)
    ensures Sorted(cmp, Merge(cmp, a, b))
    decreases |a| + |b|
  {
    if a != [] && b != [] {
      assert a[0] in d && b[0] in d;
      SortedTail(cmp, a);
      SortedTail(cmp, b);
      if Le(cmp, a[0], b[0]) {
        MergeSorted(cmp, a[1..], b, d);
        BelowRun(cmp, a[0], b, d);
        MergeBelow(cmp, a[0], a[1..], b);
        SortedCons(cmp, a[0], Merge(cmp, a[1..], b));
      } else {
        MergeSorted(cmp, a, b[1..], d);
        BelowRun(cmp, b[0], a, d);
        MergeBelow(cmp, b[0], a, b[1..]);
        SortedCons(cmp, b[0], Merge(cmp, a, b[1..]));
      }
    }
  }

  /** y, if it equals x. */
  function One<T>(cmp: (T, T) -> int, y: T, x: T): seq<T> {
    if Le(cmp, x, y) && Le(cmp, y, x) then [y] else []
  }

  lemma ClassCons<T>(cmp: (T, T) -> int, y: T, s: seq<T>, x: T)
    ensures Class(cmp, [y] + s, x) == One(cmp, y, x) + Class(cmp, s, x)
  {
    assert ([y] + s)[1..] == s;
  }

  lemma Regroup<T>(a: seq<T>, b: seq<T>, c: seq<T>)
    ensures a + (b + c) == (a + b) + c
  {
  }

  /** Merging sorted runs keeps equal elements in order, those of a first. */
  lemma {:induction false} MergeStable<T>(cmp: (T, T) -> int, a: seq<T>, b: seq<T>, x: T, d: set<T>)
    requires Orders(cmp, d) && Within(a, d) && Within(b, d) && x in d && Sorted(cmp, a) && Sorted(cmp, b)
    ensures Class(cmp, Merge(cmp, a, b), x) == Class(cmp, a, x) + Class(cmp, b, x)
    decreases |a| + |b|
  {
    if a != [] && b != [] {
      SortedTail(cmp, a);
      SortedTail(cmp, b);
      if Le(cmp, a[0], b[0]) {
        MergeStable(cmp, a[1..], b, x, d);
        ClassCons(cmp, a[0], Merge(cmp, a[1..], b), x);
        Regroup(One(cmp, a[0], x), Class(cmp, a[1..], x), Class(cmp, b, x));
      } else {
        MergeStable(cmp, a, b[1..], x, d);
        MergeRight(cmp, a, b, x, d);
        ClassCons(cmp, b[0], Merge(cmp, a, b[1..]), x);
        assert One(cmp, b[0], x) + Class(cmp, a, x) == Class(cmp, a, x) + One(cmp, b[0], x);
        Regroup(One(cmp, b[0], x), Class(cmp, a, x), Class(cmp, b[1..], x));
        Regroup(Class(cmp, a, x), One(cmp, b[0], x), Class(cmp, b[1..], x));
      }
    }
  }

  /** When the head of b goes first, no element of a equals it. */
  lemma MergeRight<T>(cmp: (T, T) -> int, a: seq<T>, b: seq<T>, x: T, d: set<T>)
    requires Orders(cmp, d) && Within(a, d) && Within(b, d) && x in d && Sorted(cmp, a) && a != [] && b != [] && !Le(cmp, a[0], b[0])
    ensures Le(cmp, x, b[0]) && Le(cmp, b[0], x) ==> Class(cmp, a, x) == []
  {
    if Le(cmp, x, b[0]) && Le(cmp, b[0], x) {
      forall i | 0 <= i < |a| ensures !Le(cmp, a[i], b[0]) {
        assert a[0] in d && a[i] in d && b[0] in d;
        assert i == 0 || Le(cmp, a[0], a[i]);
      }
      ClassEmpty(cmp, a, b[0], x, d);
    }
  }

  // ---------------------------------------------------------------- passes

  lemma ThreeParts<T>(s: seq<T>, i: int, j: int)
    requires 0 <= i <= j <= |s|
    ensures s == s[..i] + s[i..j] + s[j..]
  {
    assert s[..j] == s[..i] + s[i..j];
    assert s == s[..j] + s[j..];
  }

  lemma RunsTwo<T>(cmp: (T, T) -> int, s: seq<T>, w: nat, i: int, j: int)
    requires w > 0 && Runs(cmp, s, w) && s != [] && i == Lesser(w, |s|) && j == Lesser(2 * w, |s|)
    ensures Sorted(cmp, s[..i]) && Sorted(cmp, s[i..j]) && Runs(cmp, s[j..], w)
  {
    var t := s[i..];
    if t == [] {
      assert s[j..] == [] && s[i..j] == [];
    } else {
      assert t[..Lesser(w, |t|)] == s[i..j];
      assert t[Lesser(w, |t|)..] == s[j..];
    }
  }

  /** A pass doubles the width of the sorted runs. */
  lemma {:induction false} PassRuns<T>(cmp: (T, T) -> int, s: seq<T>, w: nat, d: set<T>)
    requires w > 0 && Orders(cmp, d) && Within(s, d) && Runs(cmp, s, w)
    ensures Runs(cmp, PassOver(cmp, s, w), 2 * w)
    decreases |s|
  {
    if s != [] {
      var i, j := Lesser(w, |s|), Lesser(2 * w, |s|);
      RunsTwo(cmp, s, w, i, j);
      MergeSorted(cmp, s[..i], s[i..j], d);
      PassRuns(cmp, s[j..], w, d);
      var m, r := Merge(cmp, s[..i], s[i..j]), PassOver(cmp, s[j..], w);
      assert (m + r)[..j] == m && (m + r)[j..] == r;
    }
  }

  lemma {:induction false} PassStable<T>(cmp: (T, T) -> int, s: seq<T>, w: nat, x: T, d: set<T>)
    requires w > 0 && Orders(cmp, d) && Within(s, d) && x in d && Runs(cmp, s, w)
    ensures Class(cmp, PassOver(cmp, s, w), x) == Class(cmp, s, x)
    decreases |s|
  {
    if s != [] {
      var i, j := Lesser(w, |s|), Lesser(2 * w, |s|);
      var a, b, c := s[..i], s[i..j], s[j..];
      RunsTwo(cmp, s, w, i, j);
      ThreeParts(s, i, j);
      MergeStable(cmp, a, b, x, d);
      PassStable(cmp, c, w, x, d);
      PassClass(cmp, s, a, b, c, w, x);
    }
  }

  lemma PassClass<T>(cmp: (T, T) -> int, s: seq<T>, a: seq<T>, b: seq<T>, c: seq<T>, w: nat, x: T)
    requires w > 0 && s != [] && s == a + b + c && a == s[..Lesser(w, |s|)] && b == s[|a|..Lesser(2 * w, |s|)]
    requires Class(cmp, Merge(cmp, a, b), x) == Class(cmp, a, x) + Class(cmp, b, x)
    requires Class(cmp, PassOver(cmp, c, w), x) == Class(cmp, c, x)
    ensures Class(cmp, PassOver(cmp, s, w), x) == Class(cmp, s, x)
  {
    assert c == s[Lesser(2 * w, |s|)..];
    ClassJoin(cmp, Merge(cmp, a, b), PassOver(cmp, c, w), x);
    ClassParts(cmp, s, a, b, c, x);
  }

  lemma ClassParts<T>(cmp: (T, T) -> int, s: seq<T>, a: seq<T>, b: seq<T>, c: seq<T>, x: T)
    requires s == a + b + c
    ensures Class(cmp, s, x) == Class(cmp, a, x) + Class(cmp, b, x) + Class(cmp, c, x)
  {
    ClassJoin(cmp, a, b, x);
    ClassJoin(cmp, a + b, c, x);
  }

  lemma JoinNodes<T>(s: seq<T>, a: seq<T>, b: seq<T>)
    requires s == a + b
    ensures multiset(s) == multiset(a) + multiset(b)
  {
  }

  lemma ThreeNodes<T>(s: seq<T>, a: seq<T>, b: seq<T>, c: seq<T>)
    requires s == a + b + c
    ensures multiset(s) == multiset(a) + multiset(b) + multiset(c)
  {
  }

  lemma {:induction false} PassNodes<T>(cmp: (T, T) -> int, s: seq<T>, w: nat)
    requires w > 0
    ensures multiset(PassOver(cmp, s, w)) == multiset(s)
    decreases |s|
  {
    if s != [] {
      var i, j := Lesser(w, |s|), Lesser(2 * w, |s|);
      var a, b, c := s[..i], s[i..j], s[j..];
      ThreeParts(s, i, j);
      PassNodes(cmp, c, w);
      PassNodesStep(cmp, s, a, b, c, PassOver(cmp, c, w), PassOver(cmp, s, w));
    }
  }

  lemma PassNodesStep<T>(cmp: (T, T) -> int, s: seq<T>, a: seq<T>, b: seq<T>, c: seq<T>, c': seq<T>, r: seq<T>)
    requires s == a + b + c && multiset(c') == multiset(c) && r == Merge(cmp, a, b) + c'
    ensures multiset(r) == multiset(s)
  {
    MergeNodes(cmp, a, b);
    ThreeNodes(s, a, b, c);
    JoinNodes(r, Merge(cmp, a, b), c');
  }

  lemma PassWithin<T>(cmp: (T, T) -> int, s: seq<T>, w: nat, d: set<T>)
    requires w > 0 && Within(s, d)
    ensures Within(PassOver(cmp, s, w), d)
  {
    PassNodes(cmp, s, w);
    var r := PassOver(cmp, s, w);
    forall i | 0 <= i < |r| ensures r[i] in d {
      assert r[i] in multiset(r);
    }
  }

  lemma {:induction false} PassesNodes<T>(cmp: (T, T) -> int, s: seq<T>, w: nat)
    requires w > 0
    ensures multiset(Passes(cmp, s, w)) == multiset(s)
    decreases |s| - w
  {
    PassNodes(cmp, s, w);
    if |s| > 2 * w { PassesNodes(cmp, PassOver(cmp, s, w), 2 * w); }
  }

  lemma {:induction false} PassesSorted<T>(cmp: (T, T) -> int, s: seq<T>, w: nat, d: set<T>)
    requires w > 0 && Orders(cmp, d) && Within(s, d) && Runs(cmp, s, w)
    ensures Sorted(cmp, Passes(cmp, s, w))
    decreases |s| - w
  {
    PassRuns(cmp, s, w, d);
    var r := PassOver(cmp, s, w);
    if |s| > 2 * w {
      PassWithin(cmp, s, w, d);
      PassesSorted(cmp, r, 2 * w, d);
    } else {
      assert r[..|r|] == r;
    }
  }

  lemma {:induction false} PassesStable<T>(cmp: (T, T) -> int, s: seq<T>, w: nat, x: T, d: set<T>)
    requires w > 0 && Orders(cmp, d) && Within(s, d) && x in d && Runs(cmp, s, w)
    ensures Class(cmp, Passes(cmp, s, w), x) == Class(cmp, s, x)
    decreases |s| - w
  {
    PassStable(cmp, s, w, x, d);
    if |s| > 2 * w {
      PassRuns(cmp, s, w, d);
      PassWithin(cmp, s, w, d);
      PassesStable(cmp, PassOver(cmp, s, w), 2 * w, x, d);
    }
  }

  lemma {:induction false} RunsOfOne<T>(cmp: (T, T) -> int, s: seq<T>)
    ensures Runs(cmp, s, 1)
    decreases |s|
  {
    if s != [] { RunsOfOne(cmp, s[1..]); }
  }

  /** The sort is a sort: the same elements, in order, and equal ones in their old order. */
  lemma SortIsStable<T>(cmp: (T, T) -> int, s: seq<T>)
    requires Orders(cmp, set x | x in s)
    ensures var r := Passes(cmp, s, 1);
      Sorted(cmp, r) && multiset(r) == multiset(s) && forall x :: x in s ==> Class(cmp, r, x) == Class(cmp, s, x)
  {
    var d := set x | x in s;
    RunsOfOne(cmp, s);
    PassesNodes(cmp, s, 1);
    PassesSorted(cmp, s, 1, d);
    forall x | x in s ensures Class(cmp, Passes(cmp, s, 1), x) == Class(cmp, s, x) {
      PassesStable(cmp, s, 1, x, d);
    }
  }
}
