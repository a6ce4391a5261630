/** Circular singly linked lists: nodes whose last one points back to the first. */
module CircularList {
  import opened ListSort

  class Node {
    var next: Node?

    constructor ()
      ensures next == null
    {
      next := null;
    }
  }

  ghost predicate Unique(s: seq<Node>) {
    forall i, j :: 0 <= i < j < |s| ==> s[i] != s[j]
  }

  ghost predicate Linked(s: seq<Node>, i: int)
    reads s
  {
    0 <= i && i + 1 < |s| ==> s[i].next == s[i + 1]
  }

  /** Every node but the last points to the next one. */
  ghost predicate Chain(s: seq<Node>)
    reads s
  {
    forall i {:trigger Linked(s, i)} :: Linked(s, i)
  }

  /** A chain that ends by pointing to `head`. */
  ghost predicate Tailed(s: seq<Node>, head: Node)
    reads s
  {
    Chain(s) && (s != [] ==> s[|s| - 1].next == head)
  }

  ghost predicate Ring(s: seq<Node>)
    reads s
  {
    s != [] && Unique(s) && Tailed(s, s[0])
  }

  /** Node i, or null behind the end. */
  ghost function At(s: seq<Node>, i: int): Node? {
    if 0 <= i < |s| then s[i] else null
  }

  ghost predicate HeadLeads(s: seq<Node>, head: Node) {
    forall i :: 0 < i < |s| ==> s[i] != head
  }

  // ---------------------------------------------------------------- sorting

  /** The merged nodes and those of the two runs, pairwise different and all in ns. */
  ghost predicate Parts(out: seq<Node>, p: seq<Node>, q: seq<Node>, ns: set<Node>) {
    && Unique(out) && Unique(p) && Unique(q)
    && (forall x :: x in out ==> x in ns && x !in p && x !in q)
    && (forall x :: x in p ==> x in ns && x !in q)
    && (forall x :: x in q ==> x in ns)
  }

  /** `list` and `tail` are the ends of the merged nodes. */
  ghost predicate Ends(out: seq<Node>, list: Node?, tail: Node?) {
    tail == At(out, |out| - 1) && list == At(out, 0)
  }

  lemma ChainParts(r: seq<Node>, head: Node, n: nat)
    requires Tailed(r, head) && n <= |r|
    ensures Chain(r[..n]) && Tailed(r[n..], head)
  {
    var a, b := r[..n], r[n..];
    forall i ensures Linked(a, i) {
      assert Linked(r, i);
    }
    forall i ensures Linked(b, i) {
      assert Linked(r, i + n);
    }
  }

  /** Walk at most w nodes along from p: q is the node behind them. */
  method StepAlong(p: Node, w: nat, head: Node, ghost r: seq<Node>) returns (q: Node?, n: int)
    requires r != [] && p == r[0] && Tailed(r, head) && HeadLeads(r, head)
    requires w > 0
    ensures n == Lesser(w, |r|) && q == At(r, n)
  {
    q, n := p, 0;
    var i := 0;
    while i < w
      invariant 0 <= i == n <= w && n < |r| + 1 && q == At(r, n)
      invariant i < w ==> q != null
    {
      assert Linked(r, n);
      n := n + 1;
      q := if q.next == head then null else q.next;
      if q == null {
        break;
      }
      i := i + 1;
    }
  }

  /** `tail->next = e` or `list = e`. */
  method Append(list: Node?, tail: Node?, e: Node, ghost out: seq<Node>) returns (l: Node?, t: Node?)
    requires Ends(out, list, tail) && Chain(out) && Unique(out) && e !in out
    modifies tail
    ensures Ends(out + [e], l, t) && Chain(out + [e]) && Unique(out + [e])
  {
    ghost var n, out' := |out|, out + [e];
    if tail != null {
      tail.next := e;
      l := list;
    } else {
      l := e;
    }
    t := e;
    forall i ensures Linked(out', i) {
      if 0 <= i && i + 1 < n {
        assert old(Linked(out, i));
        assert out[i] != out[n - 1] && out'[i] == out[i] && out'[i + 1] == out[i + 1];
      } else if 0 <= i && i + 1 == n {
        assert out'[i] == tail && out'[i + 1] == e;
      }
    }
  }

  /** Taking the head of the first or the second run. */
  lemma TakeFirst(out: seq<Node>, p: seq<Node>, q: seq<Node>, ns: set<Node>)
    requires Parts(out, p, q, ns) && p != []
    ensures Parts(out + [p[0]], p[1..], q, ns) && p[0] !in out
  {
    assert p[0] in p;
    forall x | x in p[1..] ensures x in p && x != p[0] {
      var i :| 0 <= i < |p[1..]| && p[1..][i] == x;
      assert p[i + 1] == x;
    }
  }

  lemma TakeSecond(out: seq<Node>, p: seq<Node>, q: seq<Node>, ns: set<Node>)
    requires Parts(out, p, q, ns) && q != []
    ensures Parts(out + [q[0]], p, q[1..], ns) && q[0] !in out
  {
    assert q[0] in q;
    forall x | x in q[1..] ensures x in q && x != q[0] {
      var i :| 0 <= i < |q[1..]| && q[1..][i] == x;
      assert q[i + 1] == x;
    }
  }

  lemma ChainRest(p: seq<Node>)
    requires Chain(p) && p != []
    ensures Chain(p[1..]) && (|p| > 1 ==> p[0].next == p[1])
  {
    var p' := p[1..];
    assert Linked(p, 0);
    forall i ensures Linked(p', i) {
      assert Linked(p, i + 1);
    }
  }

  /** What the inner loop still has to append. */
  ghost function Ahead(cmp: (Node, Node) -> int, ps: seq<Node>, qs: seq<Node>, k: int): seq<Node>
    requires 0 <= k
  {
    Merge(cmp, ps, qs[..Lesser(k, |qs|)])
  }

  lemma AheadFirst(cmp: (Node, Node) -> int, out: seq<Node>, ps: seq<Node>, qs: seq<Node>, k: int)
    requires 0 <= k && ps != [] && (k == 0 || qs == [] || Le(cmp, ps[0], qs[0]))
    ensures out + [ps[0]] + Ahead(cmp, ps[1..], qs, k) == out + Ahead(cmp, ps, qs, k)
  {
  }

  lemma AheadSecond(cmp: (Node, Node) -> int, out: seq<Node>, ps: seq<Node>, qs: seq<Node>, k: int)
    requires 0 < k && qs != [] && (ps == [] || !Le(cmp, ps[0], qs[0]))
    ensures out + [qs[0]] + Ahead(cmp, ps, qs[1..], k - 1) == out + Ahead(cmp, ps, qs, k)
    ensures qs[1..][Lesser(k - 1, |qs| - 1)..] == qs[Lesser(k, |qs|)..]
  {
    var m := qs[..Lesser(k, |qs|)];
    assert qs[1..][..Lesser(k - 1, |qs| - 1)] == m[1..];
  }

  /** The state of the inner loop: merged nodes, first run, second run with all behind it. */
  ghost predicate Merging(out: seq<Node>, ps: seq<Node>, qs: seq<Node>, ns: set<Node>, head: Node, list: Node?, tail: Node?)
    reads out, ps, qs
  {
    && Parts(out, ps, qs, ns) && Chain(out) && Ends(out, list, tail) && Chain(ps) && Tailed(qs, head)
    && HeadLeads(ps, head) && head !in qs
  }

  /** `e = p; p = p->next` */
  method EmitFirst(p: Node, list0: Node?, tail0: Node?, head: Node,
                   ghost out: seq<Node>, ghost ps: seq<Node>, ghost qs: seq<Node>, ghost ns: set<Node>)
    returns (p': Node?, list: Node?, tail: Node?, ghost out': seq<Node>, ghost ps': seq<Node>)
    requires Merging(out, ps, qs, ns, head, list0, tail0) && ps != [] && p == ps[0]
    modifies tail0
    ensures out' == out + [p] && ps' == ps[1..] && Merging(out', ps', qs, ns, head, list, tail) && (ps' != [] ==> p' == ps'[0])
  {
    out', ps' := out + [p], ps[1..];
    TakeFirst(out, ps, qs, ns);
    ChainRest(ps);
    assert tail0 != null ==> tail0 in out && tail0 in out';
    p' := p.next;
    if p' == head {
      p' := null;
    }
    list, tail := Append(list0, tail0, p, out);
  }

  /** `e = q; q = q->next` */
  method EmitSecond(q: Node, list0: Node?, tail0: Node?, head: Node,
                    ghost out: seq<Node>, ghost ps: seq<Node>, ghost qs: seq<Node>, ghost ns: set<Node>)
    returns (q': Node?, list: Node?, tail: Node?, ghost out': seq<Node>, ghost qs': seq<Node>)
    requires Merging(out, ps, qs, ns, head, list0, tail0) && qs != [] && q == qs[0]
    modifies tail0
    ensures out' == out + [q] && qs' == qs[1..] && Merging(out', ps, qs', ns, head, list, tail) && q' == At(qs', 0)
  {
    out', qs' := out + [q], qs[1..];
    TakeSecond(out, ps, qs, ns);
    ChainRest(qs);
    assert tail0 != null ==> tail0 in out && tail0 in out';
    q' := q.next;
    if q' == head {
      q' := null;
    }
    list, tail := Append(list0, tail0, q, out);
  }

  /** The inner loop of a pass: the run of psize nodes at p and the at most w nodes at q
      are appended to the merged nodes in order. */
  method MergeRuns(p0: Node, psize0: int, q0: Node?, w: nat, head: Node, cmp: (Node, Node) -> int, list0: Node?, tail0: Node?,
                   ghost out0: seq<Node>, ghost ps0: seq<Node>, ghost qs0: seq<Node>, ghost ns: set<Node>)
    returns (q: Node?, list: Node?, tail: Node?, ghost out: seq<Node>, ghost qs: seq<Node>)
    requires Merging(out0, ps0, qs0, ns, head, list0, tail0) && ps0 != [] && p0 == ps0[0] && psize0 == |ps0| && q0 == At(qs0, 0)
    modifies ns
    ensures out == out0 + Ahead(cmp, ps0, qs0, w) && qs == qs0[Lesser(w, |qs0|)..]
    ensures q == At(qs, 0) && Merging(out, [], qs, ns, head, list, tail)
  {
    var p: Node?, psize, qsize := p0, psize0, w as int;
    q, list, tail := q0, list0, tail0;
    out, qs := out0, qs0;
    ghost var ps := ps0;
    while psize > 0 || (qsize > 0 && q != null)
      invariant psize == |ps| && 0 <= qsize && (ps != [] ==> p == ps[0]) && q == At(qs, 0)
      invariant Merging(out, ps, qs, ns, head, list, tail)
      invariant out + Ahead(cmp, ps, qs, qsize) == out0 + Ahead(cmp, ps0, qs0, w)
      invariant qs[Lesser(qsize, |qs|)..] == qs0[Lesser(w, |qs0|)..]
      decreases psize + |qs|
    {
      if psize == 0 {
        AheadSecond(cmp, out, ps, qs, qsize);
        q, list, tail, out, qs := EmitSecond(q, list, tail, head, out, ps, qs, ns);
        qsize := qsize - 1;
      } else if qsize == 0 || q == null {
        AheadFirst(cmp, out, ps, qs, qsize);
        p, list, tail, out, ps := EmitFirst(p, list, tail, head, out, ps, qs, ns);
        psize := psize - 1;
      } else if cmp(p, q) <= 0 {
        AheadFirst(cmp, out, ps, qs, qsize);
        p, list, tail, out, ps := EmitFirst(p, list, tail, head, out, ps, qs, ns);
        psize := psize - 1;
      } else {
        AheadSecond(cmp, out, ps, qs, qsize);
        q, list, tail, out, qs := EmitSecond(q, list, tail, head, out, ps, qs, ns);
        qsize := qsize - 1;
      }
    }
  }

  lemma PassStep(cmp: (Node, Node) -> int, out: seq<Node>, r: seq<Node>, w: nat, n: int)
    requires w > 0 && r != [] && n == Lesser(w, |r|)
    ensures var ps, qs := r[..n], r[n..]; var r' := qs[Lesser(w, |qs|)..];
      r' == r[Lesser(2 * w, |r|)..] && out + Ahead(cmp, ps, qs, w) + PassOver(cmp, r', w) == out + PassOver(cmp, r, w)
  {
    var ps, qs, j := r[..n], r[n..], Lesser(2 * w, |r|);
    assert qs[..Lesser(w, |qs|)] == r[n..j];
    assert qs[Lesser(w, |qs|)..] == r[j..];
  }

  lemma SplitParts(out: seq<Node>, r: seq<Node>, ns: set<Node>, head: Node, n: nat)
    requires Parts(out, [], r, ns) && Tailed(r, head) && 0 < n <= |r| && HeadLeads(r, head)
    ensures Parts(out, r[..n], r[n..], ns) && Chain(r[..n]) && Tailed(r[n..], head) && HeadLeads(r[..n], head) && head !in r[n..]
  {
    ChainParts(r, head, n);
    forall x | x in r[..n] ensures x in r && x !in r[n..] {
      var i :| 0 <= i < n && r[i] == x;
    }
    forall x | x in r[n..] ensures x in r && x != head {
      var i :| n <= i < |r| && r[i] == x;
    }
  }

  /** The state between two merges of a pass: merged nodes and the rest, r. */
  ghost predicate Passing(out: seq<Node>, r: seq<Node>, ns: set<Node>, head: Node, list: Node?, tail: Node?)
    reads out, r
  {
    Parts(out, [], r, ns) && Chain(out) && Ends(out, list, tail) && Tailed(r, head) && HeadLeads(r, head)
  }

  /** One merge of a pass, of the two runs at p. */
  method MergePair(p: Node, w: nat, head: Node, cmp: (Node, Node) -> int, list0: Node?, tail0: Node?,
                   ghost out0: seq<Node>, ghost r0: seq<Node>, ghost ns: set<Node>)
    returns (q: Node?, list: Node?, tail: Node?, ghost out: seq<Node>, ghost r: seq<Node>)
    requires w > 0 && Passing(out0, r0, ns, head, list0, tail0) && r0 != [] && p == r0[0]
    modifies ns
    ensures Passing(out, r, ns, head, list, tail) && q == At(r, 0) && head !in r && out != []
    ensures |r| == |r0| - Lesser(2 * w, |r0|) && |r| < |r0| && out + PassOver(cmp, r, w) == out0 + PassOver(cmp, r0, w)
  {
    var n;
    q, n := StepAlong(p, w, head, r0);
    SplitParts(out0, r0, ns, head, n);
    PassStep(cmp, out0, r0, w, n);
    ghost var qs := r0[n..];
    q, list, tail, out, r := MergeRuns(p, n, q, w, head, cmp, list0, tail0, out0, r0[..n], qs, ns);
  }

  /** All merges of a pass. */
  method MergePairs(head: Node, w: nat, cmp: (Node, Node) -> int, ghost s: seq<Node>, ghost ns: set<Node>)
    returns (list: Node?, tail: Node?, nmerges: int, ghost out: seq<Node>)
    requires w > 0 && Passing([], s, ns, head, null, null) && s != [] && head == s[0]
    modifies ns
    ensures Passing(out, [], ns, head, list, tail) && out == PassOver(cmp, s, w)
    ensures nmerges <= 1 <==> |s| <= 2 * w
  {
    ghost var r := s;
    var p: Node? := head;
    list, tail, nmerges, out := null, null, 0, [];
    while p != null
      invariant Passing(out, r, ns, head, list, tail) && p == At(r, 0) && 0 <= nmerges
      invariant out + PassOver(cmp, r, w) == PassOver(cmp, s, w)
      invariant nmerges == 0 ==> |r| == |s|
      invariant nmerges == 1 ==> |r| == |s| - Lesser(2 * w, |s|)
      invariant nmerges > 1 ==> |s| > 2 * w
      decreases |r|
    {
      nmerges := nmerges + 1;
      p, list, tail, out, r := MergePair(p, w, head, cmp, list, tail, out, r, ns);
    }
  }

  /** `tail->next = list` */
  method Close(list: Node?, tail: Node?, ghost out: seq<Node>)
    requires out != [] && Unique(out) && Chain(out) && Ends(out, list, tail)
    modifies tail
    ensures Ring(out)
  {
    tail.next := list;
    forall i ensures Linked(out, i) {
      assert old(Linked(out, i));
    }
  }

  /** One pass over the list. */
  method Pass(head: Node, w: nat, cmp: (Node, Node) -> int, ghost s: seq<Node>, ghost ns: set<Node>)
    returns (list: Node?, tail: Node?, nmerges: int, ghost out: seq<Node>)
    requires w > 0 && Ring(s) && head == s[0] && (forall x :: x in s ==> x in ns)
    modifies ns
    ensures forall x :: x in out ==> x in ns
    ensures out == PassOver(cmp, s, w) && Ring(out) && list == out[0] && tail == out[|out| - 1]
    ensures nmerges <= 1 <==> |s| <= 2 * w
  {
    list, tail, nmerges, out := MergePairs(head, w, cmp, s, ns);
    assert tail in out;
    Close(list, tail, out);
  }

  /** The merge sort of clist, on the list that begins at `list`: returns the last node.
      The width stays far below the range of the source's int, because there are no more
      nodes than bytes of memory. */
  method SortRing(list0: Node?, cmp: (Node, Node) -> int, ghost s0: seq<Node>) returns (tail: Node?, ghost s: seq<Node>)
    requires if list0 == null then s0 == [] else Ring(s0) && list0 == s0[0]
    modifies s0
    ensures s == Passes(cmp, s0, 1) && tail == At(s, |s| - 1) && (s0 != [] ==> Ring(s))
  {
    if list0 == null {
      return null, [];
    }
    var list := list0;
    s := s0;
    ghost var ns := set x | x in s0;
    var insize: int := 1;
    while true
      invariant insize > 0 && Ring(s) && list == s[0] && |s| == |s0|
      invariant forall x :: x in s ==> x in ns
      invariant Passes(cmp, s, insize) == Passes(cmp, s0, 1)
      decreases |s0| - insize
    {
      var nmerges;
      list, tail, nmerges, s := Pass(list, insize, cmp, s, ns);
      if nmerges <= 1 {
        return;
      }
      insize := 2 * insize;
    }
  }
}
