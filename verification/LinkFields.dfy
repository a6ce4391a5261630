/** Chains and rings of threads through one array of link fields, `next[t]` being the
    `rq_entry.next` of thread t and 0 being NULL. */
module LinkFields {
  import opened KernelTypes
  import opened KernelSpec
  import opened KernelStruct

  type Fields = seq<Pid>

  /** Where a thread's link field is: on a run queue, or on a wait list. */
  datatype Place = RunQ(prio: nat) | WaitL(list: ListRef)

  predicate InRange(n: Fields, t: Pid) {
    0 < t < |n|
  }

  /** Entry i of q points to v. */
  predicate Points(n: Fields, q: seq<Pid>, i: int, v: Pid)
    requires 0 <= i < |q|
  {
    InRange(n, q[i]) && n[q[i]] == v
  }

  /** Entry i of q points to its successor, the last one to `end`. */
  predicate Linked(n: Fields, q: seq<Pid>, end: Pid, i: int) {
    0 <= i < |q| ==> Points(n, q, i, if i + 1 < |q| then q[i + 1] else end)
  }

  ghost predicate Chain(n: Fields, q: seq<Pid>, end: Pid) {
    forall i {:trigger Linked(n, q, end, i)} :: Linked(n, q, end, i)
  }

  function First(q: seq<Pid>): Pid {
    if q == [] then 0 else q[0]
  }

  function Last(q: seq<Pid>): Pid {
    if q == [] then 0 else q[|q| - 1]
  }

  /** A run queue: `tail` is its last thread, whose link leads to the first. */
  ghost predicate Ring(n: Fields, tail: Pid, q: seq<Pid>) {
    tail == Last(q) && Chain(n, q, First(q))
  }

  // ---------------------------------------------------------------- frames

  /** A write to a field outside the list. */
  lemma WriteAside(n: Fields, q: seq<Pid>, end: Pid, t: Pid, v: Pid)
    requires Chain(n, q, end) && InRange(n, t) && t !in q
    ensures Chain(n[t := v], q, end)
  {
    var n' := n[t := v];
    forall i ensures Linked(n', q, end, i) {
      assert Linked(n, q, end, i);
      assert 0 <= i < |q| ==> q[i] in q;
    }
  }

  /** Appending t: it points to `end'`, and the old last entry points to it. */
  lemma AppendChain(n: Fields, q: seq<Pid>, end: Pid, t: Pid, end': Pid)
    requires Chain(n, q, end) && Distinct(q) && InRange(n, t) && t !in q && q != []
    ensures InRange(n, Last(q)) && Chain(n[t := end'][Last(q) := t], q + [t], end')
  {
    assert Linked(n, q, end, |q| - 1) && Last(q) in q;
    var n', q' := n[t := end'][Last(q) := t], q + [t];
    forall i ensures Linked(n', q', end', i) {
      assert Linked(n, q, end, i);
      assert 0 <= i < |q| - 1 ==> q[i] != q[|q| - 1] && q[i] in q;
    }
  }

  /** Redirecting the last entry. */
  lemma EndChain(n: Fields, q: seq<Pid>, end: Pid, end': Pid)
    requires Chain(n, q, end) && Distinct(q) && q != []
    ensures InRange(n, Last(q)) && Chain(n[Last(q) := end'], q, end')
  {
    assert Linked(n, q, end, |q| - 1);
    var n' := n[Last(q) := end'];
    forall i ensures Linked(n', q, end', i) {
      assert Linked(n, q, end, i);
    }
  }

  lemma TailChain(n: Fields, q: seq<Pid>, end: Pid)
    requires Chain(n, q, end) && q != []
    ensures Chain(n, q[1..], end) && InRange(n, q[0]) && n[q[0]] == if |q| > 1 then q[1] else end
  {
    var q' := q[1..];
    assert Linked(n, q, end, 0);
    forall i ensures Linked(n, q', end, i) {
      assert Linked(n, q, end, i + 1);
    }
  }

  lemma RotateChain(n: Fields, q: seq<Pid>)
    requires Chain(n, q, First(q)) && q != []
    ensures Ring(n, q[0], q[1..] + [q[0]])
  {
    var q' := q[1..] + [q[0]];
    assert Linked(n, q, First(q), 0);
    forall i ensures Linked(n, q', First(q'), i) {
      assert Linked(n, q, First(q), i + 1);
    }
  }

  /** Inserting t behind entry i - 1, or in front. */
  lemma InsertChain(n: Fields, q: seq<Pid>, i: nat, t: Pid)
    requires Chain(n, q, 0) && Distinct(q) && i <= |q| && InRange(n, t) && t !in q
    ensures i > 0 ==> InRange(n, q[i - 1])
    ensures var n1 := n[t := if i < |q| then q[i] else 0];
      Chain(if i > 0 then n1[q[i - 1] := t] else n1, q[..i] + [t] + q[i..], 0)
  {
    if i > 0 { assert Linked(n, q, 0, i - 1); }
    var n1 := n[t := if i < |q| then q[i] else 0];
    var n', q' := if i > 0 then n1[q[i - 1] := t] else n1, q[..i] + [t] + q[i..];
    forall j ensures Linked(n', q', 0, j) {
      assert Linked(n, q, 0, if j < i then j else j - 1);
      assert 0 <= j < i ==> q'[j] == q[j] && q[j] in q;
      assert i < j < |q'| ==> q'[j] == q[j - 1] && q[j - 1] in q;
      assert i + 1 < |q'| ==> q'[i + 1] == q[i];
    }
  }

  // ---------------------------------------------------------------- all queues together

  type RunQueues = map<nat, seq<Pid>>
  type WaitLists = map<ListRef, seq<Pid>>

  /** MUTEX_LOCKED, a value that is no thread's. */
  const LOCKED: Pid := -1

  function Head(heads: map<ListRef, Pid>, r: ListRef): Pid {
    if r in heads then heads[r] else 0
  }

  /** What `queue.next` holds: the first waiter, MUTEX_LOCKED or NULL. */
  function HeadOf(lists: WaitLists, marked: set<MutexId>, r: ListRef): Pid {
    if List(lists, r) != [] then List(lists, r)[0] else if r.MutexQ? && r.m in marked then LOCKED else 0
  }

  /** Each link field is used by the queue or list that `home` names, and no other. */
  ghost predicate Homes(home: map<Pid, Place>, rq: RunQueues, lists: WaitLists, size: nat) {
    && (forall t :: t in home ==> 0 < t < size)
    && (forall p: nat :: Distinct(Rq(rq, p)))
    && (forall r :: Distinct(List(lists, r)))
    && (forall p: nat, t :: t in Rq(rq, p) <==> t in home && home[t] == RunQ(p))
    && (forall r, t :: t in List(lists, r) <==> t in home && home[t] == WaitL(r))
  }

  ghost predicate RqStored(n: Fields, tails: seq<Pid>, rq: RunQueues) {
    && |tails| == PRIO_LEVELS
    && (forall p: nat :: p < PRIO_LEVELS ==> Ring(n, tails[p], Rq(rq, p)))
    && (forall p: nat :: p >= PRIO_LEVELS ==> Rq(rq, p) == [])
  }

  ghost predicate ListsStored(n: Fields, heads: map<ListRef, Pid>, lists: WaitLists, marked: set<MutexId>) {
    && (forall r :: Chain(n, List(lists, r), 0))
    && (forall r :: Head(heads, r) == HeadOf(lists, marked, r))
  }

  lemma RqAside(n: Fields, tails: seq<Pid>, rq: RunQueues, t: Pid, v: Pid)
    requires RqStored(n, tails, rq) && InRange(n, t) && forall p: nat :: t !in Rq(rq, p)
    ensures RqStored(n[t := v], tails, rq)
  {
    forall p: nat | p < PRIO_LEVELS ensures Ring(n[t := v], tails[p], Rq(rq, p)) {
      assert Ring(n, tails[p], Rq(rq, p)) && t !in Rq(rq, p);
      WriteAside(n, Rq(rq, p), First(Rq(rq, p)), t, v);
    }
  }

  lemma ListsAside(n: Fields, heads: map<ListRef, Pid>, lists: WaitLists, marked: set<MutexId>, t: Pid, v: Pid)
    requires ListsStored(n, heads, lists, marked) && InRange(n, t) && forall r :: t !in List(lists, r)
    ensures ListsStored(n[t := v], heads, lists, marked)
  {
    forall r ensures Chain(n[t := v], List(lists, r), 0) {
      assert Chain(n, List(lists, r), 0) && t !in List(lists, r);
      WriteAside(n, List(lists, r), 0, t, v);
    }
  }

  /** Queue p and its ring change; all other rings stay. */
  lemma RqChange(n: Fields, tails: seq<Pid>, rq: RunQueues, n': Fields, p: nat, q: seq<Pid>)
    requires RqStored(n, tails, rq) && p < PRIO_LEVELS && Chain(n', q, First(q))
    requires forall i: nat :: i != p ==> Chain(n', Rq(rq, i), First(Rq(rq, i)))
    ensures RqStored(n', tails[p := Last(q)], rq[p := q])
  {
    var tails', rq' := tails[p := Last(q)], rq[p := q];
    forall i: nat | i < PRIO_LEVELS ensures Ring(n', tails'[i], Rq(rq', i)) {
      assert Ring(n, tails[i], Rq(rq, i));
      assert i != p ==> Chain(n', Rq(rq, i), First(Rq(rq, i)));
    }
    forall i: nat | i >= PRIO_LEVELS ensures Rq(rq', i) == [] {
      assert Rq(rq, i) == [];
    }
  }

  /** Two writes to fields of queue p's own threads leave every other queue alone. */
  lemma OthersStay(n: Fields, home: map<Pid, Place>, rq: RunQueues, lists: WaitLists, tails: seq<Pid>, heads: map<ListRef, Pid>,
                   marked: set<MutexId>, p: nat, a: Pid, v: Pid)
    requires Homes(home, rq, lists, |n|) && RqStored(n, tails, rq) && ListsStored(n, heads, lists, marked)
    requires InRange(n, a) && (a in home ==> home[a] == RunQ(p))
    ensures forall i: nat :: i != p ==> Chain(n[a := v], Rq(rq, i), First(Rq(rq, i)))
    ensures ListsStored(n[a := v], heads, lists, marked)
  {
    forall i: nat | i != p ensures Chain(n[a := v], Rq(rq, i), First(Rq(rq, i))) {
      assert a !in Rq(rq, i);
      if i < PRIO_LEVELS { assert Ring(n, tails[i], Rq(rq, i)); }
      WriteAside(n, Rq(rq, i), First(Rq(rq, i)), a, v);
    }
    forall r ensures a !in List(lists, r) {
    }
    ListsAside(n, heads, lists, marked, a, v);
  }

  // ---------------------------------------------------------------- homes

  lemma HomesRq(home: map<Pid, Place>, rq: RunQueues, lists: WaitLists, size: nat, t: Pid, p: nat, q: seq<Pid>, home': map<Pid, Place>)
    requires Homes(home, rq, lists, size) && 0 < t < size && Distinct(q) && (t in home ==> home[t] == RunQ(p))
    requires home' == home[t := RunQ(p)] || home' == home - {t}
    requires forall x :: x in q <==> if x == t then t in home' else x in Rq(rq, p)
    ensures Homes(home', rq[p := q], lists, size)
  {
    var rq' := rq[p := q];
    forall i: nat ensures Distinct(Rq(rq', i)) {
      assert Distinct(Rq(rq, i));
    }
    forall i: nat, x ensures x in Rq(rq', i) <==> x in home' && home'[x] == RunQ(i) {
      assert x in Rq(rq, i) <==> x in home && home[x] == RunQ(i);
    }
    forall r, x ensures x in List(lists, r) <==> x in home' && home'[x] == WaitL(r) {
      assert x in List(lists, r) <==> x in home && home[x] == WaitL(r);
    }
  }

  lemma HomesList(home: map<Pid, Place>, rq: RunQueues, lists: WaitLists, size: nat, t: Pid, r: ListRef, q: seq<Pid>, home': map<Pid, Place>)
    requires Homes(home, rq, lists, size) && 0 < t < size && Distinct(q) && (t in home ==> home[t] == WaitL(r))
    requires home' == home[t := WaitL(r)] || home' == home - {t}
    requires forall x :: x in q <==> if x == t then t in home' else x in List(lists, r)
    ensures Homes(home', rq, lists[r := q], size)
  {
    var lists' := lists[r := q];
    forall i ensures Distinct(List(lists', i)) {
      assert Distinct(List(lists, i));
    }
    forall i: nat, x ensures x in Rq(rq, i) <==> x in home' && home'[x] == RunQ(i) {
      assert x in Rq(rq, i) <==> x in home && home[x] == RunQ(i);
    }
    forall i, x ensures x in List(lists', i) <==> x in home' && home'[x] == WaitL(i) {
      assert x in List(lists, i) <==> x in home && home[x] == WaitL(i);
    }
  }

  // ---------------------------------------------------------------- the writes of each operation

  /** Everything the link fields store. */
  ghost predicate Stored(n: Fields, tails: seq<Pid>, heads: map<ListRef, Pid>,
                         rq: RunQueues, lists: WaitLists, marked: set<MutexId>, home: map<Pid, Place>) {
    Homes(home, rq, lists, |n|) && RqStored(n, tails, rq) && ListsStored(n, heads, lists, marked)
  }

  /** clist_rpush */
  lemma PushStored(n: Fields, tails: seq<Pid>, heads: map<ListRef, Pid>, rq: RunQueues, lists: WaitLists, marked: set<MutexId>,
                   home: map<Pid, Place>, p: nat, t: Pid)
    requires Stored(n, tails, heads, rq, lists, marked, home) && p < PRIO_LEVELS && InRange(n, t) && t !in home
    ensures var q := Rq(rq, p); var tail := tails[p];
      && (tail == 0 <==> q == []) && (tail != 0 ==> InRange(n, tail) && tail != t)
      && var n' := if tail == 0 then n[t := t] else n[t := n[tail]][tail := t];
         Stored(n', tails[p := t], heads, rq[p := q + [t]], lists, marked, home[t := RunQ(p)])
  {
    var q := Rq(rq, p);
    assert Ring(n, tails[p], q) && t !in q;
    HomesRq(home, rq, lists, |n|, t, p, q + [t], home[t := RunQ(p)]);
    assert Last(q + [t]) == t;
    if q == [] {
      OthersStay(n, home, rq, lists, tails, heads, marked, p, t, t);
      var n' := n[t := t];
      assert Linked(n, q, First(q), 0);
      assert forall i :: Linked(n', [t], t, i);
      assert q + [t] == [t];
      RqChange(n, tails, rq, n', p, q + [t]);
    } else {
      assert Linked(n, q, First(q), |q| - 1) && Last(q) in q;
      OthersStay(n, home, rq, lists, tails, heads, marked, p, t, q[0]);
      var n1 := n[t := q[0]];
      RqAside(n, tails, rq, t, q[0]);
      OthersStay(n1, home, rq, lists, tails, heads, marked, p, Last(q), t);
      AppendChain(n, q, First(q), t, q[0]);
      RqChange(n, tails, rq, n1[Last(q) := t], p, q + [t]);
    }
  }

  /** clist_lpop */
  lemma PopStored(n: Fields, tails: seq<Pid>, heads: map<ListRef, Pid>, rq: RunQueues, lists: WaitLists, marked: set<MutexId>,
                  home: map<Pid, Place>, p: nat)
    requires Stored(n, tails, heads, rq, lists, marked, home) && p < PRIO_LEVELS && Rq(rq, p) != []
    ensures var q := Rq(rq, p); var tail := tails[p];
      && InRange(n, tail) && n[tail] == q[0] && InRange(n, q[0]) && (tail == q[0] <==> |q| == 1)
      && var n', tails' := if tail == q[0] then n else n[tail := n[q[0]]], if tail == q[0] then tails[p := 0] else tails;
         Stored(n', tails', heads, rq[p := q[1..]], lists, marked, home - {q[0]})
  {
    var q := Rq(rq, p);
    assert Ring(n, tails[p], q) && Distinct(q) && q[0] in q && Last(q) in q;
    assert Linked(n, q, First(q), |q| - 1) && Linked(n, q, First(q), 0);
    PopFacts(q);
    HomesRq(home, rq, lists, |n|, q[0], p, q[1..], home - {q[0]});
    TailChain(n, q, First(q));
    if |q| == 1 {
      OthersStay(n, home, rq, lists, tails, heads, marked, p, q[0], n[q[0]]);
      assert n[q[0] := n[q[0]]] == n;
      RqChange(n, tails, rq, n, p, q[1..]);
    } else {
      assert q[0] != q[|q| - 1] && Last(q[1..]) == Last(q);
      EndChain(n, q[1..], q[0], q[1]);
      OthersStay(n, home, rq, lists, tails, heads, marked, p, Last(q), q[1]);
      RqChange(n, tails, rq, n[Last(q) := q[1]], p, q[1..]);
      assert tails[p := Last(q)] == tails;
    }
  }

  lemma RotateFacts(q: seq<Pid>)
    requires Distinct(q) && q != []
    ensures Distinct(q[1..] + [q[0]]) && forall x :: x in q[1..] + [q[0]] <==> x in q
  {
    PopFacts(q);
    assert q[0] !in q[1..];
  }

  /** clist_lpoprpush */
  lemma RotateStored(n: Fields, tails: seq<Pid>, heads: map<ListRef, Pid>, rq: RunQueues, lists: WaitLists, marked: set<MutexId>,
                     home: map<Pid, Place>, p: nat)
    requires Stored(n, tails, heads, rq, lists, marked, home) && p < PRIO_LEVELS && Rq(rq, p) != []
    ensures var q := Rq(rq, p);
      && InRange(n, tails[p]) && n[tails[p]] == q[0]
      && Stored(n, tails[p := q[0]], heads, rq[p := q[1..] + [q[0]]], lists, marked, home)
  {
    var q := Rq(rq, p);
    assert Ring(n, tails[p], q) && Distinct(q) && q[0] in q;
    assert Linked(n, q, First(q), |q| - 1);
    RotateChain(n, q);
    RotateFacts(q);
    var q' := q[1..] + [q[0]];
    assert q[0] in home && home[q[0]] == RunQ(p);
    assert home[q[0] := RunQ(p)] == home;
    assert Distinct(q');
    assert forall x :: x in q' <==> x in Rq(rq, p);
    HomesRq(home, rq, lists, |n|, q[0], p, q', home);
    forall i: nat | i != p ensures Chain(n, Rq(rq, i), First(Rq(rq, i))) {
      if i < PRIO_LEVELS { assert Ring(n, tails[i], Rq(rq, i)); }
    }
    RqChange(n, tails, rq, n, p, q');
  }

  // ---------------------------------------------------------------- wait lists

  /** Write v to a field that only list r uses, or none. */
  lemma OtherListsStay(n: Fields, home: map<Pid, Place>, rq: RunQueues, lists: WaitLists, tails: seq<Pid>, r: ListRef, a: Pid, v: Pid)
    requires Homes(home, rq, lists, |n|) && RqStored(n, tails, rq)
    requires forall r' :: r' != r ==> Chain(n, List(lists, r'), 0)
    requires InRange(n, a) && (a in home ==> home[a] == WaitL(r))
    ensures RqStored(n[a := v], tails, rq)
    ensures forall r' :: r' != r ==> Chain(n[a := v], List(lists, r'), 0)
  {
    forall p: nat ensures a !in Rq(rq, p) {
    }
    RqAside(n, tails, rq, a, v);
    forall r' | r' != r ensures Chain(n[a := v], List(lists, r'), 0) {
      assert a !in List(lists, r');
      WriteAside(n, List(lists, r'), 0, a, v);
    }
  }

  /** The marks differ at most for the mutex whose queue r is. */
  ghost predicate SameMarks(marked: set<MutexId>, marked': set<MutexId>, r: ListRef) {
    forall m :: r != MutexQ(m) ==> (m in marked' <==> m in marked)
  }

  lemma ListChange(n: Fields, heads: map<ListRef, Pid>, lists: WaitLists, marked: set<MutexId>, n': Fields, r: ListRef, h: Pid,
                   q: seq<Pid>, marked': set<MutexId>)
    requires ListsStored(n, heads, lists, marked) && SameMarks(marked, marked', r)
    requires forall r' :: r' != r ==> Chain(n', List(lists, r'), 0)
    requires Chain(n', q, 0) && h == HeadOf(lists[r := q], marked', r)
    ensures ListsStored(n', heads[r := h], lists[r := q], marked')
  {
    var heads', lists' := heads[r := h], lists[r := q];
    forall r' ensures Chain(n', List(lists', r'), 0) {
      assert r' != r ==> Chain(n', List(lists, r'), 0);
    }
    forall r' ensures Head(heads', r') == HeadOf(lists', marked', r') {
      assert Head(heads, r') == HeadOf(lists, marked, r');
      assert r'.MutexQ? && r' != r ==> (r'.m in marked' <==> r'.m in marked);
    }
  }

  /** thread_add_to_list at position i; `prev` is the entry before it, or 0. A mutex that
      was only marked as locked loses the mark to its first waiter. */
  lemma InsertStored(n: Fields, tails: seq<Pid>, heads: map<ListRef, Pid>, rq: RunQueues, lists: WaitLists, marked: set<MutexId>,
                     home: map<Pid, Place>, r: ListRef, i: nat, t: Pid, nx: Pid, prev: Pid, marked': set<MutexId>)
    requires Stored(n, tails, heads, rq, lists, marked, home) && InRange(n, t) && t !in home && i <= |List(lists, r)|
    requires nx == (if i < |List(lists, r)| then List(lists, r)[i] else 0) && prev == (if i > 0 then List(lists, r)[i - 1] else 0)
    requires SameMarks(marked, marked', r)
    ensures var q := List(lists, r); var q' := q[..i] + [t] + q[i..];
      && (prev == 0 <==> i == 0) && (i > 0 ==> InRange(n, prev))
      && var n' := if prev == 0 then n[t := nx] else n[t := nx][prev := t];
         var heads' := if prev == 0 then heads[r := t] else heads;
         Stored(n', tails, heads', rq, lists[r := q'], marked', home[t := WaitL(r)])
  {
    var q := List(lists, r);
    var q' := q[..i] + [t] + q[i..];
    assert Chain(n, q, 0) && Distinct(q) && t !in q;
    InsertFacts(q, i, t);
    HomesList(home, rq, lists, |n|, t, r, q', home[t := WaitL(r)]);
    InsertChain(n, q, i, t);
    OtherListsStay(n, home, rq, lists, tails, r, t, nx);
    if i == 0 {
      ListChange(n, heads, lists, marked, n[t := nx], r, t, q', marked');
    } else {
      assert prev in q;
      OtherListsStay(n[t := nx], home, rq, lists, tails, r, prev, t);
      assert q[0] in q && Head(heads, r) == q[0] == q'[0];
      ListChange(n, heads, lists, marked, n[t := nx][prev := t], r, q[0], q', marked');
      assert q[0] in home && q[0] > 0;
      assert r in heads && heads[r] == q[0];
      assert heads[r := q[0]] == heads;
    }
  }

  /** list_remove_head; afterwards a mutex without waiters is marked as locked. */
  lemma RemoveStored(n: Fields, tails: seq<Pid>, heads: map<ListRef, Pid>, rq: RunQueues, lists: WaitLists, marked: set<MutexId>,
                     home: map<Pid, Place>, r: ListRef, marked': set<MutexId>)
    requires Stored(n, tails, heads, rq, lists, marked, home) && List(lists, r) != [] && SameMarks(marked, marked', r)
    ensures var q := List(lists, r);
      && InRange(n, q[0]) && Head(heads, r) == q[0] && n[q[0]] == First(q[1..])
      && Stored(n, tails, heads[r := HeadOf(lists[r := q[1..]], marked', r)], rq, lists[r := q[1..]], marked', home - {q[0]})
  {
    var q := List(lists, r);
    assert Chain(n, q, 0) && Distinct(q) && q[0] in q;
    assert Head(heads, r) == HeadOf(lists, marked, r);
    PopFacts(q);
    TailChain(n, q, 0);
    HomesList(home, rq, lists, |n|, q[0], r, q[1..], home - {q[0]});
    ListChange(n, heads, lists, marked, n, r, HeadOf(lists[r := q[1..]], marked', r), q[1..], marked');
  }

  /** Setting or clearing MUTEX_LOCKED in an empty queue. */
  lemma MarkStored(n: Fields, tails: seq<Pid>, heads: map<ListRef, Pid>, rq: RunQueues, lists: WaitLists, marked: set<MutexId>,
                   home: map<Pid, Place>, m: MutexId, marked': set<MutexId>)
    requires Stored(n, tails, heads, rq, lists, marked, home) && List(lists, MutexQ(m)) == [] && SameMarks(marked, marked', MutexQ(m))
    ensures Stored(n, tails, heads[MutexQ(m) := if m in marked' then LOCKED else 0], rq, lists, marked', home)
  {
    var h := if m in marked' then LOCKED else 0;
    var heads' := heads[MutexQ(m) := h];
    forall r ensures Head(heads', r) == HeadOf(lists, marked', r) {
      assert Head(heads, r) == HeadOf(lists, marked, r);
      assert r.MutexQ? && r != MutexQ(m) ==> (r.m in marked' <==> r.m in marked);
    }
  }
}
