/** The structural invariant of the kernel: where every thread's single link field
    is, and in what order. It holds at every point inside a kernel call, not only
    between calls. */
module KernelStruct {
  import opened KernelTypes
  import opened KernelSpec

  ghost predicate Distinct(q: seq<Pid>) {
    forall i, j :: 0 <= i < j < |q| ==> q[i] != q[j]
  }

  /** The thread table: ids and priorities in range, and an idle thread that can run. */
  ghost predicate Table(thr: map<Pid, Thread>) {
    && (forall t :: t in thr ==> PID_FIRST <= t <= PID_LAST && thr[t].prio < PRIO_LEVELS)
    && PID_IDLE in thr && thr[PID_IDLE].prio == PRIO_IDLE && OnRq(thr[PID_IDLE].status)
  }

  /** A thread is on the run queue of its own priority, once, iff its status says so. */
  ghost predicate Queues(thr: map<Pid, Thread>, rq: map<nat, seq<Pid>>) {
    && (forall p: nat :: Distinct(Rq(rq, p)))
    && (forall p: nat, t :: t in Rq(rq, p) <==> t in thr && thr[t].prio == p && OnRq(thr[t].status))
  }

  /** A thread is on a wait list iff its link field is recorded there, and then it is
      on that list once, on no other list and on no run queue. */
  ghost predicate Lists(thr: map<Pid, Thread>, lists: map<ListRef, seq<Pid>>) {
    && (forall r :: Distinct(List(lists, r)))
    && (forall r, t :: t in List(lists, r) <==> t in thr && thr[t].on == Some(r))
    && (forall t :: t in thr && thr[t].on.Some? ==> !OnRq(thr[t].status))
    && (forall x :: List(lists, MsgWaiters(x)) != [] ==> x in thr)
  }

  /** Better priority first, and among equals first come first served. */
  predicate Before(a: Thread, b: Thread) {
    a.prio < b.prio || (a.prio == b.prio && a.since < b.since)
  }

  ghost predicate Sorted(thr: map<Pid, Thread>, q: seq<Pid>) {
    forall i, j :: 0 <= i < j < |q| ==> Before(Th(thr, q[i]), Th(thr, q[j]))
  }

  ghost predicate Order(thr: map<Pid, Thread>, lists: map<ListRef, seq<Pid>>, clock: nat) {
    && (forall t :: t in thr && thr[t].on.Some? ==> thr[t].since < clock)
    && (forall r :: Sorted(thr, List(lists, r)))
  }

  ghost predicate Base(k: K) {
    && Table(k.thr)
    && Queues(k.thr, k.s.rq)
    && Lists(k.thr, k.w.lists)
    && Order(k.thr, k.w.lists, k.w.clock)
  }

  /** The active thread is at the head of its own run queue. */
  ghost predicate AtHead(k: K) {
    && k.s.active in k.thr
    && Rq(k.s.rq, Me(k).prio) != []
    && Rq(k.s.rq, Me(k).prio)[0] == k.s.active
  }

  // ---------------------------------------------------------------- run queue steps

  lemma PopFacts(q: seq<Pid>)
    requires Distinct(q) && q != []
    ensures Distinct(q[1..])
    ensures forall t :: t in q[1..] <==> t in q && t != q[0]
  {
    forall t | t in q && t != q[0] ensures t in q[1..] {
      var i :| 0 <= i < |q| && q[i] == t;
      assert q[1..][i - 1] == t;
    }
  }

  /** A changed queue and the one thread whose place changed with it. */
  lemma QueuesChange(thr: map<Pid, Thread>, rq: map<nat, seq<Pid>>, t: Pid, th: Thread, q: seq<Pid>)
    requires Table(thr) && Queues(thr, rq) && t in thr && th.prio == thr[t].prio
    requires t == PID_IDLE ==> OnRq(th.status)
    requires Distinct(q)
    requires forall x :: x in q <==> if x == t then OnRq(th.status) else x in Rq(rq, th.prio)
    ensures Table(thr[t := th]) && Queues(thr[t := th], rq[th.prio := q])
  {
    var thr', rq' := thr[t := th], rq[th.prio := q];
    forall p: nat, x ensures x in Rq(rq', p) <==> x in thr' && thr'[x].prio == p && OnRq(thr'[x].status) {
      assert x in Rq(rq, p) <==> x in thr && thr[x].prio == p && OnRq(thr[x].status);
    }
    forall p: nat ensures Distinct(Rq(rq', p)) {
      assert Distinct(Rq(rq, p));
    }
  }

  /** Joining: appending a thread that was off its queue keeps the invariant. */
  lemma JoinKeepsBase(k: K, t: Pid, s: Status)
    requires Base(k) && t in k.thr && !OnRq(k.thr[t].status) && k.thr[t].on == None && OnRq(s)
    ensures Base(SetStatus(k, t, s))
  {
    var th := k.thr[t].(status := s);
    var q := Rq(k.s.rq, th.prio);
    assert t !in q;
    QueuesChange(k.thr, k.s.rq, t, th, q + [t]);
    ListsFrame(k.thr, k.thr[t := th], k.w.lists, k.w.clock);
  }

  /** Leaving: popping the head removes the thread meant, when that thread is at the head. */
  lemma LeaveKeepsBase(k: K, t: Pid, s: Status)
    requires Base(k) && t in k.thr && t != PID_IDLE && !OnRq(s)
    requires Rq(k.s.rq, k.thr[t].prio) != [] && Rq(k.s.rq, k.thr[t].prio)[0] == t
    ensures OnRq(k.thr[t].status) && k.thr[t].on == None
    ensures Base(SetStatus(k, t, s))
  {
    var th := k.thr[t].(status := s);
    var q := Rq(k.s.rq, th.prio);
    assert t in q;
    PopFacts(q);
    QueuesChange(k.thr, k.s.rq, t, th, q[1..]);
    ListsFrame(k.thr, k.thr[t := th], k.w.lists, k.w.clock);
  }

  /** Two thread tables that agree on everything wait lists depend on. */
  ghost predicate SameLinks(thr: map<Pid, Thread>, thr': map<Pid, Thread>) {
    && thr'.Keys == thr.Keys
    && (forall t :: t in thr ==> thr'[t].prio == thr[t].prio && thr'[t].on == thr[t].on && thr'[t].since == thr[t].since)
    && (forall t :: t in thr && thr[t].on.Some? ==> !OnRq(thr'[t].status))
  }

  lemma SortedFrame(thr: map<Pid, Thread>, thr': map<Pid, Thread>, q: seq<Pid>)
    requires Sorted(thr, q)
    requires forall t :: t in q ==> Th(thr', t).prio == Th(thr, t).prio && Th(thr', t).since == Th(thr, t).since
    ensures Sorted(thr', q)
  {
    forall i, j | 0 <= i < j < |q| ensures Before(Th(thr', q[i]), Th(thr', q[j])) {
      assert q[i] in q && q[j] in q;
    }
  }

  lemma ListsFrame(thr: map<Pid, Thread>, thr': map<Pid, Thread>, lists: map<ListRef, seq<Pid>>, clock: nat)
    requires Lists(thr, lists) && Order(thr, lists, clock) && SameLinks(thr, thr')
    ensures Lists(thr', lists) && Order(thr', lists, clock)
  {
    forall r ensures Sorted(thr', List(lists, r)) {
      assert Sorted(thr, List(lists, r));
      SortedFrame(thr, thr', List(lists, r));
    }
  }

  /** A change to a thread that touches neither its place nor its priority. */
  ghost predicate SamePlace(a: Thread, b: Thread) {
    && a.prio == b.prio && a.on == b.on && a.since == b.since
    && OnRq(a.status) == OnRq(b.status)
  }

  lemma PutKeepsBase(k: K, t: Pid, th: Thread)
    requires Base(k) && t in k.thr && SamePlace(k.thr[t], th)
    ensures Base(Put(k, t, th))
  {
    QueuesFrame(k.thr, k.s.rq, t, th);
    ListsFrame(k.thr, k.thr[t := th], k.w.lists, k.w.clock);
  }

  // ---------------------------------------------------------------- wait list steps

  lemma InsertFacts(q: seq<Pid>, i: nat, t: Pid)
    requires Distinct(q) && i <= |q| && t !in q
    ensures Distinct(q[..i] + [t] + q[i..])
    ensures forall x :: x in q[..i] + [t] + q[i..] <==> x in q || x == t
  {
    var q' := q[..i] + [t] + q[i..];
    forall x | x in q ensures x in q' {
      var j :| 0 <= j < |q| && q[j] == x;
      assert q'[if j < i then j else j + 1] == x;
    }
    assert q'[i] == t;
    forall a, b | 0 <= a < b < |q'| ensures q'[a] != q'[b] {
      var a' := if a <= i then a else a - 1;
      var b' := if b <= i then b else b - 1;
      assert a != i ==> q'[a] == q[a'];
      assert b != i ==> q'[b] == q[b'];
    }
  }

  /** Replacing one list, and with it one thread's place, keeps every other place. */
  lemma ListsChange(thr: map<Pid, Thread>, lists: map<ListRef, seq<Pid>>, r: ListRef, t: Pid, th: Thread, q: seq<Pid>)
    requires Lists(thr, lists) && t in thr
    requires Distinct(q)
    requires forall x :: x in q <==> if x == t then th.on == Some(r) else x in List(lists, r)
    requires th.on == Some(r) || th.on == None
    requires thr[t].on == Some(r) || thr[t].on == None
    requires th.on.Some? ==> !OnRq(th.status)
    requires r.MsgWaiters? && q != [] ==> r.target in thr
    ensures Lists(thr[t := th], lists[r := q])
  {
    var thr', lists' := thr[t := th], lists[r := q];
    forall r', x ensures x in List(lists', r') <==> x in thr' && thr'[x].on == Some(r') {
      PlaceKept(thr, lists, r, t, th, q, r', x);
    }
    forall r' ensures Distinct(List(lists', r')) {
      assert Distinct(List(lists, r'));
    }
    forall x | List(lists', MsgWaiters(x)) != [] ensures x in thr' {
      assert r != MsgWaiters(x) ==> List(lists, MsgWaiters(x)) != [];
    }
  }

  lemma PlaceKept(thr: map<Pid, Thread>, lists: map<ListRef, seq<Pid>>, r: ListRef, t: Pid, th: Thread, q: seq<Pid>, r': ListRef, x: Pid)
    requires t in thr && (x in List(lists, r') <==> x in thr && thr[x].on == Some(r'))
    requires x in q <==> if x == t then th.on == Some(r) else x in List(lists, r)
    requires (th.on == Some(r) || th.on == None) && (thr[t].on == Some(r) || thr[t].on == None)
    ensures x in List(lists[r := q], r') <==> x in thr[t := th] && thr[t := th][x].on == Some(r')
  {
  }

  lemma OrderChange(thr: map<Pid, Thread>, lists: map<ListRef, seq<Pid>>, clock: nat, clock': nat,
                    r: ListRef, t: Pid, th: Thread, q: seq<Pid>)
    requires Lists(thr, lists) && Order(thr, lists, clock) && t in thr
    requires thr[t].on == Some(r) || thr[t].on == None
    requires clock <= clock' && (th.on.Some? ==> th.since < clock')
    requires Sorted(thr[t := th], q)
    ensures Order(thr[t := th], lists[r := q], clock')
  {
    var thr', lists' := thr[t := th], lists[r := q];
    forall r' ensures Sorted(thr', List(lists', r')) {
      if r' != r { OtherListSorted(thr, lists, r, r', t, th); }
    }
  }

  lemma OtherListSorted(thr: map<Pid, Thread>, lists: map<ListRef, seq<Pid>>, r: ListRef, r': ListRef, t: Pid, th: Thread)
    requires Lists(thr, lists) && t in thr && Sorted(thr, List(lists, r')) && r' != r
    requires thr[t].on == Some(r) || thr[t].on == None
    ensures Sorted(thr[t := th], List(lists, r'))
  {
    assert t !in List(lists, r');
    SortedFrame(thr, thr[t := th], List(lists, r'));
  }

  /** The newcomer goes behind its equals and ahead of everything worse. */
  lemma InsertOrder(thr: map<Pid, Thread>, q: seq<Pid>, i: nat, t: Pid, th: Thread)
    requires i <= |q| && t !in q
    requires Sorted(thr, q)
    requires forall j :: 0 <= j < i ==> Before(Th(thr, q[j]), th)
    requires i < |q| ==> Before(th, Th(thr, q[i]))
    ensures Sorted(thr[t := th], q[..i] + [t] + q[i..])
  {
    var q' := q[..i] + [t] + q[i..];
    forall a, b | 0 <= a < b < |q'| ensures Before(Th(thr[t := th], q'[a]), Th(thr[t := th], q'[b])) {
      if b < i {
        assert q'[a] == q[a] && q'[b] == q[b];
      } else if b == i {
        assert q'[a] == q[a] && q'[b] == t;
      } else {
        assert q'[b] == q[b - 1];
        if a > i {
          assert q'[a] == q[a - 1];
        } else if a < i {
          assert q'[a] == q[a];
        } else {
          assert b - 1 == i || Before(Th(thr, q[i]), Th(thr, q[b - 1]));
        }
      }
    }
  }

  /** Queues only looks at the priority and at whether the status is a runnable one. */
  lemma QueuesFrame(thr: map<Pid, Thread>, rq: map<nat, seq<Pid>>, t: Pid, th: Thread)
    requires Table(thr) && Queues(thr, rq) && t in thr
    requires th.prio == thr[t].prio && OnRq(th.status) == OnRq(thr[t].status)
    ensures Table(thr[t := th]) && Queues(thr[t := th], rq)
  {
    var thr' := thr[t := th];
    forall p: nat, x ensures x in Rq(rq, p) <==> x in thr' && thr'[x].prio == p && OnRq(thr'[x].status) {
      assert x in Rq(rq, p) <==> x in thr && thr[x].prio == p && OnRq(thr[x].status);
    }
  }

  lemma AddKeepsBase(k: K, r: ListRef, t: Pid)
    requires Base(k) && t in k.thr && !OnRq(k.thr[t].status) && k.thr[t].on == None
    requires r.MsgWaiters? ==> r.target in k.thr
    ensures Base(AddToList(k, r, t))
  {
    var q := List(k.w.lists, r);
    var th := k.thr[t].(on := Some(r), since := k.w.clock);
    var i := InsertPos(k.thr, q, th.prio);
    var q' := q[..i] + [t] + q[i..];
    QueuesFrame(k.thr, k.s.rq, t, th);
    assert t !in q && Sorted(k.thr, q);
    InsertFacts(q, i, t);
    ListsChange(k.thr, k.w.lists, r, t, th, q');
    forall j | 0 <= j < i ensures Before(Th(k.thr, q[j]), th) {
      assert q[j] in q;
    }
    InsertOrder(k.thr, q, i, t, th);
    OrderChange(k.thr, k.w.lists, k.w.clock, k.w.clock + 1, r, t, th, q');
  }

  lemma RemoveKeepsBase(k: K, r: ListRef)
    requires Base(k) && List(k.w.lists, r) != []
    ensures List(k.w.lists, r)[0] in k.thr
    ensures Base(RemoveHead(k, r))
  {
    var q := List(k.w.lists, r);
    var t := q[0];
    assert t in q;
    var th := k.thr[t].(on := None);
    PopFacts(q);
    QueuesFrame(k.thr, k.s.rq, t, th);
    assert r.MsgWaiters? ==> r.target in k.thr;
    ListsChange(k.thr, k.w.lists, r, t, th, q[1..]);
    assert Sorted(k.thr, q);
    assert Sorted(k.thr, q[1..]);
    SortedFrame(k.thr, k.thr[t := th], q[1..]);
    OrderChange(k.thr, k.w.lists, k.w.clock, k.w.clock, r, t, th, q[1..]);
  }
}
