/** Every kernel call keeps the invariant: sleeping, mutexes, condition variables. */
module KernelSteps {
  import opened KernelTypes
  import opened KernelSpec
  import opened KernelStruct
  import opened KernelInv

  /** The active thread may make a kernel call. The idle thread makes none. */
  ghost predicate CanCall(k: K) {
    && Inv(k)
    && !k.s.pend
    && k.s.active != PID_IDLE
    && Me(k).call == User
  }

  /** The active thread is about to go on inside the call it made. */
  ghost predicate CanGoOn(k: K) {
    Inv(k) && !k.s.pend && k.s.active != PID_IDLE
  }

  /** What a blocking step needs: in the middle of a call, too, the active thread is
      still at the head of its queue. */
  ghost predicate Poised(k: K) {
    Base(k) && Content(k) && AtHead(k) && k.s.active != PID_IDLE
  }

  lemma ActiveFacts(k: K)
    requires Base(k) && Content(k) && AtHead(k)
    ensures k.s.active in k.thr && OnRq(Me(k).status) && Me(k).on == None
    ensures Agree(k.s.active, Me(k)) && Kept(k.x.mem, k.s.active, Me(k))
    ensures MailOk(Me(k), List(k.w.lists, MsgWaiters(k.s.active)))
  {
    HeadFacts(k, Me(k).prio);
  }

  // ---------------------------------------------------------------- readiness

  /** Run queues only got longer at the end, and only from priority `floor` on. */
  ghost predicate Grown(rq: map<nat, seq<Pid>>, rq': map<nat, seq<Pid>>, floor: nat) {
    forall p: nat :: Rq(rq, p) <= Rq(rq', p) && (p < floor ==> Rq(rq', p) == Rq(rq, p))
  }

  /** Waking threads and comparing with the best of them: either the active thread
      still is the right one, or a yield is pending. */
  lemma GrownReady(k: K, k': K, prio: nat)
    requires Ready(k) && k'.s == k.s.(rq := k'.s.rq) && Grown(k.s.rq, k'.s.rq, prio)
    requires k.s.active in k'.thr && k'.thr[k.s.active].prio == k.thr[k.s.active].prio
    ensures Ready(SchedSwitch(k', prio))
  {
    var k2 := SchedSwitch(k', prio);
    if !k2.s.pend {
      var p0 := k.thr[k.s.active].prio;
      assert Rq(k.s.rq, p0) <= Rq(k'.s.rq, p0);
      assert forall p: nat :: p < p0 ==> Rq(k2.s.rq, p) == Rq(k.s.rq, p);
    }
  }

  lemma JoinGrows(rq: map<nat, seq<Pid>>, p: nat, t: Pid)
    ensures Grown(rq, rq[p := Rq(rq, p) + [t]], p)
  {
  }

  /** A step that changes no queue and not the active thread's place. */
  lemma SameReady(k: K, k': K)
    requires Ready(k) && k'.s == k.s && k.s.active in k'.thr
    requires k'.thr[k.s.active].prio == k.thr[k.s.active].prio
    ensures Ready(k')
  {
  }

  // ---------------------------------------------------------------- blocking and waking

  /** The active thread leaves its run queue: the pop removes it and nothing else. */
  lemma BlockFacts(k: K, th: Thread, s: Status)
    requires Base(k) && AtHead(k) && k.s.active != PID_IDLE && SamePlace(Me(k), th) && !OnRq(s)
    ensures Base(Block(k, th, s))
    ensures Block(k, th, s).thr == k.thr[k.s.active := th.(status := s)]
    ensures Block(k, th, s).w == k.w && Block(k, th, s).l == k.l && Block(k, th, s).x == k.x
    ensures Block(k, th, s).s == k.s.(rq := k.s.rq[th.prio := Rq(k.s.rq, th.prio)[1..]])
  {
    HeadFacts(k, Me(k).prio);
    PutKeepsBase(k, k.s.active, th);
    LeaveKeepsBase(Put(k, k.s.active, th), k.s.active, s);
  }

  /** A thread off the run queue joins it. */
  lemma JoinFacts(k: K, t: Pid, s: Status)
    requires t in k.thr && !OnRq(k.thr[t].status) && OnRq(s)
    ensures var k' := SetStatus(k, t, s); var p := k.thr[t].prio;
      && k'.thr == k.thr[t := k.thr[t].(status := s)]
      && k'.w == k.w && k'.l == k.l && k'.x == k.x
      && k'.s == k.s.(rq := k.s.rq[p := Rq(k.s.rq, p) + [t]])
  {
  }

  lemma WakeHeadBase(k: K, r: ListRef)
    requires Base(k) && List(k.w.lists, r) != []
    ensures List(k.w.lists, r)[0] in k.thr && k.thr[List(k.w.lists, r)[0]].on == Some(r)
    ensures !OnRq(k.thr[List(k.w.lists, r)[0]].status)
    ensures Base(WakeHead(k, r))
  {
    var q := List(k.w.lists, r);
    assert q[0] in q;
    RemoveKeepsBase(k, r);
    JoinKeepsBase(RemoveHead(k, r), q[0], Pending);
  }

  /** The head of a wait list becomes runnable, and nothing else moves. */
  lemma WakeHeadFacts(k: K, r: ListRef)
    requires Base(k) && List(k.w.lists, r) != []
    ensures List(k.w.lists, r)[0] in k.thr && k.thr[List(k.w.lists, r)[0]].on == Some(r)
    ensures !OnRq(k.thr[List(k.w.lists, r)[0]].status)
    ensures var k' := WakeHead(k, r); var t := List(k.w.lists, r)[0];
      && Base(k')
      && k'.thr == k.thr[t := k.thr[t].(on := None, status := Pending)]
      && k'.w.lists == k.w.lists[r := List(k.w.lists, r)[1..]]
      && k'.l == k.l && k'.x == k.x && k'.flagsOn == k.flagsOn
      && k'.s == k.s.(rq := k'.s.rq)
      && Grown(k.s.rq, k'.s.rq, k.thr[t].prio)
  {
    WakeHeadBase(k, r);
    WakeHeadMoves(k, r, List(k.w.lists, r)[0]);
  }

  lemma WakeHeadMoves(k: K, r: ListRef, t: Pid)
    requires List(k.w.lists, r) != [] && t == List(k.w.lists, r)[0] && t in k.thr && !OnRq(k.thr[t].status)
    ensures var k' := WakeHead(k, r);
      && k'.thr == k.thr[t := k.thr[t].(on := None, status := Pending)]
      && k'.w.lists == k.w.lists[r := List(k.w.lists, r)[1..]]
      && k'.l == k.l && k'.x == k.x && k'.flagsOn == k.flagsOn
      && k'.s == k.s.(rq := k'.s.rq)
      && Grown(k.s.rq, k'.s.rq, k.thr[t].prio)
  {
    JoinFacts(RemoveHead(k, r), t, Pending);
    JoinGrows(k.s.rq, k.thr[t].prio, t);
  }

  /** The active thread blocks and its link field goes onto list r. */
  lemma BlockOnFacts(k: K, th: Thread, s: Status, l: Locks, r: ListRef)
    requires Base(k) && AtHead(k) && k.s.active != PID_IDLE && SamePlace(Me(k), th) && !OnRq(s)
    requires r.MsgWaiters? ==> r.target in k.thr
    ensures var k' := AddToList(Block(k, th, s).(l := l), r, k.s.active);
      && Base(k')
      && k'.thr == k.thr[k.s.active := th.(status := s, on := Some(r), since := k.w.clock)]
      && List(k'.w.lists, r) != [] && k'.w.lists == k.w.lists[r := List(k'.w.lists, r)]
      && k'.l == l && k'.x == k.x && k'.flagsOn == k.flagsOn
      && k'.s == k.s.(rq := k'.s.rq)
  {
    HeadFacts(k, Me(k).prio);
    BlockFacts(k, th, s);
    var k1 := Block(k, th, s).(l := l);
    assert k.s.active in Rq(k.s.rq, Me(k).prio);
    AddKeepsBase(k1, r, k.s.active);
    AddFacts(k1, r, k.s.active);
  }

  lemma AddFacts(k: K, r: ListRef, t: Pid)
    requires t in k.thr
    ensures var k' := AddToList(k, r, t);
      && k'.thr == k.thr[t := k.thr[t].(on := Some(r), since := k.w.clock)]
      && List(k'.w.lists, r) != [] && k'.w.lists == k.w.lists[r := List(k'.w.lists, r)]
      && k'.s == k.s && k'.l == k.l && k'.x == k.x
  {
  }

  lemma OwnFacts(k: K, t: Pid)
    requires Content(k) && t in k.thr
    ensures Agree(t, k.thr[t]) && Kept(k.x.mem, t, k.thr[t])
    ensures MailOk(k.thr[t], List(k.w.lists, MsgWaiters(t)))
  {
  }

  lemma SleepKeeps(k: K)
    requires Poised(k) && Me(k).call == User
    ensures Inv(Sleep(k))
  {
    ActiveFacts(k);
    var th := Me(k).(call := InSleep);
    BlockFacts(k, th, Sleeping);
    PutKeepsContent(k, k.s.active, th.(status := Sleeping));
  }

  lemma WakeupKeeps(k: K, t: Pid)
    requires Inv(k)
    ensures Inv(Wakeup(k, t))
  {
    if t in k.thr && k.thr[t].status.Sleeping? {
      OwnFacts(k, t);
      JoinKeepsBase(k, t, Running);
      JoinFacts(k, t, Running);
      PutKeepsContent(k, t, k.thr[t].(status := Running));
      JoinGrows(k.s.rq, k.thr[t].prio, t);
      GrownReady(k, SetStatus(k, t, Running), k.thr[t].prio);
    }
  }

  lemma YieldKeeps(k: K)
    requires Inv(k) && !k.s.pend
    ensures Inv(Yield(k))
  {
    ActiveFacts(k);
    var q := Rq(k.s.rq, Me(k).prio);
    PopFacts(q);
    assert k.s.active in q;
    QueuesChange(k.thr, k.s.rq, k.s.active, Me(k), q[1..] + [q[0]]);
    assert k.thr[k.s.active := Me(k)] == k.thr;
  }

  // ---------------------------------------------------------------- mutexes

  lemma MutexesAcquire(thr: map<Pid, Thread>, lists: map<ListRef, seq<Pid>>, marked: set<MutexId>, holder: map<MutexId, Pid>,
                       t: Pid, th: Thread, m: MutexId)
    requires Mutexes(thr, lists, marked, holder) && t in thr
    requires m !in marked && List(lists, MutexQ(m)) == []
    requires forall n :: Holds(th, n) <==> n == m || Holds(thr[t], n)
    ensures Mutexes(thr[t := th], lists, marked + {m}, holder[m := t])
  {
    var thr', holder' := thr[t := th], holder[m := t];
    forall x, n | x in thr' && Holds(thr'[x], n) ensures n in holder' && holder'[n] == x {
      assert Holds(thr[x], n) || (x == t && n == m);
    }
  }

  lemma MutexesFree(thr: map<Pid, Thread>, lists: map<ListRef, seq<Pid>>, marked: set<MutexId>, holder: map<MutexId, Pid>,
                    t: Pid, th: Thread, m: MutexId)
    requires Mutexes(thr, lists, marked, holder) && t in thr
    requires m in marked && Holds(thr[t], m)
    requires forall n :: Holds(th, n) <==> n != m && Holds(thr[t], n)
    ensures Mutexes(thr[t := th], lists, marked - {m}, holder - {m})
  {
    var thr', holder' := thr[t := th], holder - {m};
    forall x, n | x in thr' && Holds(thr'[x], n) ensures n in holder' && holder'[n] == x {
      assert Holds(thr[x], n);
    }
  }

  /** Ownership moves from t to u while the mutex stays locked. */
  lemma MutexesHand(thr: map<Pid, Thread>, lists: map<ListRef, seq<Pid>>, marked: set<MutexId>, holder: map<MutexId, Pid>,
                    t: Pid, th: Thread, u: Pid, uh: Thread, m: MutexId)
    requires Mutexes(thr, lists, marked, holder) && t in thr && u in thr && t != u
    requires Holds(thr[t], m) && List(lists, MutexQ(m)) != []
    requires forall n :: Holds(th, n) <==> n != m && Holds(thr[t], n)
    requires forall n :: Holds(uh, n) <==> n == m || Holds(thr[u], n)
    ensures var q := List(lists, MutexQ(m))[1..];
            Mutexes(thr[t := th][u := uh], lists[MutexQ(m) := q], if q == [] then marked + {m} else marked, holder[m := u])
  {
    var thr', holder' := thr[t := th][u := uh], holder[m := u];
    forall x, n | x in thr' && Holds(thr'[x], n) ensures n in holder' && holder'[n] == x {
      assert Holds(thr[x], n) || (x == u && n == m);
    }
    forall n | n in holder' ensures holder'[n] in thr' && Holds(thr'[holder'[n]], n) {
      if n != m { assert Holds(thr[holder[n]], n); }
    }
  }

  lemma AcquireKeeps(k: K, m: MutexId)
    requires CanGoOn(k) && IsFree(k, m)
    requires Me(k).call == User || Me(k).call.InCond?
    ensures Inv(Acquire(k, m))
  {
    ActiveFacts(k);
    var th := Me(k).(has := Me(k).has + {m}, call := User);
    var k' := Acquire(k, m);
    PutKeepsBase(k, k.s.active, th);
    ThreadsStep(k, k', k.s.active, th);
    SameReady(k, k');
    MutexesAcquire(k.thr, k.w.lists, k.l.marked, k.l.holder, k.s.active, th, m);
  }

  lemma MutexesWait(thr: map<Pid, Thread>, lists: map<ListRef, seq<Pid>>, marked: set<MutexId>, holder: map<MutexId, Pid>,
                    m: MutexId, q: seq<Pid>)
    requires Mutexes(thr, lists, marked, holder)
    requires (m in marked || List(lists, MutexQ(m)) != []) && q != []
    ensures Mutexes(thr, lists[MutexQ(m) := q], marked - {m}, holder)
  {
    var lists' := lists[MutexQ(m) := q];
    forall n ensures n in holder <==> n in marked - {m} || List(lists', MutexQ(n)) != [] {
      assert n in holder <==> n in marked || List(lists, MutexQ(n)) != [];
    }
  }

  lemma WaitForMutexKeeps(k: K, m: MutexId)
    requires Poised(k) && !IsFree(k, m)
    requires Me(k).call == User || Me(k).call.InCond?
    ensures Inv(WaitForMutex(k, m))
  {
    ActiveFacts(k);
    var me := k.s.active;
    var th := Me(k).(call := InLock(m));
    BlockOnFacts(k, th, MutexBlocked, k.l.(marked := k.l.marked - {m}), MutexQ(m));
    BlockFacts(k, th, MutexBlocked);
    var th' := th.(status := MutexBlocked, on := Some(MutexQ(m)), since := k.w.clock);
    var k' := WaitForMutex(k, m);
    ThreadsStep(k, k', me, th');
    MutexesPut(k.thr, k.w.lists, k.l.marked, k.l.holder, me, th');
    MutexesWait(k'.thr, k.w.lists, k.l.marked, k.l.holder, m, List(k'.w.lists, MutexQ(m)));
  }

  lemma LockKeeps(k: K, m: MutexId, blocking: bool)
    requires CanCall(k)
    ensures Inv(Lock(k, m, blocking))
  {
    if IsFree(k, m) {
      AcquireKeeps(k, m);
    } else if blocking {
      WaitForMutexKeeps(k, m);
    }
  }

  /** What releasing a mutex leaves for the rest of the call. */
  ghost predicate Released(k: K, k': K) {
    && Poised(k') && Me(k').call == User && Me(k').prio == Me(k).prio
    && k'.s == k.s.(rq := k'.s.rq) && k.s.active in k'.thr
  }

  lemma FreeMutexKeeps(k: K, m: MutexId)
    requires Poised(k) && m in Me(k).has && m in k.l.marked && Me(k).call == User
    ensures Released(k, FreeMutex(k, m)) && FreeMutex(k, m).s == k.s
  {
    ActiveFacts(k);
    var th := Me(k).(has := Me(k).has - {m});
    var k' := FreeMutex(k, m);
    PutKeepsBase(k, k.s.active, th);
    ThreadsStep(k, k', k.s.active, th);
    MutexesFree(k.thr, k.w.lists, k.l.marked, k.l.holder, k.s.active, th, m);
  }

  /** Waking a mutex or condition waiter is a step its own invariant allows. */
  lemma WakeHeadThreads(k: K, r: ListRef)
    requires Base(k) && Threads(k) && List(k.w.lists, r) != [] && !r.MsgWaiters?
    ensures Threads(WakeHead(k, r))
  {
    WakeHeadFacts(k, r);
    var t := List(k.w.lists, r)[0];
    assert Agree(t, k.thr[t]) && Kept(k.x.mem, t, k.thr[t]) && MailOk(k.thr[t], List(k.w.lists, MsgWaiters(t)));
    ThreadsStep(k, WakeHead(k, r), t, k.thr[t].(on := None, status := Pending));
  }

  lemma HandOffFacts(k: K, m: MutexId)
    requires Base(k) && AtHead(k) && List(k.w.lists, MutexQ(m)) != []
    ensures var u := List(k.w.lists, MutexQ(m))[0];
      && u in k.thr && u != k.s.active && k.thr[u].on == Some(MutexQ(m)) && !OnRq(k.thr[u].status)
    ensures var k' := HandOff(k, m); var q := List(k.w.lists, MutexQ(m)); var u := q[0];
      && Base(k')
      && k'.thr == k.thr[k.s.active := Me(k).(has := Me(k).has - {m})][u := k.thr[u].(on := None, status := Pending)]
      && k'.w.lists == k.w.lists[MutexQ(m) := q[1..]]
      && k'.l == Locks(if q[1..] == [] then k.l.marked + {m} else k.l.marked, k.l.holder[m := u])
      && k'.s == k.s.(rq := k'.s.rq) && Grown(k.s.rq, k'.s.rq, k.thr[u].prio)
  {
    HeadFacts(k, Me(k).prio);
    var th := Me(k).(has := Me(k).has - {m});
    assert List(k.w.lists, MutexQ(m))[0] in List(k.w.lists, MutexQ(m));
    PutKeepsBase(k, k.s.active, th);
    WakeHeadFacts(Put(k, k.s.active, th), MutexQ(m));
  }

  lemma HandOffThreads(k: K, m: MutexId)
    requires Poised(k) && Me(k).call == User && List(k.w.lists, MutexQ(m)) != []
    ensures Threads(HandOff(k, m))
  {
    ActiveFacts(k);
    var th := Me(k).(has := Me(k).has - {m});
    PutKeepsBase(k, k.s.active, th);
    ThreadsStep(k, Put(k, k.s.active, th), k.s.active, th);
    WakeHeadThreads(Put(k, k.s.active, th), MutexQ(m));
  }

  lemma HandOffMutexes(k: K, m: MutexId)
    requires Poised(k) && m in Me(k).has && Me(k).call == User && List(k.w.lists, MutexQ(m)) != []
    ensures var k' := HandOff(k, m); Mutexes(k'.thr, k'.w.lists, k'.l.marked, k'.l.holder)
  {
    HandOffFacts(k, m);
    var u := List(k.w.lists, MutexQ(m))[0];
    assert Agree(u, k.thr[u]);
    MutexesHand(k.thr, k.w.lists, k.l.marked, k.l.holder, k.s.active, Me(k).(has := Me(k).has - {m}),
                u, k.thr[u].(on := None, status := Pending), m);
  }

  lemma HandOffKeeps(k: K, m: MutexId)
    requires Poised(k) && m in Me(k).has && List(k.w.lists, MutexQ(m)) != [] && Me(k).call == User
    ensures Released(k, HandOff(k, m))
    ensures Grown(k.s.rq, HandOff(k, m).s.rq, Th(k.thr, List(k.w.lists, MutexQ(m))[0]).prio)
  {
    HandOffFacts(k, m);
    HandOffThreads(k, m);
    HandOffMutexes(k, m);
    assert Rq(k.s.rq, Me(k).prio) <= Rq(HandOff(k, m).s.rq, Me(k).prio);
  }

  // ---------------------------------------------------------------- unlocking

  /** The caller may release m: it holds m, or m is free and nothing happens. */
  predicate MayRelease(k: K, m: MutexId) {
    IsFree(k, m) || m in Me(k).has
  }

  lemma ReleaseKeeps(k: K, m: MutexId)
    requires Poised(k) && MayRelease(k, m) && Me(k).call == User
    ensures Released(k, Release(k, m))
  {
    if !IsFree(k, m) {
      if m in k.l.marked { FreeMutexKeeps(k, m); } else { HandOffKeeps(k, m); }
    }
  }

  lemma UnlockKeeps(k: K, m: MutexId)
    requires CanCall(k) && MayRelease(k, m)
    ensures Inv(Unlock(k, m)) && Poised(Unlock(k, m)) && Me(Unlock(k, m)).call == User
    ensures Unlock(k, m).s.active == k.s.active
  {
    var q := List(k.w.lists, MutexQ(m));
    if m in k.l.marked || q == [] {
      ReleaseKeeps(k, m);
      if !IsFree(k, m) { FreeMutexKeeps(k, m); }
      SameReady(k, Release(k, m));
    } else {
      assert Mutexes(k.thr, k.w.lists, k.l.marked, k.l.holder);
      HandOffKeeps(k, m);
      GrownReady(k, HandOff(k, m), Th(k.thr, q[0]).prio);
    }
  }

  lemma UnlockAndSleepKeeps(k: K, m: MutexId)
    requires CanCall(k) && MayRelease(k, m)
    ensures Inv(UnlockAndSleep(k, m))
  {
    ReleaseKeeps(k, m);
    SleepKeeps(Release(k, m));
  }

  // ---------------------------------------------------------------- condition variables

  /** Other lists and one thread's change that holds the same mutexes. */
  lemma MutexesAside(thr: map<Pid, Thread>, lists: map<ListRef, seq<Pid>>, marked: set<MutexId>, holder: map<MutexId, Pid>,
                     t: Pid, th: Thread, r: ListRef, q: seq<Pid>)
    requires Mutexes(thr, lists, marked, holder) && t in thr && !r.MutexQ?
    requires forall m :: Holds(th, m) == Holds(thr[t], m)
    ensures Mutexes(thr[t := th], lists[r := q], marked, holder)
  {
    MutexesPut(thr, lists, marked, holder, t, th);
    assert forall m :: List(lists[r := q], MutexQ(m)) == List(lists, MutexQ(m));
  }

  /** The second half of cond_wait's first section. */
  lemma WaitForCondKeeps(k: K, c: CondId, m: MutexId)
    requires Poised(k) && Me(k).call == User
    ensures Inv(Pend(AddToList(Block(k, Me(k).(call := InCond(c, m)), CondBlocked), CondQ(c), k.s.active)))
  {
    ActiveFacts(k);
    var me := k.s.active;
    var th := Me(k).(call := InCond(c, m));
    BlockFacts(k, th, CondBlocked);
    BlockOnFacts(k, th, CondBlocked, k.l, CondQ(c));
    var k1 := Block(k, th, CondBlocked);
    assert k1.(l := k.l) == k1;
    var th' := th.(status := CondBlocked, on := Some(CondQ(c)), since := k.w.clock);
    var k' := Pend(AddToList(k1, CondQ(c), me));
    ThreadsStep(k, k', me, th');
    MutexesAside(k.thr, k.w.lists, k.l.marked, k.l.holder, me, th', CondQ(c), List(k'.w.lists, CondQ(c)));
  }

  lemma CondWaitKeeps(k: K, c: CondId, m: MutexId)
    requires CanCall(k) && MayRelease(k, m)
    ensures Inv(CondWait(k, c, m))
  {
    UnlockKeeps(k, m);
    WaitForCondKeeps(Unlock(k, m), c, m);
  }

  lemma RelockKeeps(k: K)
    requires CanGoOn(k)
    ensures Inv(Relock(k))
  {
    if Me(k).call.InCond? {
      if IsFree(k, Me(k).call.m) {
        AcquireKeeps(k, Me(k).call.m);
      } else {
        WaitForMutexKeeps(k, Me(k).call.m);
      }
    }
  }

  /** Waking condition waiters leaves mutexes alone: they still have to lock. */
  lemma WakeCondKeeps(k: K, c: CondId)
    requires Base(k) && Content(k) && List(k.w.lists, CondQ(c)) != []
    ensures Base(WakeHead(k, CondQ(c))) && Content(WakeHead(k, CondQ(c)))
  {
    WakeHeadFacts(k, CondQ(c));
    WakeHeadThreads(k, CondQ(c));
    var t := List(k.w.lists, CondQ(c))[0];
    assert Agree(t, k.thr[t]);
    MutexesAside(k.thr, k.w.lists, k.l.marked, k.l.holder, t, k.thr[t].(on := None, status := Pending),
                 CondQ(c), List(k.w.lists, CondQ(c))[1..]);
  }

  lemma GrownTwice(a: map<nat, seq<Pid>>, b: map<nat, seq<Pid>>, c: map<nat, seq<Pid>>, f: nat, g: nat, h: nat)
    requires Grown(a, b, f) && Grown(b, c, g) && h <= f && h <= g
    ensures Grown(a, c, h)
  {
  }

  lemma {:induction false} WakeAllKeeps(k: K, c: CondId, floor: nat)
    requires Base(k) && Content(k) && k.s.active in k.thr
    requires forall t :: t in List(k.w.lists, CondQ(c)) ==> floor <= Th(k.thr, t).prio
    ensures var k' := WakeAll(k, c);
      && Base(k') && Content(k') && List(k'.w.lists, CondQ(c)) == []
      && k'.s == k.s.(rq := k'.s.rq) && Grown(k.s.rq, k'.s.rq, floor)
      && k.s.active in k'.thr && k'.thr[k.s.active].prio == k.thr[k.s.active].prio
    decreases |List(k.w.lists, CondQ(c))|
  {
    var q := List(k.w.lists, CondQ(c));
    if q != [] {
      WakeCondKeeps(k, c);
      WakeHeadFacts(k, CondQ(c));
      var k1 := WakeHead(k, CondQ(c));
      assert q[0] in q;
      forall t | t in List(k1.w.lists, CondQ(c)) ensures floor <= Th(k1.thr, t).prio {
        assert t in q;
      }
      WakeAllKeeps(k1, c, floor);
      GrownTwice(k.s.rq, k1.s.rq, WakeAll(k1, c).s.rq, k.thr[q[0]].prio, floor, floor);
    }
  }

  lemma SwitchKeeps(k: K, k': K, prio: nat)
    requires Ready(k) && Base(k') && Content(k')
    requires k'.s == k.s.(rq := k'.s.rq) && Grown(k.s.rq, k'.s.rq, prio)
    requires k.s.active in k'.thr && k'.thr[k.s.active].prio == k.thr[k.s.active].prio
    ensures Inv(SchedSwitch(k', prio))
  {
    GrownReady(k, k', prio);
  }

  lemma SignalKeeps(k: K, c: CondId, broadcast: bool)
    requires Inv(k)
    ensures Inv(Signal(k, c, broadcast))
  {
    var q := List(k.w.lists, CondQ(c));
    if q != [] {
      if broadcast {
        WakeAllKeeps(k, c, MinPrio(k.thr, q));
        SwitchKeeps(k, WakeAll(k, c), MinPrio(k.thr, q));
      } else {
        WakeHeadFacts(k, CondQ(c));
        WakeCondKeeps(k, c);
        assert q[0] in q[..1];
        GrownTwice(k.s.rq, k.s.rq, WakeHead(k, CondQ(c)).s.rq, k.thr[q[0]].prio, k.thr[q[0]].prio, MinPrio(k.thr, q[..1]));
        SwitchKeeps(k, WakeHead(k, CondQ(c)), MinPrio(k.thr, q[..1]));
      }
    }
  }
}
