/** What the invariant means for the users of the kernel. By `KernelRuns.RunInv` it holds
    in every state of every legal run, so everything here does as well. */
module KernelTheorems {
  import opened KernelTypes
  import opened KernelSpec
  import opened KernelStruct
  import opened KernelInv
  import opened KernelSteps
  import opened KernelThreads
  import opened KernelMail
  import opened KernelReceive
  import opened KernelRuns

  // ---------------------------------------------------------------- links and run queues

  /** A thread's single link field is on its own run queue, once, iff the thread is
      runnable; else it is on at most one wait list, once. Wait lists are in order of
      priority, first come first served. */
  ghost predicate LinksExclusive(k: K, t: Pid)
    requires t in k.thr
  {
    && (forall p: nat :: t in Rq(k.s.rq, p) <==> p == k.thr[t].prio && OnRq(k.thr[t].status))
    && (forall r :: t in List(k.w.lists, r) ==> !OnRq(k.thr[t].status))
    && (forall r, r' :: t in List(k.w.lists, r) && t in List(k.w.lists, r') ==> r == r')
    && (forall p: nat :: Distinct(Rq(k.s.rq, p)))
    && (forall r :: Distinct(List(k.w.lists, r)) && Sorted(k.thr, List(k.w.lists, r)))
  }

  lemma LinkIsExclusive(k: K, t: Pid)
    requires Base(k) && t in k.thr
    ensures LinksExclusive(k, t)
  {
    forall r, r' | t in List(k.w.lists, r) && t in List(k.w.lists, r') ensures r == r' {
      assert k.thr[t].on == Some(r) && k.thr[t].on == Some(r');
    }
  }

  /** A thread on list r has the status and is in the call that belong to it. */
  ghost predicate ListAgrees(k: K, t: Pid, r: ListRef) {
    && t in k.thr
    && match r
       case MutexQ(m) => k.thr[t].status.MutexBlocked? && k.thr[t].call == InLock(m)
       case CondQ(c) => k.thr[t].status.CondBlocked? && k.thr[t].call.InCond? && k.thr[t].call.c == c
       case MsgWaiters(x) => (k.thr[t].status.SendBlocked? && k.thr[t].call == InSend(x))
                             || (k.thr[t].status.ReplyBlocked? && k.thr[t].call.InSendReceive? && k.thr[t].call.target == x)
  }

  lemma ListAgreesWithStatus(k: K, t: Pid, r: ListRef)
    requires Inv(k) && t in List(k.w.lists, r)
    ensures ListAgrees(k, t, r)
  {
    ListedThread(k.thr, k.w.lists, r, t);
    assert Agree(t, k.thr[t]);
    ListedAgrees(k, t, r);
  }

  lemma ListedThread(thr: map<Pid, Thread>, lists: map<ListRef, seq<Pid>>, r: ListRef, t: Pid)
    requires Lists(thr, lists) && t in List(lists, r)
    ensures t in thr && thr[t].on == Some(r)
  {
  }

  lemma ListedAgrees(k: K, t: Pid, r: ListRef)
    requires t in k.thr && k.thr[t].on == Some(r) && Agree(t, k.thr[t])
    ensures ListAgrees(k, t, r)
  {
  }

  /** sched_set_status removes the thread it is called for exactly when that thread is
      at the head of its run queue. */
  lemma PopIsRightIffHead(k: K, t: Pid, s: Status)
    requires Base(k) && t in k.thr && t != PID_IDLE && OnRq(k.thr[t].status) && !OnRq(s)
    ensures Queues(SetStatus(k, t, s).thr, SetStatus(k, t, s).s.rq) <==> [t] <= Rq(k.s.rq, k.thr[t].prio)
  {
    var q := Rq(k.s.rq, k.thr[t].prio);
    assert t in q;
    if q[0] == t {
      LeaveKeepsBase(k, t, s);
    } else {
      PopFacts(q);
      HeadFacts(k, k.thr[t].prio);
      var k' := SetStatus(k, t, s);
      assert q[0] !in Rq(k'.s.rq, k.thr[t].prio);
      assert k'.thr[q[0]] == k.thr[q[0]];
    }
  }

  /** sched_set_status of the active thread to status s takes this thread, which is at
      the head of its queue, off the run queues, and no other. */
  ghost predicate PopsActive(k: K, s: Status) {
    && [k.s.active] <= Rq(k.s.rq, Me(k).prio)
    && (forall p: nat, t :: t in Rq(SetStatus(k, k.s.active, s).s.rq, p) <==> t in Rq(k.s.rq, p) && t != k.s.active)
  }

  /** Wherever the active thread is at the head, in the middle of a call as well. */
  lemma PoisedPops(k: K, s: Status)
    requires Poised(k) && !OnRq(s)
    ensures PopsActive(k, s)
  {
    ActiveFacts(k);
    var q := Rq(k.s.rq, Me(k).prio);
    PopFacts(q);
    forall p: nat, t ensures t in Rq(SetStatus(k, k.s.active, s).s.rq, p) <==> t in Rq(k.s.rq, p) && t != k.s.active {
      assert k.s.active in Rq(k.s.rq, p) <==> p == Me(k).prio;
    }
  }

  // ---------------------------------------------------------------- strict priority

  /** No runnable thread has a better priority than the active one. */
  ghost predicate StrictPriority(k: K) {
    forall t :: t in k.thr && OnRq(k.thr[t].status) ==> Me(k).prio <= k.thr[t].prio
  }

  /** Where no yield is pending, strict priority holds exactly unless a better thread
      was woken without a yield since the scheduler last ran. */
  lemma PriorityIffNotLax(k: K)
    requires Inv(k) && !k.s.pend
    ensures StrictPriority(k) <==> !k.s.lax
  {
    if k.s.lax {
      var p: nat :| p < Me(k).prio && Rq(k.s.rq, p) != [];
      HeadFacts(k, p);
    } else {
      forall t | t in k.thr && OnRq(k.thr[t].status) ensures Me(k).prio <= k.thr[t].prio {
        assert t in Rq(k.s.rq, k.thr[t].prio);
      }
    }
  }

  // ---------------------------------------------------------------- mutexes

  /** The three forms of `queue.next`: NULL means that no thread holds the mutex,
      MUTEX_LOCKED that nobody waits, and a list holds exactly the waiters. */
  ghost predicate WordEncodes(k: K, m: MutexId) {
    && (m in k.l.marked ==> List(k.w.lists, MutexQ(m)) == [])
    && (!IsFree(k, m) <==> exists t :: t in k.thr && Holds(k.thr[t], m))
    && (forall t :: t in List(k.w.lists, MutexQ(m)) <==> t in k.thr && k.thr[t].status.MutexBlocked? && k.thr[t].call == InLock(m))
  }

  lemma MutexWordEncodes(k: K, m: MutexId)
    requires Inv(k)
    ensures WordEncodes(k, m)
  {
    HolderEncodes(k.thr, k.w.lists, k.l.marked, k.l.holder, m);
    forall t ensures t in List(k.w.lists, MutexQ(m)) <==> t in k.thr && k.thr[t].status.MutexBlocked? && k.thr[t].call == InLock(m) {
      MutexListEncodes(k, m, t);
    }
  }

  lemma HolderEncodes(thr: map<Pid, Thread>, lists: map<ListRef, seq<Pid>>, marked: set<MutexId>, holder: map<MutexId, Pid>, m: MutexId)
    requires Mutexes(thr, lists, marked, holder)
    ensures m in marked ==> List(lists, MutexQ(m)) == []
    ensures m in marked || List(lists, MutexQ(m)) != [] <==> exists t :: t in thr && Holds(thr[t], m)
  {
    assert m in holder <==> m in marked || List(lists, MutexQ(m)) != [];
    if m in holder {
      var u := holder[m];
      assert u in thr && Holds(thr[u], m);
    }
    forall t | t in thr && Holds(thr[t], m) ensures m in holder {
    }
  }

  lemma MutexListEncodes(k: K, m: MutexId, t: Pid)
    requires Inv(k)
    ensures t in List(k.w.lists, MutexQ(m)) <==> t in k.thr && k.thr[t].status.MutexBlocked? && k.thr[t].call == InLock(m)
  {
    if t in k.thr { assert Agree(t, k.thr[t]); }
    BlockedIsListed(k.thr, k.w.lists, m, t);
  }

  lemma BlockedIsListed(thr: map<Pid, Thread>, lists: map<ListRef, seq<Pid>>, m: MutexId, t: Pid)
    requires Lists(thr, lists) && (t in thr ==> Agree(t, thr[t]))
    ensures t in List(lists, MutexQ(m)) <==> t in thr && thr[t].status.MutexBlocked? && thr[t].call == InLock(m)
  {
    assert t in List(lists, MutexQ(m)) <==> t in thr && thr[t].on == Some(MutexQ(m));
  }

  /** Unlocking with waiters passes the mutex to the first waiter: it is not free
      afterwards and no trylock succeeds, whoever tries. */
  lemma UnlockHandsOver(k: K, m: MutexId)
    requires Inv(k) && Executes(k) && Me(k).call == User && m in Me(k).has && List(k.w.lists, MutexQ(m)) != []
    ensures var k' := Unlock(k, m); var u := List(k.w.lists, MutexQ(m))[0];
      && u in k'.thr && Holds(k'.thr[u], m) && !IsFree(k', m) && OnRq(k'.thr[u].status)
      && Lock(k', m, false) == k'
      && (forall t :: t in List(k.w.lists, MutexQ(m)) && t != u ==> Before(Th(k.thr, u), Th(k.thr, t)))
  {
    var q := List(k.w.lists, MutexQ(m));
    HandOffFacts(k, m);
    UnlockKeeps(k, m);
    assert Agree(q[0], k.thr[q[0]]);
    assert Sorted(k.thr, q);
    forall t | t in q && t != q[0] ensures Before(Th(k.thr, q[0]), Th(k.thr, t)) {
      var i :| 0 <= i < |q| && q[i] == t;
      assert Before(Th(k.thr, q[0]), Th(k.thr, q[i]));
    }
  }

  // ---------------------------------------------------------------- condition variables

  /** A thread inside cond_wait that has not been signalled is on the condition's
      list, so no signal can miss it. */
  ghost predicate Signallable(k: K, t: Pid)
    requires t in k.thr && k.thr[t].call.InCond?
  {
    t in List(k.w.lists, CondQ(k.thr[t].call.c)) <==> !OnRq(k.thr[t].status)
  }

  lemma NoLostWakeup(k: K, t: Pid)
    requires Inv(k) && t in k.thr && k.thr[t].call.InCond?
    ensures Signallable(k, t)
  {
    assert Agree(t, k.thr[t]);
  }

  /** In the state in which cond_wait has released the mutex the waiter is queued. */
  lemma CondWaitIsAtomic(k: K, c: CondId, m: MutexId)
    requires Inv(k) && Executes(k) && Me(k).call == User && m in Me(k).has
    ensures var k' := CondWait(k, c, m);
      && k.s.active in List(k'.w.lists, CondQ(c))
      && !Holds(Th(k'.thr, k.s.active), m)
  {
    CondWaitKeeps(k, c, m);
    UnlockKeeps(k, m);
    var k1 := Unlock(k, m);
    var th := Me(k1).(call := InCond(c, m));
    BlockFacts(k1, th, CondBlocked);
    AddFacts(Block(k1, th, CondBlocked), CondQ(c), k.s.active);
    UnlockDrops(k, m);
    var k' := CondWait(k, c, m);
    assert k'.thr[k.s.active].on == Some(CondQ(c));
  }

  lemma UnlockDrops(k: K, m: MutexId)
    requires CanCall(k) && m in Me(k).has
    ensures m !in Me(Unlock(k, m)).has
  {
    assert Holds(Me(k), m);
    if m !in k.l.marked {
      HandOffFacts(k, m);
    }
  }

  /** cond_signal wakes the best waiter; the rest stays queued. */
  lemma SignalWakesBest(k: K, c: CondId)
    requires Inv(k) && List(k.w.lists, CondQ(c)) != []
    ensures var k' := Signal(k, c, false); var q := List(k.w.lists, CondQ(c));
      && q[0] in k'.thr && OnRq(k'.thr[q[0]].status)
      && List(k'.w.lists, CondQ(c)) == q[1..]
      && (forall t :: t in q[1..] ==> Before(Th(k.thr, q[0]), Th(k.thr, t)))
  {
    var q := List(k.w.lists, CondQ(c));
    WakeHeadFacts(k, CondQ(c));
    assert Sorted(k.thr, q);
    forall t | t in q[1..] ensures Before(Th(k.thr, q[0]), Th(k.thr, t)) {
      var i :| 0 <= i < |q[1..]| && q[1..][i] == t;
      assert t in q;
      assert Before(Th(k.thr, q[0]), Th(k.thr, q[i + 1]));
    }
  }

  lemma {:induction false} WakeAllWakes(k: K, c: CondId, t: Pid)
    requires Base(k) && t in k.thr
    requires t in List(k.w.lists, CondQ(c)) || OnRq(k.thr[t].status)
    ensures t in WakeAll(k, c).thr && OnRq(WakeAll(k, c).thr[t].status)
    decreases |List(k.w.lists, CondQ(c))|
  {
    var q := List(k.w.lists, CondQ(c));
    if q != [] {
      WakeHeadFacts(k, CondQ(c));
      PopFacts(q);
      WakeAllWakes(WakeHead(k, CondQ(c)), c, t);
    }
  }

  /** cond_broadcast wakes every waiter. */
  lemma BroadcastWakesAll(k: K, c: CondId, t: Pid)
    requires Base(k) && t in List(k.w.lists, CondQ(c))
    ensures var k' := Signal(k, c, true);
      List(k'.w.lists, CondQ(c)) == [] && t in k'.thr && OnRq(k'.thr[t].status)
  {
    ListedThread(k.thr, k.w.lists, CondQ(c), t);
    WakeAllWakes(k, c, t);
    WakeAllEmpties(k, c);
    BroadcastFrame(k, c);
  }

  lemma BroadcastFrame(k: K, c: CondId)
    requires List(k.w.lists, CondQ(c)) != []
    ensures Signal(k, c, true).thr == WakeAll(k, c).thr && Signal(k, c, true).w == WakeAll(k, c).w
  {
  }

  lemma {:induction false} WakeAllEmpties(k: K, c: CondId)
    ensures List(WakeAll(k, c).w.lists, CondQ(c)) == []
    decreases |List(k.w.lists, CondQ(c))|
  {
    if List(k.w.lists, CondQ(c)) != [] { WakeAllEmpties(WakeHead(k, CondQ(c)), c); }
  }

  predicate LocksMutex(c: Call) {
    c.InCond? || c.InLock?
  }

  /** If step g brings the active thread back to user code, out of cond_wait or
      mutex_lock, it then holds the mutex. */
  ghost predicate ReturnsHeld(k: K, g: Resume)
    requires LocksMutex(Me(k).call)
  {
    var k', m := NextGo(k, g), Me(k).call.m;
    Th(k'.thr, k.s.active).call == User ==> m in Th(k'.thr, k.s.active).has && m in k'.l.holder && k'.l.holder[m] == k.s.active
  }

  lemma ReturnsHolding(k: K, g: Resume)
    requires Inv(k) && Executes(k) && LegalGo(k, g) && LocksMutex(Me(k).call)
    ensures ReturnsHeld(k, g)
  {
    GoKeeps(k, g);
    var k', m := NextGo(k, g), Me(k).call.m;
    if Th(k'.thr, k.s.active).call == User { BackHolding(k, g, k', m); }
  }

  lemma BackHolding(k: K, g: Resume, k': K, m: MutexId)
    requires Inv(k) && Executes(k) && LegalGo(k, g) && LocksMutex(Me(k).call) && m == Me(k).call.m
    requires k' == NextGo(k, g) && Mutexes(k'.thr, k'.w.lists, k'.l.marked, k'.l.holder) && Th(k'.thr, k.s.active).call == User
    ensures m in Th(k'.thr, k.s.active).has && m in k'.l.holder && k'.l.holder[m] == k.s.active
  {
    assert Holds(k'.thr[k.s.active], m);
  }

  // ---------------------------------------------------------------- thread flags

  /** What the three flag waits return: some waited flags, one of them, or all. */
  ghost predicate FlagsServed(k: K)
    requires Me(k).call.InFlags? || Me(k).call.InFlagsPicked?
  {
    && FlagsResult(k) <= Me(k).call.mask
    && (Me(k).call.InFlags? && Me(k).call.kind.WaitAny? ==> FlagsResult(k) != {})
    && (Me(k).call.InFlags? && Me(k).call.kind.WaitAll? ==> FlagsResult(k) == Me(k).call.mask)
    && (Me(k).call.InFlagsPicked? ==> |FlagsResult(k)| == 1)
  }

  lemma FlagWaitResults(k: K)
    requires Inv(k) && Executes(k) && LegalGo(k, GoFlagsTake)
    ensures FlagsServed(k)
  {
    ActiveFacts(k);
    if Me(k).call.InFlagsPicked? {
      assert Me(k).call.pick * Me(k).flags == Me(k).call.pick;
    }
  }

  // ---------------------------------------------------------------- messages

  /** Messages from s to r arrive in the order sent; the ones not yet received are in
      r's queue, in order, followed by the one s is blocked with. */
  lemma NothingLostOrReordered(k: K, s: Pid, r: Pid)
    requires Inv(k) && r in k.thr
    ensures Log(k.x.rcvd, s, r) <= Log(k.x.sent, s, r)
    ensures Log(k.x.sent, s, r)[|Log(k.x.rcvd, s, r)|..] == From(k.thr[r].inbox, s) + Waiting(k.thr, k.x.mem, s, r)
  {
    assert Channel(k.thr, k.x.mem, k.x.sent, k.x.rcvd, s, r);
    var a, b, c := Log(k.x.rcvd, s, r), From(k.thr[r].inbox, s), Waiting(k.thr, k.x.mem, s, r);
    assert a + b + c == a + (b + c);
  }

  /** A receive-blocked thread has nothing to receive; senders wait only for a full
      queue, so the slot that a receive frees is there for the first of them. */
  ghost predicate FillsFirst(k: K, t: Pid)
    requires t in k.thr
  {
    && |k.thr[t].inbox| <= k.thr[t].cap
    && (k.thr[t].status.ReceiveBlocked? ==> k.thr[t].inbox == [] && List(k.w.lists, MsgWaiters(t)) == [])
    && (List(k.w.lists, MsgWaiters(t)) != [] ==> |k.thr[t].inbox| == k.thr[t].cap)
    && (k.thr[t].inbox != [] ==> |k.thr[t].inbox[1..]| < k.thr[t].cap)
  }

  lemma SendersWaitOnlyWhenFull(k: K, t: Pid)
    requires Inv(k) && t in k.thr
    ensures FillsFirst(k, t)
  {
    OwnFacts(k, t);
  }

  /** A call of msg_receive goes on with the message the kernel recorded for it. */
  ghost predicate ReceiveServed(k: K)
    requires Me(k).call.InReceive?
  {
    Me(k).call.got.Some? && Read(k.x.mem, Me(k).call.buf) == Me(k).call.got.value
  }

  lemma ReceiveReturnsMessage(k: K)
    requires Inv(k) && Executes(k) && Me(k).call.InReceive?
    ensures ReceiveServed(k)
  {
    ActiveFacts(k);
  }

  /** While msg_send_receive waits, `wait_data` is the reply buffer; it returns only
      with a reply, which is in that buffer. */
  ghost predicate RequestServed(k: K, t: Pid)
    requires t in k.thr && k.thr[t].call.InSendReceive?
  {
    && (k.thr[t].status.ReplyBlocked? ==> k.thr[t].wait == Buffer(k.thr[t].call.buf) && k.thr[t].call.got == None)
    && (OnRq(k.thr[t].status) ==> k.thr[t].call.got.Some? && Read(k.x.mem, k.thr[t].call.buf) == k.thr[t].call.got.value)
    && (OnRq(k.thr[t].status) || k.thr[t].status.ReplyBlocked?)
  }

  lemma RequestReturnsReply(k: K, t: Pid)
    requires Inv(k) && t in k.thr && k.thr[t].call.InSendReceive?
    ensures RequestServed(k, t)
  {
    OwnFacts(k, t);
  }

  // ---------------------------------------------------------------- every run

  /** In every state of every legal run, whatever the interleaving of threads, scheduler
      runs and interrupt handlers: a mutex has at most one holder; what s sent to r, while
      r lives, is what r received, what is queued and what s still waits with, in this
      order; and no thread is blocked on flags that are set. */
  lemma EveryRunIsSafe(b: Setup, steps: seq<Step>)
    requires LegalRun(b, steps)
    ensures var k := After(b, steps);
      && (forall m, t, u :: t in k.thr && u in k.thr && Holds(k.thr[t], m) && Holds(k.thr[u], m) ==> t == u)
      && (forall s, r :: Log(k.x.sent, s, r) == Log(k.x.rcvd, s, r) + From(Th(k.thr, r).inbox, s) + Waiting(k.thr, k.x.mem, s, r))
      && (forall t :: t in k.thr ==> !FlagsReady(k.thr[t]))
  {
    RunInv(b, steps);
    var k := After(b, steps);
    OneHolder(k.thr, k.w.lists, k.l.marked, k.l.holder);
    ChannelsConserve(k.thr, k.x.mem, k.x.sent, k.x.rcvd);
    NobodyOverlooked(k.thr);
  }

  lemma OneHolder(thr: map<Pid, Thread>, lists: map<ListRef, seq<Pid>>, marked: set<MutexId>, holder: map<MutexId, Pid>)
    requires Mutexes(thr, lists, marked, holder)
    ensures forall m, t, u :: t in thr && u in thr && Holds(thr[t], m) && Holds(thr[u], m) ==> t == u
  {
    forall m, t, u | t in thr && u in thr && Holds(thr[t], m) && Holds(thr[u], m) ensures t == u {
      assert holder[m] == t;
      assert holder[m] == u;
    }
  }

  lemma ChannelsConserve(thr: map<Pid, Thread>, mem: map<Addr, Msg>, sent: map<(Pid, Pid), seq<Msg>>, rcvd: map<(Pid, Pid), seq<Msg>>)
    requires Channels(thr, mem, sent, rcvd)
    ensures forall s, r :: Log(sent, s, r) == Log(rcvd, s, r) + From(Th(thr, r).inbox, s) + Waiting(thr, mem, s, r)
  {
    forall s, r ensures Log(sent, s, r) == Log(rcvd, s, r) + From(Th(thr, r).inbox, s) + Waiting(thr, mem, s, r) {
      assert Channel(thr, mem, sent, rcvd, s, r);
    }
  }

  lemma NobodyOverlooked(thr: map<Pid, Thread>)
    requires Agrees(thr)
    ensures forall t :: t in thr ==> !FlagsReady(thr[t])
  {
    forall t | t in thr ensures !FlagsReady(thr[t]) {
      assert Agree(t, thr[t]);
      if thr[t].wait.FlagMask? { AllOrSubset(thr[t].flags, thr[t].wait.mask); }
    }
  }

  lemma AllOrSubset(flags: Flags, mask: Flags)
    ensures flags * mask == mask <==> mask <= flags
  {
    if flags * mask == mask {
      forall b | b in mask ensures b in flags {
        assert b in flags * mask;
      }
    }
  }
}
