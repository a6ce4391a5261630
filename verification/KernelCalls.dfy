/** What each kernel call does for its caller. */
module KernelCalls {
  import opened KernelTypes
  import opened KernelSpec
  import opened KernelStruct
  import opened KernelInv
  import opened KernelSteps
  import opened KernelThreads
  import opened KernelMail
  import opened KernelRuns
  import opened KernelTheorems
  import opened KernelLogs
  import opened KernelReplies
  import opened KernelEffects
  import opened KernelOutcomes
  import opened KernelYields
  import KernelBuffers

  /** The active thread waits on list r, and a yield is pending. */
  ghost predicate WaitsOn(k: K, r: ListRef) {
    Me(k).on == Some(r) && k.s.active in List(k.w.lists, r) && k.s.pend
  }

  // ---------------------------------------------------------------- calls that may wait

  /** What _mutex_lock does: the caller has the mutex at once, or waits in its queue in this
      call and has to yield, or fails. */
  ghost predicate Locked(k: K, k': K, m: MutexId, blocking: bool) {
    && k'.s.active == k.s.active
    && if IsFree(k, m) then Me(k') == Me(k).(has := Me(k).has + {m}, call := User) && k'.s.pend == k.s.pend
       else if blocking
       then Me(k') == Me(k).(status := MutexBlocked, call := InLock(m), on := Some(MutexQ(m)), since := k.w.clock) && WaitsOn(k', MutexQ(m))
       else k' == k
  }

  lemma LockLocks(k: K, m: MutexId, blocking: bool)
    requires k.s.active in k.thr
    ensures Locked(k, Lock(k, m, blocking), m, blocking)
  {
    LockThread(k, m, blocking, k.s.active);
    if !IsFree(k, m) { Joins(k, m); }
  }

  lemma Joins(k: K, m: MutexId)
    requires !IsFree(k, m)
    ensures k.s.active in List(Lock(k, m, true).w.lists, MutexQ(m))
  {
  }

  /** mutex_lock returns with the mutex exactly if no thread held it; otherwise the caller
      is blocked in this call, in the mutex's queue, and has to yield. */
  lemma LockTakesOrWaits(k: K, m: MutexId)
    requires CanCall(k)
    ensures var k' := Lock(k, m, true);
      && k'.s.active == k.s.active
      && if Held(k, m)
         then Me(k') == Me(k).(status := MutexBlocked, call := InLock(m), on := Some(MutexQ(m)), since := k.w.clock) && WaitsOn(k', MutexQ(m))
         else Me(k') == Me(k).(has := Me(k).has + {m}) && !k'.s.pend
  {
    HeldWord(k, m);
    ActiveFacts(k);
    LockLocks(k, m, true);
  }

  /** mutex_trylock never waits: the caller has the mutex afterwards, and had not before,
      exactly if no thread held it. */
  lemma TryLockTakesIffFree(k: K, m: MutexId)
    requires CanCall(k)
    ensures var k' := Lock(k, m, false);
      && k'.s.active == k.s.active && !k'.s.pend && Me(k').call == User
      && (Held(k, m) ==> k' == k)
      && (m in Me(k').has && m !in Me(k).has <==> !Held(k, m)) && (IsFree(k, m) <==> !Held(k, m))
  {
    HeldWord(k, m);
    ActiveFacts(k);
    LockLocks(k, m, false);
    assert m in Me(k).has ==> Holds(Me(k), m);
  }

  /** What the first section of cond_wait does: the caller gives up the mutex and waits for
      the condition, in a call that remembers both, and has to yield. */
  ghost predicate CondWaited(k: K, k': K, c: CondId, m: MutexId) {
    && k'.s.active == k.s.active
    && Me(k') == Me(k).(status := CondBlocked, call := InCond(c, m), on := Some(CondQ(c)), since := k.w.clock, has := Me(k').has)
    && WaitsOn(k', CondQ(c))
  }

  /** The active thread does not wait itself. */
  predicate NotFirst(k: K, r: ListRef) {
    k.s.active in k.thr && !First(k, r, k.s.active)
  }

  lemma CondWaitStarts(k: K, c: CondId, m: MutexId)
    requires NotFirst(k, MutexQ(m))
    ensures CondWaited(k, CondWait(k, c, m), c, m)
  {
    UnlockKeepsMe(k, m);
  }

  lemma UnlockKeepsMe(k: K, m: MutexId)
    requires NotFirst(k, MutexQ(m))
    ensures var k' := Unlock(k, m);
      k'.s.active == k.s.active && k'.s.active in k'.thr && Me(k') == Me(k).(has := Me(k').has) && k'.w.clock == k.w.clock
  {
    if List(k.w.lists, MutexQ(m)) != [] { HandOffKeepsMe(k, m); }
  }

  lemma HandOffKeepsMe(k: K, m: MutexId)
    requires NotFirst(k, MutexQ(m)) && List(k.w.lists, MutexQ(m)) != []
    ensures var k' := HandOff(k, m);
      k'.s.active == k.s.active && k'.s.active in k'.thr && Me(k') == Me(k).(has := Me(k').has) && k'.w.clock == k.w.clock
  {
  }

  lemma CondWaitWaits(k: K, c: CondId, m: MutexId)
    requires CanCall(k) && MayRelease(k, m)
    ensures CondWaited(k, CondWait(k, c, m), c, m) && Me(CondWait(k, c, m)).has == Me(k).has - {m}
  {
    MutexFit(k, m);
    ActiveFacts(k);
    CondWaitStarts(k, c, m);
    CondWaitThread(k, c, m, k.s.active);
  }

  /** The flags that are set suffice for the wait. */
  predicate Suffices(flags: Flags, mask: Flags, kind: FlagWait) {
    if kind == WaitAll then mask <= flags else flags * mask != {}
  }

  /** What a flag wait does first: it remembers its mask and its kind; the caller goes on
      exactly if its flags suffice for them, and else is blocked for that kind and mask, and
      has to yield. */
  ghost predicate FlagsAwaited(k: K, k': K, mask: Flags, kind: FlagWait) {
    && k'.s.active == k.s.active
    && if Suffices(Me(k).flags, mask, kind)
       then Me(k') == Me(k).(call := InFlags(mask, kind)) && k'.s.pend == k.s.pend
       else && Me(k') == Me(k).(call := InFlags(mask, kind), wait := FlagMask(mask), status := if kind == WaitAll then FlagBlockedAll else FlagBlockedAny)
            && k'.s.pend
  }

  lemma FlagsWaitWaits(k: K, mask: Flags, kind: FlagWait)
    requires k.s.active in k.thr
    ensures FlagsAwaited(k, FlagsWait(k, mask, kind), mask, kind)
  {
    FlagsWaitThread(k, mask, kind, k.s.active);
    AllOrSubset(Me(k).flags, mask);
  }

  /** What _msg_receive does: with a message there, the caller goes on with it in its buffer;
      otherwise it waits with its buffer and has to yield, or changes nothing. */
  ghost predicate Received(k: K, k': K, buf: Addr, block: bool) {
    && k'.s.active == k.s.active
    && if Found(k).Some?
       then Me(k').call == InReceive(buf, Found(k)) && Me(k').status == Me(k).status && Read(k'.x.mem, buf) == Found(k).value
       else if block
       then Me(k') == Me(k).(status := ReceiveBlocked, call := InReceive(buf, None), wait := Buffer(buf)) && k'.s.pend && k'.x == k.x
       else k' == k
  }

  lemma ReceiveTakesOrWaits(k: K, buf: Addr, block: bool)
    requires NotFirst(k, MsgWaiters(k.s.active))
    ensures Received(k, Receive(k, buf, block), buf, block)
  {
    KernelBuffers.ReceiveMem(k, buf, block);
    if List(k.w.lists, MsgWaiters(k.s.active)) != [] {
      if Me(k).inbox != [] { RefillKeepsMe(TakeQueued(k, buf)); } else { TakeKeepsMe(k, buf); }
    }
  }

  lemma ReleaseKeepsMe(k: K, s: Pid)
    requires s != k.s.active
    ensures ReleaseSender(k, s).s.active == k.s.active && Me(ReleaseSender(k, s)) == Me(k)
  {
  }

  lemma RefillKeepsMe(k: K)
    requires NotFirst(k, MsgWaiters(k.s.active)) && List(k.w.lists, MsgWaiters(k.s.active)) != []
    ensures Refill(k).s.active == k.s.active && Me(Refill(k)) == Me(k).(inbox := Me(Refill(k)).inbox)
  {
    var s := List(k.w.lists, MsgWaiters(k.s.active))[0];
    var k1 := RemoveHead(Put(k, k.s.active, Me(k).(inbox := Me(k).inbox + [WaitingMsg(k.x.mem, Th(k.thr, s))])), MsgWaiters(k.s.active));
    assert k1.s.active == k.s.active && Me(k1) == Me(k).(inbox := Me(k1).inbox);
    ReleaseKeepsMe(k1, s);
  }

  lemma TakeKeepsMe(k: K, buf: Addr)
    requires NotFirst(k, MsgWaiters(k.s.active)) && List(k.w.lists, MsgWaiters(k.s.active)) != []
    ensures var k', s := TakeWaiting(k, buf), List(k.w.lists, MsgWaiters(k.s.active))[0];
      k'.s.active == k.s.active && Me(k') == Me(k).(wait := Buffer(buf), call := InReceive(buf, Some(WaitingMsg(k.x.mem, Th(k.thr, s)))))
  {
  }

  // ---------------------------------------------------------------- scheduling

  /** thread_yield moves the caller behind all others of its priority, and the next scheduler
      run picks the one that is then first. */
  lemma YieldGoesBehind(k: K)
    requires CanCall(k)
    ensures var k', p := Yield(k), Me(k).prio;
      var q := Rq(k.s.rq, p);
      && q != [] && q[0] == k.s.active && Rq(k'.s.rq, p) == q[1..] + [k.s.active]
      && (forall o :: o != p ==> Rq(k'.s.rq, o) == Rq(k.s.rq, o))
      && k'.thr == k.thr && k'.s.active == k.s.active && k'.s.pend
      && (!k.s.lax ==> SchedRun(k').s.active == (q[1..] + [k.s.active])[0])
  {
    ActiveFacts(k);
    PrioBound(k, k.s.active);
    var k', p := Yield(k), Me(k).prio;
    if !k.s.lax {
      assert forall o: nat :: o < p ==> Rq(k'.s.rq, o) == Rq(k.s.rq, o) == [];
      BestIs(k'.s.rq, PRIO_TOP, p);
    }
  }

  lemma {:induction false} BestIs(rq: map<nat, seq<Pid>>, from: nat, p: nat)
    requires from <= p < PRIO_LEVELS && Rq(rq, p) != [] && forall o: nat :: from <= o < p ==> Rq(rq, o) == []
    ensures Best(rq, from) == p
  {
    assert from <= Best(rq, from) <= PRIO_LEVELS;
  }

  /** thread_wakeup makes a sleeping thread runnable, last in its queue, and does nothing to
      any other. */
  lemma WakeupWakes(k: K, t: Pid)
    requires Inv(k)
    ensures var k' := Wakeup(k, t);
      if t in k.thr && k.thr[t].status.Sleeping?
      then k'.thr == k.thr[t := k.thr[t].(status := Running)] && Rq(k'.s.rq, k.thr[t].prio) == Rq(k.s.rq, k.thr[t].prio) + [t]
      else k' == k
  {
  }

  // ---------------------------------------------------------------- flags and queues

  /** thread_flags_set sets the flags, and makes the thread runnable, last in its queue,
      exactly if it waited and they suffice; no other thread changes. */
  lemma FlagsSetWakes(k: K, t: Pid, mask: Flags)
    requires Inv(k) && t in k.thr
    ensures var k', th := FlagsSet(k, t, mask), k.thr[t];
      && t in k'.thr && k'.thr[t].flags == th.flags + mask
      && (if FlagBlocked(th.status) && th.call.InFlags? && Suffices(th.flags + mask, th.call.mask, th.call.kind)
          then OnRq(k'.thr[t].status) && Rq(k'.s.rq, th.prio) == Rq(k.s.rq, th.prio) + [t] && k'.s.pend
          else k'.thr[t].status == th.status && k'.s == k.s)
      && (forall u :: u in k.thr && u != t ==> u in k'.thr && k'.thr[u] == k.thr[u])
  {
    ThreadFit(k, t);
    assert Agree(t, k.thr[t]);
    if k.thr[t].wait.FlagMask? { AllOrSubset(k.thr[t].flags + mask, k.thr[t].wait.mask); }
    forall u | u in k.thr ensures u in FlagsSet(k, t, mask).thr && (u != t ==> FlagsSet(k, t, mask).thr[u] == k.thr[u]) {
      FlagsSetThread(k, t, mask, u);
    }
    FlagsSetThread(k, t, mask, t);
  }

  /** A flag wait clears exactly the flags it returns. */
  lemma FlagsTakeClears(k: K)
    requires CanGoOn(k) && LegalGo(k, GoFlagsTake)
    ensures var k' := FlagsTake(k);
      && Me(k').call == User && Me(k').flags * FlagsResult(k) == {} && Me(k').flags + FlagsResult(k) == Me(k).flags
      && (forall u :: u in k.thr && u != k.s.active ==> u in k'.thr && k'.thr[u] == k.thr[u])
  {
    ActiveFacts(k);
    Split(Me(k).flags, FlagsResult(k));
  }

  lemma Split(flags: Flags, part: Flags)
    requires part <= flags
    ensures (flags - part) * part == {} && (flags - part) + part == flags
  {
  }

  /** Interrupt handlers send t the messages ms, one after the other. */
  function SendAll(k: K, t: Pid, ms: seq<Msg>): K {
    if ms == [] then k else SendInt(SendAll(k, t, ms[..|ms| - 1]), ms[|ms| - 1], t)
  }

  lemma RoomIsLess(k: K, t: Pid, m: Msg)
    requires t in k.thr && !Awaits(k, t) && HasRoom(k.thr[t])
    ensures var k' := SendInt(k, m, t);
      t in k'.thr && !Awaits(k', t) && k'.thr[t].cap == k.thr[t].cap && k'.thr[t].inbox == k.thr[t].inbox + [Stamped(m, PID_ISR)]
  {
    SendIntThread(k, m, t, t);
  }

  lemma {:induction false} RoomIsUsed(k: K, t: Pid, ms: seq<Msg>)
    requires t in k.thr && !Awaits(k, t) && |k.thr[t].inbox| + |ms| <= k.thr[t].cap
    ensures var k' := SendAll(k, t, ms);
      && t in k'.thr && !Awaits(k', t) && k'.thr[t].cap == k.thr[t].cap
      && Arrived(k.thr[t].inbox, k'.thr[t].inbox, ms)
  {
    if ms != [] {
      var pre := ms[..|ms| - 1];
      RoomIsUsed(k, t, pre);
      RoomIsLess(SendAll(k, t, pre), t, ms[|ms| - 1]);
      OneMore(k.thr[t].inbox, SendAll(k, t, pre).thr[t].inbox, ms);
    }
  }

  /** The messages ms, as a handler sends them, are behind those of q. */
  ghost predicate Arrived(q: seq<Msg>, q': seq<Msg>, ms: seq<Msg>) {
    |q'| == |q| + |ms| && forall x :: 0 <= x < |ms| ==> q'[|q| + x] == Stamped(ms[x], PID_ISR)
  }

  lemma OneMore(q: seq<Msg>, q': seq<Msg>, ms: seq<Msg>)
    requires ms != [] && Arrived(q, q', ms[..|ms| - 1])
    ensures Arrived(q, q' + [Stamped(ms[|ms| - 1], PID_ISR)], ms)
  {
  }

  /** msg_init_queue makes room for n messages: that many are taken, in order, and the next
      one is refused. */
  lemma InitQueueMakesRoom(k: K, n: nat, ms: seq<Msg>)
    requires CanCall(k) && LegalMail(k, CallInitQueue(n)) && |ms| <= n
    ensures var t, k' := k.s.active, SendAll(InitQueue(k, n), k.s.active, ms);
      && t in k'.thr && Arrived([], k'.thr[t].inbox, ms)
      && SendResult(k', t, false) == (if |ms| < n then 1 else 0)
  {
    ActiveFacts(k);
    RoomIsUsed(InitQueue(k, n), k.s.active, ms);
  }
}
