/** What every step does to every thread, told attribute by attribute: whether it is
    runnable, where in its call it then is, and what becomes of its mutexes, flags and queue.
    Each is said in terms of the step and of the state before it. */
module KernelEffects {
  import opened KernelTypes
  import opened KernelSpec
  import opened KernelStruct
  import opened KernelInv
  import opened KernelSteps
  import opened KernelThreads
  import opened KernelMail
  import opened KernelReceive
  import opened KernelRuns
  import opened KernelTheorems
  import opened KernelLogs
  import opened KernelReplies

  // ---------------------------------------------------------------- what a step asks for

  /** The active thread makes the step. */
  predicate ByActive(a: Step) {
    a.Sync? || a.Mailing? || a.Go?
  }

  /** Some thread's lock call on m has returned, or will as soon as the thread runs. */
  ghost predicate Held(k: K, m: MutexId) {
    exists t :: t in k.thr && Holds(k.thr[t], m)
  }

  /** The mutex that the step gives up. */
  function Gives(a: Step): Option<MutexId> {
    match a
    case Sync(CallUnlock(m)) => Some(m)
    case Sync(CallUnlockAndSleep(m)) => Some(m)
    case Sync(CallCondWait(_, m)) => Some(m)
    case _ => None
  }

  /** The step signals condition c; to all its waiters, or to the first one. */
  predicate Signals(a: Step, c: CondId, all: bool) {
    match a
    case Sync(CallSignal(d, broadcast)) => d == c && broadcast == all
    case Irq(IrqSignal(d, broadcast)) => d == c && broadcast == all
    case _ => false
  }

  /** A message for t is put in its queue, or its sender starts to wait for t. */
  predicate Mailed(k: K, a: Step, t: Pid) {
    Accepted(k, a).Some? && Accepted(k, a).value.r == t && !Awaits(k, t)
  }

  /** The flags that the step sets for t. */
  function Raised(k: K, a: Step, t: Pid): Flags {
    match a
    case Sync(CallFlagsSet(u, mask)) => if u == t then mask else {}
    case Irq(IrqFlagsSet(u, mask)) => if u == t then mask else {}
    case _ => if k.flagsOn && Mailed(k, a, t) then MSG_WAITING else {}
  }

  predicate First(k: K, r: ListRef, t: Pid) {
    List(k.w.lists, r) != [] && List(k.w.lists, r)[0] == t
  }

  predicate Gets(k: K, a: Step, t: Pid) {
    HandedOver(k, a).Some? && HandedOver(k, a).value.r == t
  }

  // ---------------------------------------------------------------- runnable or blocked

  /** The step gives the blocked thread t what it waits for. */
  ghost predicate Wakes(k: K, a: Step, t: Pid) {
    var th := Th(k.thr, t);
    match th.status
    case Sleeping => a == Sync(CallWakeup(t)) || a == Irq(IrqWakeup(t))
    case MutexBlocked => th.call.InLock? && Gives(a) == Some(th.call.m) && First(k, MutexQ(th.call.m), t)
    case CondBlocked => th.call.InCond? && (Signals(a, th.call.c, true) || (Signals(a, th.call.c, false) && First(k, CondQ(th.call.c), t)))
    case ReceiveBlocked => Gets(k, a, t)
    case SendBlocked => a.Mailing? && a.mc.CallReceive? && First(k, MsgWaiters(k.s.active), t)
    case ReplyBlocked => ReplyIn(a, t).Some?
    case FlagBlockedAny => th.call.InFlags? && (th.flags + Raised(k, a, t)) * th.call.mask != {}
    case FlagBlockedAll => th.call.InFlags? && th.call.mask <= th.flags + Raised(k, a, t)
    case _ => false
  }

  /** The active thread cannot have at once what its step asks for. */
  ghost predicate Blocks(k: K, a: Step) {
    match a
    case Sync(CallSleep) => true
    case Sync(CallLock(m)) => Held(k, m)
    case Sync(CallUnlockAndSleep(_)) => true
    case Sync(CallCondWait(_, _)) => true
    case Sync(CallFlagsWait(mask, kind)) => if kind == WaitAll then !(mask <= Me(k).flags) else Me(k).flags * mask == {}
    case Mailing(CallSend(_, target, block)) =>
      block && target != k.s.active && target in k.thr && !Awaits(k, target) && |k.thr[target].inbox| >= k.thr[target].cap
    case Mailing(CallSendReceive(_, _, _)) => true
    case Mailing(CallReceive(_, block)) => block && Found(k) == None
    case Go(GoRelock) => Me(k).call.InCond? && Held(k, Me(k).call.m)
    case _ => false
  }

  ghost predicate NextRunnable(k: K, a: Step, t: Pid) {
    if OnRq(Th(k.thr, t).status) then !(t == k.s.active && Blocks(k, a)) else Wakes(k, a, t)
  }

  // ---------------------------------------------------------------- the call a thread is in

  /** Where the active thread's own step leads it. */
  ghost function OwnCall(k: K, a: Step): Call {
    match a
    case Sync(CallSleep) => InSleep
    case Sync(CallUnlockAndSleep(_)) => InSleep
    case Sync(CallLock(m)) => if Held(k, m) then InLock(m) else User
    case Sync(CallCondWait(c, m)) => InCond(c, m)
    case Sync(CallFlagsWait(mask, kind)) => InFlags(mask, kind)
    case Mailing(CallSend(_, target, _)) => if Blocks(k, a) then InSend(target) else User
    case Mailing(CallSendReceive(_, buf, target)) => InSendReceive(buf, target, None)
    case Mailing(CallReceive(buf, block)) => if block || Found(k).Some? then InReceive(buf, Found(k)) else User
    case Go(GoRelock) => if Blocks(k, a) then InLock(Me(k).call.m) else User
    case Go(GoFlagsPick) => if Me(k).call.InFlags? then InFlagsPicked(Me(k).call.mask, Lowest(Me(k).flags * Me(k).call.mask, 0)) else User
    case _ => User
  }

  ghost function NextCall(k: K, a: Step, t: Pid): Call {
    var c := Th(k.thr, t).call;
    if t == k.s.active && ByActive(a) then OwnCall(k, a)
    else if c.InReceive? && Awaits(k, t) && Gets(k, a, t) then InReceive(c.buf, Some(HandedOver(k, a).value.m))
    else if c.InSendReceive? && AwaitsReply(k, t) && ReplyIn(a, t).Some? then InSendReceive(c.buf, c.target, ReplyIn(a, t))
    else c
  }

  // ---------------------------------------------------------------- what a thread has

  /** The mutexes that the thread's calls have returned with. */
  ghost function NextHas(k: K, a: Step, t: Pid): set<MutexId> {
    var has := Th(k.thr, t).has;
    if t != k.s.active then has
    else match a
      case Sync(CallLock(m)) => if Held(k, m) then has else has + {m}
      case Sync(CallTryLock(m)) => if Held(k, m) then has else has + {m}
      case Go(GoRelock) => if Me(k).call.InCond? && !Held(k, Me(k).call.m) then has + {Me(k).call.m} else has
      case Go(GoReturn) => if Me(k).call.InLock? then has + {Me(k).call.m} else has
      case _ => if Gives(a).Some? then has - {Gives(a).value} else has
  }

  /** What a flag wait returns: the waited flags that are set, or the one it picked. */
  function Returned(th: Thread): Flags {
    match th.call
    case InFlags(mask, _) => th.flags * mask
    case InFlagsPicked(_, pick) => th.flags * pick
    case _ => {}
  }

  function NextFlags(k: K, a: Step, t: Pid): Flags {
    var th := Th(k.thr, t);
    if t == k.s.active && a == Go(GoFlagsTake) then th.flags - Returned(th)
    else if t == k.s.active && a.Sync? && a.sc.CallFlagsClear? then th.flags - a.sc.mask
    else th.flags + Raised(k, a, t)
  }

  function NextCap(k: K, a: Step, t: Pid): nat {
    if t == k.s.active && a.Mailing? && a.mc.CallInitQueue? then a.mc.n else Th(k.thr, t).cap
  }

  /** The queue of t: a receive takes the oldest message and lets the first waiting sender's
      in, and an accepted message goes to the end, if there is room. */
  function NextInbox(k: K, a: Step, t: Pid): seq<Msg> {
    var th := Th(k.thr, t);
    if t == k.s.active && a.Mailing? && a.mc.CallInitQueue? then []
    else if t == k.s.active && a.Mailing? && a.mc.CallReceive? then
      var q := List(k.w.lists, MsgWaiters(t));
      if th.inbox == [] then [] else th.inbox[1..] + if q == [] then [] else [WaitingMsg(k.x.mem, Th(k.thr, q[0]))]
    else if Mailed(k, a, t) && |th.inbox| < th.cap then th.inbox + [Accepted(k, a).value.m]
    else th.inbox
  }

  // ---------------------------------------------------------------- every thread, every step

  /** What thread t is after the step. */
  ghost predicate Evolves(k: K, a: Step, k': K, t: Pid) {
    t in k'.thr && t in k.thr && Becomes(k, a, t, k'.thr[t])
  }

  ghost predicate Becomes(k: K, a: Step, t: Pid, th: Thread) {
    && th.prio == Th(k.thr, t).prio
    && (OnRq(th.status) <==> NextRunnable(k, a, t))
    && th.call == NextCall(k, a, t)
    && th.has == NextHas(k, a, t)
    && th.flags == NextFlags(k, a, t)
    && th.inbox == NextInbox(k, a, t) && th.cap == NextCap(k, a, t)
    && (th.on.Some? ==> th.since == if th.on == Th(k.thr, t).on then Th(k.thr, t).since else k.w.clock)
  }

  /** Step a concerns thread t. */
  ghost predicate Concerns(k: K, a: Step, t: Pid) {
    (t == k.s.active && ByActive(a)) || Gets(k, a, t) || ReplyIn(a, t).Some? || Mailed(k, a, t) || Raised(k, a, t) != {} || Wakes(k, a, t)
  }

  /** The thread at most went between running and pending, or left a list. */
  predicate Alike(th: Thread, th': Thread) {
    && (OnRq(th'.status) <==> OnRq(th.status)) && (th'.on == th.on || th'.on == None)
    && th' == th.(status := th'.status, wait := th'.wait, on := th'.on)
  }

  /** A thread that the step does not concern stays as it is. */
  lemma Bystander(k: K, a: Step, t: Pid, th: Thread)
    requires t in k.thr && Alike(k.thr[t], th) && !Concerns(k, a, t)
    requires t == k.s.active ==> !Blocks(k, a) || !OnRq(k.thr[t].status)
    ensures Becomes(k, a, t, th)
  {
    assert Raised(k, a, t) == {};
    assert k.thr[t].flags + {} == k.thr[t].flags;
  }

  /** A thread that waits for flags lacks them. */
  predicate Lacks(th: Thread) {
    && (th.status.FlagBlockedAny? && th.call.InFlags? ==> th.flags * th.call.mask == {})
    && (th.status.FlagBlockedAll? && th.call.InFlags? ==> !(th.call.mask <= th.flags))
  }

  /** What is used of the invariant about thread t and the active one. */
  ghost predicate Fit(k: K, t: Pid) {
    t in k.thr && Lacks(k.thr[t]) && k.s.active in k.thr && OnRq(Me(k).status) && Me(k).on == None
  }

  lemma NoFlags(k: K, a: Step, t: Pid)
    requires t in k.thr && Lacks(k.thr[t]) && Raised(k, a, t) == {} && (k.thr[t].status.FlagBlockedAny? || k.thr[t].status.FlagBlockedAll?)
    ensures !Wakes(k, a, t)
  {
    assert k.thr[t].flags + {} == k.thr[t].flags;
  }

  /** A step without messages, replies and flags for t. */
  ghost predicate Silent(k: K, a: Step, t: Pid) {
    Accepted(k, a) == None && HandedOver(k, a) == None && ReplyIn(a, t) == None && Raised(k, a, t) == {}
  }

  /** Such a step concerns only the active thread, and those that wait for what it does. */
  lemma Aside(k: K, a: Step, t: Pid, th: Thread)
    requires t in k.thr && Alike(k.thr[t], th) && Lacks(k.thr[t]) && (t == k.s.active ==> !ByActive(a) && !Blocks(k, a)) && Silent(k, a, t)
    requires match k.thr[t].status
      case Sleeping => !Wakes(k, a, t)
      case MutexBlocked => !Wakes(k, a, t)
      case CondBlocked => !Wakes(k, a, t)
      case SendBlocked => !Wakes(k, a, t)
      case _ => true
    ensures Becomes(k, a, t, th)
  {
    if k.thr[t].status.FlagBlockedAny? || k.thr[t].status.FlagBlockedAll? { NoFlags(k, a, t); }
    Bystander(k, a, t, th);
  }

  // ---------------------------------------------------------------- threads and mutexes

  lemma YieldEvolves(k: K, t: Pid)
    requires Fit(k, t) && Me(k).call == User
    ensures Evolves(k, Sync(CallYield), Yield(k), t)
  {
    if t != k.s.active { Aside(k, Sync(CallYield), t, k.thr[t]); }
  }

  lemma SleepThread(k: K, t: Pid)
    requires t in k.thr && k.s.active in k.thr
    ensures t in Sleep(k).thr
    ensures Sleep(k).thr[t] == if t == k.s.active then k.thr[t].(call := InSleep, status := Sleeping) else k.thr[t]
  {
  }

  lemma SleepEvolves(k: K, t: Pid)
    requires Fit(k, t) && Me(k).call == User
    ensures Evolves(k, Sync(CallSleep), Sleep(k), t)
  {
    SleepThread(k, t);
    if t != k.s.active { Aside(k, Sync(CallSleep), t, k.thr[t]); }
  }

  lemma WakeupThread(k: K, u: Pid, t: Pid)
    requires t in k.thr
    ensures t in Wakeup(k, u).thr
    ensures Wakeup(k, u).thr[t] == if t == u && k.thr[t].status.Sleeping? then k.thr[t].(status := Running) else k.thr[t]
  {
  }

  predicate WakesUp(a: Step, u: Pid) {
    a == Sync(CallWakeup(u)) || a == Irq(IrqWakeup(u))
  }

  lemma WakeupEvolves(k: K, a: Step, u: Pid, t: Pid)
    requires t in k.thr && Lacks(k.thr[t]) && WakesUp(a, u) && (a.Sync? ==> Me(k).call == User && OnRq(Me(k).status))
    ensures Evolves(k, a, Wakeup(k, u), t)
  {
    WakeupThread(k, u, t);
    if !(t == u && k.thr[t].status.Sleeping?) && !(t == k.s.active && a.Sync?) { Aside(k, a, t, k.thr[t]); }
  }

  lemma CreateThread(k: K, a: SyncCall, t: Pid)
    requires t in k.thr && a.CallCreate?
    ensures t in NextSync(k, a).thr && NextSync(k, a).thr[t] == k.thr[t]
  {
  }

  lemma CreateEvolves(k: K, t: Pid, a: SyncCall)
    requires Fit(k, t) && Me(k).call == User && a.CallCreate?
    ensures Evolves(k, Sync(a), NextSync(k, a), t)
  {
    CreateThread(k, a, t);
    if t != k.s.active { Aside(k, Sync(a), t, k.thr[t]); }
  }

  lemma LockThread(k: K, m: MutexId, blocking: bool, t: Pid)
    requires t in k.thr && k.s.active in k.thr
    ensures t in Lock(k, m, blocking).thr
    ensures Lock(k, m, blocking).thr[t] ==
      if t != k.s.active then k.thr[t]
      else if IsFree(k, m) then k.thr[t].(has := k.thr[t].has + {m}, call := User)
      else if blocking then k.thr[t].(call := InLock(m), status := MutexBlocked, on := Some(MutexQ(m)), since := k.w.clock)
      else k.thr[t]
  {
  }

  lemma LockEvolves(k: K, t: Pid, m: MutexId)
    requires Fit(k, t) && Me(k).call == User && (Held(k, m) <==> !IsFree(k, m))
    ensures Evolves(k, Sync(CallLock(m)), Lock(k, m, true), t)
  {
    LockThread(k, m, true, t);
    if t != k.s.active { Aside(k, Sync(CallLock(m)), t, k.thr[t]); }
  }

  lemma TryLockEvolves(k: K, t: Pid, m: MutexId)
    requires Fit(k, t) && Me(k).call == User && (Held(k, m) <==> !IsFree(k, m))
    ensures Evolves(k, Sync(CallTryLock(m)), Lock(k, m, false), t)
  {
    LockThread(k, m, false, t);
    if t != k.s.active { Aside(k, Sync(CallTryLock(m)), t, k.thr[t]); }
  }

  lemma RelockEvolves(k: K, t: Pid, m: MutexId)
    requires Fit(k, t) && Me(k).call.InCond? && m == Me(k).call.m && (Held(k, m) <==> !IsFree(k, m))
    ensures Evolves(k, Go(GoRelock), Relock(k), t)
  {
    LockThread(k, m, true, t);
    if t != k.s.active { Aside(k, Go(GoRelock), t, k.thr[t]); }
  }

  /** What is used of the invariant about mutex m, which the active thread may release. */
  ghost predicate FitMutex(k: K, m: MutexId) {
    var q := List(k.w.lists, MutexQ(m));
    && (m in Me(k).has <==> !IsFree(k, m)) && (m in k.l.marked ==> q == [])
    && (q != [] ==> q[0] in k.thr && q[0] != k.s.active && k.thr[q[0]].status.MutexBlocked? && k.thr[q[0]].call == InLock(m))
  }

  /** Thread t after mutex m was given up: its holder, its first waiter, or another. */
  function Given(k: K, m: MutexId, t: Pid): Thread {
    var th := Th(k.thr, t);
    if t == k.s.active then th.(has := th.has - {m})
    else if First(k, MutexQ(m), t) then th.(on := None, status := Pending)
    else th
  }

  lemma ReleaseThread(k: K, m: MutexId, t: Pid)
    requires t in k.thr && k.s.active in k.thr && FitMutex(k, m)
    ensures t in Release(k, m).thr && Release(k, m).thr[t] == Given(k, m, t)
    ensures Unlock(k, m).thr == Release(k, m).thr && Release(k, m).s.active == k.s.active == Unlock(k, m).s.active
    ensures Unlock(k, m).w.clock == k.w.clock
  {
  }

  /** Any thread but the active one, in a step that gives up mutex m. */
  lemma GivenEvolves(k: K, a: Step, m: MutexId, t: Pid)
    requires Fit(k, t) && FitMutex(k, m) && Gives(a) == Some(m) && t != k.s.active
    ensures Becomes(k, a, t, Given(k, m, t))
  {
    if !First(k, MutexQ(m), t) { Aside(k, a, t, k.thr[t]); }
  }

  lemma UnlockEvolves(k: K, t: Pid, m: MutexId)
    requires Fit(k, t) && Me(k).call == User && FitMutex(k, m)
    ensures Evolves(k, Sync(CallUnlock(m)), Unlock(k, m), t)
  {
    ReleaseThread(k, m, t);
    if t != k.s.active { GivenEvolves(k, Sync(CallUnlock(m)), m, t); }
  }

  lemma UnlockAndSleepEvolves(k: K, t: Pid, m: MutexId)
    requires Fit(k, t) && Me(k).call == User && FitMutex(k, m)
    ensures Evolves(k, Sync(CallUnlockAndSleep(m)), UnlockAndSleep(k, m), t)
  {
    ReleaseThread(k, m, t);
    ReleaseThread(k, m, k.s.active);
    SleepThread(Release(k, m), t);
    if t != k.s.active { GivenEvolves(k, Sync(CallUnlockAndSleep(m)), m, t); }
  }

  lemma CondWaitThread(k: K, c: CondId, m: MutexId, t: Pid)
    requires t in k.thr && k.s.active in k.thr && FitMutex(k, m)
    ensures t in CondWait(k, c, m).thr
    ensures CondWait(k, c, m).thr[t] == if t != k.s.active then Given(k, m, t)
      else Given(k, m, t).(call := InCond(c, m), status := CondBlocked, on := Some(CondQ(c)), since := k.w.clock)
  {
    ReleaseThread(k, m, t);
    ReleaseThread(k, m, k.s.active);
  }

  lemma CondWaitEvolves(k: K, t: Pid, c: CondId, m: MutexId)
    requires Fit(k, t) && Me(k).call == User && FitMutex(k, m)
    ensures Evolves(k, Sync(CallCondWait(c, m)), CondWait(k, c, m), t)
  {
    CondWaitThread(k, c, m, t);
    if t != k.s.active { GivenEvolves(k, Sync(CallCondWait(c, m)), m, t); }
  }

  // ---------------------------------------------------------------- signals

  lemma {:induction false} WakeAllThread(k: K, c: CondId, t: Pid)
    requires Base(k) && t in k.thr
    ensures WakeAll(k, c).s.active == k.s.active && t in WakeAll(k, c).thr
    ensures WakeAll(k, c).thr[t] == if t in List(k.w.lists, CondQ(c)) then k.thr[t].(on := None, status := Pending) else k.thr[t]
    decreases |List(k.w.lists, CondQ(c))|
  {
    var q := List(k.w.lists, CondQ(c));
    if q != [] {
      WakeHeadFacts(k, CondQ(c));
      PopFacts(q);
      WakeAllThread(WakeHead(k, CondQ(c)), c, t);
    }
  }

  lemma SignalThread(k: K, c: CondId, broadcast: bool, t: Pid)
    requires Base(k) && t in k.thr
    ensures t in Signal(k, c, broadcast).thr
    ensures Signal(k, c, broadcast).thr[t] ==
      if (broadcast && t in List(k.w.lists, CondQ(c))) || (!broadcast && First(k, CondQ(c), t))
      then k.thr[t].(on := None, status := Pending) else k.thr[t]
  {
    if broadcast {
      WakeAllThread(k, c, t);
    } else if List(k.w.lists, CondQ(c)) != [] {
      WakeHeadFacts(k, CondQ(c));
    }
  }

  /** A thread is on the list of a condition exactly if it waits for it. */
  ghost predicate FitCond(k: K, c: CondId, t: Pid) {
    t in List(k.w.lists, CondQ(c)) <==> t in k.thr && k.thr[t].status.CondBlocked? && k.thr[t].call.InCond? && k.thr[t].call.c == c
  }

  lemma SignalEvolves(k: K, a: Step, c: CondId, broadcast: bool, t: Pid, th: Thread)
    requires t in k.thr && Lacks(k.thr[t]) && Signals(a, c, broadcast) && FitCond(k, c, t)
    requires a.Sync? ==> Me(k).call == User && OnRq(Me(k).status)
    requires th == if (broadcast && t in List(k.w.lists, CondQ(c))) || (!broadcast && First(k, CondQ(c), t))
                   then k.thr[t].(on := None, status := Pending) else k.thr[t]
    ensures Becomes(k, a, t, th)
  {
    if th == k.thr[t] && !(t == k.s.active && a.Sync?) { Aside(k, a, t, th); }
  }

  // ---------------------------------------------------------------- thread flags

  /** `wait_data` of a thread that waits for flags. */
  predicate FlagFit(th: Thread) {
    th.status.FlagBlockedAny? || th.status.FlagBlockedAll? ==> th.call.InFlags? && th.wait == FlagMask(th.call.mask)
  }

  /** The thread with more flags, awake if they end its wait. */
  function Flagged(th: Thread, mask: Flags): Thread {
    var th' := th.(flags := th.flags + mask);
    if FlagsReady(th') then th'.(status := Pending) else th'
  }

  lemma RaiseThread(k: K, u: Pid, mask: Flags, t: Pid)
    requires t in k.thr && u in k.thr
    ensures t in RaiseFlags(k, u, mask).thr && RaiseFlags(k, u, mask).s.active == k.s.active
    ensures RaiseFlags(k, u, mask).thr[t] == if t == u then Flagged(k.thr[t], mask) else k.thr[t]
  {
  }

  predicate SetsFlags(a: Step, u: Pid, mask: Flags) {
    a == Sync(CallFlagsSet(u, mask)) || a == Irq(IrqFlagsSet(u, mask))
  }

  lemma FlagsSetThread(k: K, u: Pid, mask: Flags, t: Pid)
    requires t in k.thr
    ensures t in FlagsSet(k, u, mask).thr && FlagsSet(k, u, mask).thr[t] == if t == u then Flagged(k.thr[t], mask) else k.thr[t]
  {
    if u in k.thr { RaiseThread(k, u, mask, t); }
  }

  lemma FlagsSetEvolves(k: K, a: Step, u: Pid, mask: Flags, t: Pid)
    requires t in k.thr && Lacks(k.thr[t]) && FlagFit(k.thr[t]) && SetsFlags(a, u, mask)
    requires a.Sync? ==> Me(k).call == User && OnRq(Me(k).status)
    ensures Evolves(k, a, FlagsSet(k, u, mask), t)
  {
    FlagsSetThread(k, u, mask, t);
    if t == u {
      if k.thr[t].wait.FlagMask? { AllOrSubset(k.thr[t].flags + mask, k.thr[t].wait.mask); }
    } else if !(t == k.s.active && a.Sync?) {
      Aside(k, a, t, k.thr[t]);
    }
  }

  lemma FlagsClearEvolves(k: K, t: Pid, mask: Flags)
    requires Fit(k, t) && Me(k).call == User
    ensures Evolves(k, Sync(CallFlagsClear(mask)), FlagsClear(k, mask), t)
  {
    if t != k.s.active { Aside(k, Sync(CallFlagsClear(mask)), t, k.thr[t]); }
  }

  lemma FlagsWaitThread(k: K, mask: Flags, kind: FlagWait, t: Pid)
    requires t in k.thr && k.s.active in k.thr
    ensures t in FlagsWait(k, mask, kind).thr
    ensures FlagsWait(k, mask, kind).thr[t] ==
      if t != k.s.active then k.thr[t]
      else if (if kind == WaitAll then mask <= k.thr[t].flags else k.thr[t].flags * mask != {}) then k.thr[t].(call := InFlags(mask, kind))
      else k.thr[t].(call := InFlags(mask, kind), wait := FlagMask(mask), status := if kind == WaitAll then FlagBlockedAll else FlagBlockedAny)
  {
    AllOrSubset(Me(k).flags, mask);
  }

  lemma FlagsWaitEvolves(k: K, t: Pid, mask: Flags, kind: FlagWait)
    requires Fit(k, t) && Me(k).call == User
    ensures Evolves(k, Sync(CallFlagsWait(mask, kind)), FlagsWait(k, mask, kind), t)
  {
    FlagsWaitThread(k, mask, kind, t);
    if t != k.s.active { Aside(k, Sync(CallFlagsWait(mask, kind)), t, k.thr[t]); }
  }

  // ---------------------------------------------------------------- going on inside a call

  lemma GoThread(k: K, g: Resume, t: Pid)
    requires t in k.thr && k.s.active in k.thr && t != k.s.active
    ensures t in NextGo(k, g).thr && NextGo(k, g).thr[t] == k.thr[t]
  {
  }

  lemma GoEvolves(k: K, g: Resume, t: Pid)
    requires Fit(k, t) && LegalGo(k, g) && g != GoRelock
    ensures Evolves(k, Go(g), NextGo(k, g), t)
  {
    if t != k.s.active {
      GoThread(k, g, t);
      Aside(k, Go(g), t, k.thr[t]);
    }
  }

  // ---------------------------------------------------------------- sending

  /** The receiver of a message for which it was not waiting. */
  function Notified(th: Thread, flagsOn: bool, m: Msg): Thread {
    var th' := if |th.inbox| < th.cap then th.(inbox := th.inbox + [m]) else th;
    if flagsOn then Flagged(th', MSG_WAITING) else th'
  }

  /** The receiver of a message for which it was waiting. */
  function Supplied(th: Thread, m: Msg): Thread {
    th.(call := Handed(th.call, m), status := Pending)
  }

  lemma DeliverThread(k: K, target: Pid, m: Msg, t: Pid)
    requires t in k.thr && target in k.thr
    ensures t in Deliver(k, target, m).thr && Deliver(k, target, m).thr[t] == if t == target then Supplied(k.thr[t], m) else k.thr[t]
  {
  }

  lemma FlagThread(k: K, target: Pid, t: Pid)
    requires t in k.thr && target in k.thr
    ensures t in RaiseMsgFlag(k, target).thr
    ensures RaiseMsgFlag(k, target).thr[t] == if t == target && k.flagsOn then Flagged(k.thr[t], MSG_WAITING) else k.thr[t]
  {
    RaiseThread(k, target, MSG_WAITING, t);
  }

  lemma QueueThread(k: K, target: Pid, m: Msg, t: Pid)
    requires t in k.thr && target in k.thr && HasRoom(k.thr[target])
    ensures t in QueueMsg(k, target, m).thr
    ensures QueueMsg(k, target, m).thr[t] == if t == target then Notified(k.thr[t], k.flagsOn, m) else k.thr[t]
  {
    FlagThread(LogSent(Put(k, target, Th(k.thr, target).(inbox := Th(k.thr, target).inbox + [m])), m.sender, target, m), target, t);
  }

  /** A sender that has to wait for its target. */
  function Waits(th: Thread, buf: Addr, target: Pid, clock: nat): Thread {
    var reply := th.status.ReplyBlocked?;
    th.(wait := Buffer(buf), call := if reply then th.call else InSend(target), status := if reply then ReplyBlocked else SendBlocked,
        on := Some(MsgWaiters(target)), since := clock)
  }

  lemma WaitingThread(k: K, buf: Addr, target: Pid, m: Msg, t: Pid)
    requires t in k.thr && target in k.thr && k.s.active in k.thr && target != k.s.active && !HasRoom(k.thr[target])
    ensures t in SendWaiting(k, buf, target, m).thr
    ensures SendWaiting(k, buf, target, m).thr[t] ==
      if t == target then Notified(k.thr[t], k.flagsOn, m) else if t == k.s.active then Waits(k.thr[t], buf, target, k.w.clock) else k.thr[t]
  {
    var reply := Me(k).status.ReplyBlocked?;
    var k1 := Block(k, Me(k).(wait := Buffer(buf), call := if reply then Me(k).call else InSend(target)), if reply then ReplyBlocked else SendBlocked);
    FlagThread(LogSent(AddToList(k1, MsgWaiters(target), k.s.active), k.s.active, target, m), target, t);
  }

  /** Every thread after _msg_send. */
  function AfterSend(k: K, buf: Addr, target: Pid, block: bool, m: Msg, t: Pid): Thread {
    var th := Th(k.thr, t);
    if target !in k.thr then th
    else if t == target then
      if Awaits(k, t) then Supplied(th, m) else if HasRoom(th) || block then Notified(th, k.flagsOn, m) else th
    else if t == k.s.active && !Awaits(k, target) && !HasRoom(k.thr[target]) && block then Waits(th, buf, target, k.w.clock)
    else th
  }

  lemma SendThread(k: K, buf: Addr, target: Pid, block: bool, m: Msg, t: Pid)
    requires t in k.thr && k.s.active in k.thr && target != k.s.active && m == Read(k.x.mem, buf)
    ensures t in SendStamped(k, buf, target, block).thr
    ensures SendStamped(k, buf, target, block).thr[t] == AfterSend(k, buf, target, block, m, t)
  {
    if target in k.thr {
      if Awaits(k, target) {
        DeliverThread(k, target, m, t);
      } else if HasRoom(k.thr[target]) {
        QueueThread(k, target, m, t);
      } else if block {
        WaitingThread(k, buf, target, m, t);
      }
    }
  }

  /** The receiver of an accepted message. */
  lemma TargetEvolves(k: K, a: Step, t: Pid, m: Msg)
    requires t in k.thr && Lacks(k.thr[t]) && FlagFit(k.thr[t]) && (Awaits(k, t) ==> k.thr[t].call.InReceive?)
    requires Accepted(k, a).Some? && Accepted(k, a).value.r == t && Accepted(k, a).value.m == m && (t == k.s.active ==> a.Irq?)
    ensures Becomes(k, a, t, if Awaits(k, t) then Supplied(k.thr[t], m) else Notified(k.thr[t], k.flagsOn, m))
  {
    if !Awaits(k, t) { NotifiedEvolves(k, a, t, m, k.thr[t]); }
  }

  lemma NotifiedEvolves(k: K, a: Step, t: Pid, m: Msg, th: Thread)
    requires t in k.thr && th == k.thr[t] && Lacks(th) && FlagFit(th) && !Awaits(k, t)
    requires Accepted(k, a).Some? && Accepted(k, a).value.r == t && Accepted(k, a).value.m == m
    requires t == k.s.active && ByActive(a) ==> th.call == User && OnRq(th.status) && a.mc.CallSend? && a.mc.target == t
    ensures Becomes(k, a, t, Notified(th, k.flagsOn, m))
  {
    if k.flagsOn {
      if th.wait.FlagMask? { AllOrSubset(th.flags + MSG_WAITING, th.wait.mask); }
    } else {
      assert th.flags + {} == th.flags;
    }
  }

  /** A step that accepts a message concerns its receiver and the active thread only. */
  lemma MailAside(k: K, a: Step, t: Pid)
    requires t in k.thr && Lacks(k.thr[t]) && (t == k.s.active ==> a.Irq?) && ReplyIn(a, t) == None
    requires (a.Mailing? && (a.mc.CallSend? || a.mc.CallSendReceive?)) || (a.Irq? && a.h.IrqSend?)
    requires Accepted(k, a).Some? ==> Accepted(k, a).value.r != t
    ensures Becomes(k, a, t, k.thr[t])
  {
    if k.thr[t].status.FlagBlockedAny? || k.thr[t].status.FlagBlockedAll? { NoFlags(k, a, t); }
    Bystander(k, a, t, k.thr[t]);
  }

  lemma SendEvolves(k: K, buf: Addr, target: Pid, block: bool, t: Pid)
    requires Fit(k, t) && Me(k).call == User && FlagFit(k.thr[t]) && (Awaits(k, t) ==> k.thr[t].call.InReceive?) && target != k.s.active
    ensures Evolves(k, Mailing(CallSend(buf, target, block)), Send(k, buf, target, block), t)
  {
    var a, m := Mailing(CallSend(buf, target, block)), Stamped(Read(k.x.mem, buf), k.s.active);
    SendThread(Stamp(k, buf), buf, target, block, m, t);
    assert AfterSend(Stamp(k, buf), buf, target, block, m, t) == AfterSend(k, buf, target, block, m, t);
    if t == target && Accepted(k, a).Some? {
      TargetEvolves(k, a, t, m);
    } else if t != k.s.active {
      MailAside(k, a, t);
    }
  }

  lemma SelfSendEvolves(k: K, buf: Addr, block: bool, t: Pid)
    requires Fit(k, t) && Me(k).call == User && FlagFit(k.thr[t])
    ensures Evolves(k, Mailing(CallSend(buf, k.s.active, block)), Send(k, buf, k.s.active, block), t)
  {
    var a, m := Mailing(CallSend(buf, k.s.active, block)), Stamped(Read(k.x.mem, buf), k.s.active);
    var k1 := Stamp(k, buf);
    if HasRoom(Me(k)) {
      QueueThread(k1, k.s.active, m, t);
      assert Read(k1.x.mem, buf) == m;
    }
    if t != k.s.active {
      MailAside(k, a, t);
    } else if HasRoom(Me(k)) {
      NotifiedEvolves(k, a, t, m, k.thr[t]);
    }
  }

  lemma RequestThread(k: K, m: Msg, buf: Addr, target: Pid, t: Pid)
    requires t in k.thr && k.s.active in k.thr && Me(k).on == None && target != k.s.active && target in k.thr
    ensures t in SendReceive(k, m, buf, target).thr
    ensures t != k.s.active ==> SendReceive(k, m, buf, target).thr[t] == AfterSend(k, buf, target, true, Stamped(m, k.s.active), t)
    ensures t == k.s.active ==> var th := SendReceive(k, m, buf, target).thr[t];
      && th == k.thr[t].(status := ReplyBlocked, call := InSendReceive(buf, target, None), wait := th.wait, on := th.on, since := th.since)
      && (th.on == k.thr[t].on || th.since == k.w.clock)
  {
    var k2 := Stamp(AwaitReply(k, m, buf, target), buf);
    assert Read(k2.x.mem, buf) == Stamped(m, k.s.active);
    SendThread(k2, buf, target, true, Stamped(m, k.s.active), t);
  }

  lemma RequestEvolves(k: K, m: Msg, buf: Addr, target: Pid, t: Pid)
    requires Fit(k, t) && Me(k).call == User && FlagFit(k.thr[t]) && (Awaits(k, t) ==> k.thr[t].call.InReceive?)
    requires target != k.s.active && target in k.thr
    ensures Evolves(k, Mailing(CallSendReceive(m, buf, target)), SendReceive(k, m, buf, target), t)
  {
    var a := Mailing(CallSendReceive(m, buf, target));
    RequestThread(k, m, buf, target, t);
    if t == target {
      TargetEvolves(k, a, t, Stamped(m, k.s.active));
    } else if t != k.s.active {
      MailAside(k, a, t);
    }
  }

  lemma SendIntThread(k: K, m: Msg, target: Pid, t: Pid)
    requires t in k.thr
    ensures t in SendInt(k, m, target).thr
    ensures SendInt(k, m, target).thr[t] ==
      if t == target && Awaits(k, t) then Supplied(k.thr[t], Stamped(m, PID_ISR))
      else if t == target && HasRoom(k.thr[t]) then Notified(k.thr[t], k.flagsOn, Stamped(m, PID_ISR))
      else k.thr[t]
  {
    if target in k.thr {
      if Awaits(k, target) {
        DeliverThread(k, target, Stamped(m, PID_ISR), t);
      } else if HasRoom(k.thr[target]) {
        QueueThread(k, target, Stamped(m, PID_ISR), t);
      }
    }
  }

  lemma SendIntEvolves(k: K, m: Msg, target: Pid, t: Pid)
    requires t in k.thr && Lacks(k.thr[t]) && FlagFit(k.thr[t]) && (Awaits(k, t) ==> k.thr[t].call.InReceive?)
    ensures Evolves(k, Irq(IrqSend(m, target)), SendInt(k, m, target), t)
  {
    var a := Irq(IrqSend(m, target));
    SendIntThread(k, m, target, t);
    if t == target && Accepted(k, a).Some? { TargetEvolves(k, a, t, Stamped(m, PID_ISR)); } else { MailAside(k, a, t); }
  }

  // ---------------------------------------------------------------- receiving and replying

  /** What is used of the invariant about the first sender that waits for the active thread. */
  ghost predicate FitSender(k: K, buf: Addr) {
    var q := List(k.w.lists, MsgWaiters(k.s.active));
    q != [] ==>
      && q[0] in k.thr && q[0] != k.s.active && (k.thr[q[0]].status.SendBlocked? || k.thr[q[0]].status.ReplyBlocked?)
      && k.thr[q[0]].wait != Buffer(buf)
  }

  /** Every thread after _msg_receive. */
  function AfterReceive(k: K, buf: Addr, block: bool, t: Pid): Thread {
    var th, q := Th(k.thr, t), List(k.w.lists, MsgWaiters(k.s.active));
    if t == k.s.active then
      if th.inbox != [] then
        th.(inbox := th.inbox[1..] + (if q == [] then [] else [WaitingMsg(k.x.mem, Th(k.thr, q[0]))]), call := InReceive(buf, Some(th.inbox[0])))
      else if q != [] then th.(wait := Buffer(buf), call := InReceive(buf, Found(k)))
      else if block then th.(wait := Buffer(buf), call := InReceive(buf, None), status := ReceiveBlocked)
      else th
    else if q != [] && t == q[0] then Freed(th)
    else th
  }

  lemma ReleaseSenderThread(k: K, s: Pid, t: Pid)
    requires t in k.thr && s in k.thr && (k.thr[s].status.SendBlocked? || k.thr[s].status.ReplyBlocked?) && k.thr[s].on == None
    ensures t in ReleaseSender(k, s).thr && ReleaseSender(k, s).thr[t] == if t == s then Freed(k.thr[t]) else k.thr[t]
  {
  }

  lemma RefillThread(k: K, t: Pid, s: Pid)
    requires t in k.thr && k.s.active in k.thr && First(k, MsgWaiters(k.s.active), s) && s in k.thr && s != k.s.active
    requires k.thr[s].status.SendBlocked? || k.thr[s].status.ReplyBlocked?
    ensures t in Refill(k).thr
    ensures Refill(k).thr[t] == if t == k.s.active then k.thr[t].(inbox := k.thr[t].inbox + [WaitingMsg(k.x.mem, k.thr[s])])
                                else if t == s then Freed(k.thr[t]) else k.thr[t]
  {
    var k1 := RemoveHead(Put(k, k.s.active, Me(k).(inbox := Me(k).inbox + [WaitingMsg(k.x.mem, Th(k.thr, s))])), MsgWaiters(k.s.active));
    ReleaseSenderThread(k1, s, t);
  }

  lemma TakeWaitingThread(k: K, buf: Addr, t: Pid, s: Pid)
    requires t in k.thr && k.s.active in k.thr && First(k, MsgWaiters(k.s.active), s) && s in k.thr && s != k.s.active
    requires k.thr[s].status.SendBlocked? || k.thr[s].status.ReplyBlocked?
    ensures t in TakeWaiting(k, buf).thr
    ensures TakeWaiting(k, buf).thr[t] ==
      if t == k.s.active then k.thr[t].(wait := Buffer(buf), call := InReceive(buf, Some(WaitingMsg(k.x.mem, k.thr[s]))))
      else if t == s then Freed(k.thr[t]) else k.thr[t]
  {
    var m := WaitingMsg(k.x.mem, Th(k.thr, s));
    var k1 := Put(k, k.s.active, Me(k).(wait := Buffer(buf), call := InReceive(buf, Some(m))));
    ReleaseSenderThread(RemoveHead(LogRcvd(Write(k1, buf, m), m.sender, k.s.active, m), MsgWaiters(k.s.active)), s, t);
  }

  lemma ReceiveThread(k: K, buf: Addr, block: bool, t: Pid)
    requires t in k.thr && k.s.active in k.thr && FitSender(k, buf)
    ensures t in Receive(k, buf, block).thr && Receive(k, buf, block).thr[t] == AfterReceive(k, buf, block, t)
  {
    var q := List(k.w.lists, MsgWaiters(k.s.active));
    if q != [] {
      if Me(k).inbox != [] {
        RefillThread(TakeQueued(k, buf), t, q[0]);
        assert WaitingMsg(TakeQueued(k, buf).x.mem, k.thr[q[0]]) == WaitingMsg(k.x.mem, k.thr[q[0]]);
      } else {
        TakeWaitingThread(k, buf, t, q[0]);
      }
    } else if Me(k).inbox != [] {
      assert Me(k).inbox[1..] + [] == Me(k).inbox[1..];
    }
  }

  lemma ReceiveEvolves(k: K, buf: Addr, block: bool, t: Pid)
    requires Fit(k, t) && Me(k).call == User && FitSender(k, buf)
    ensures Evolves(k, Mailing(CallReceive(buf, block)), Receive(k, buf, block), t)
  {
    var a := Mailing(CallReceive(buf, block));
    ReceiveThread(k, buf, block, t);
    if t == k.s.active {
      ReceiverEvolves(k, buf, block);
    } else {
      SenderEvolves(k, buf, block, t);
    }
  }

  lemma ReceiverEvolves(k: K, buf: Addr, block: bool)
    requires k.s.active in k.thr && OnRq(Me(k).status) && Me(k).call == User && Me(k).on == None
    ensures Becomes(k, Mailing(CallReceive(buf, block)), k.s.active, AfterReceive(k, buf, block, k.s.active))
  {
    assert Raised(k, Mailing(CallReceive(buf, block)), k.s.active) == {};
  }

  lemma SenderEvolves(k: K, buf: Addr, block: bool, t: Pid)
    requires Fit(k, t) && FitSender(k, buf) && t != k.s.active
    ensures Becomes(k, Mailing(CallReceive(buf, block)), t, AfterReceive(k, buf, block, t))
  {
    var a := Mailing(CallReceive(buf, block));
    assert Raised(k, a, t) == {};
    if !First(k, MsgWaiters(k.s.active), t) || k.thr[t].status.ReplyBlocked? {
      if k.thr[t].status.FlagBlockedAny? || k.thr[t].status.FlagBlockedAll? { NoFlags(k, a, t); }
      Bystander(k, a, t, AfterReceive(k, buf, block, t));
    }
  }

  predicate Answers(a: Step, u: Pid, m: Msg) {
    a == Mailing(CallReply(u, m)) || a == Irq(IrqReply(u, m))
  }

  lemma ReplyThread(k: K, u: Pid, m: Msg, t: Pid)
    requires t in k.thr
    ensures t in Reply(k, u, m).thr && t in ReplyInt(k, u, m).thr && Reply(k, u, m).thr == ReplyInt(k, u, m).thr
    ensures Reply(k, u, m).thr[t] == if t == u && AwaitsReply(k, t) then Supplied(k.thr[t], m) else k.thr[t]
  {
  }

  lemma ReplyEvolves(k: K, a: Step, u: Pid, m: Msg, t: Pid)
    requires t in k.thr && Lacks(k.thr[t]) && (k.thr[t].status.ReplyBlocked? ==> k.thr[t].call.InSendReceive?) && Answers(a, u, m)
    requires a.Mailing? ==> Me(k).call == User && OnRq(Me(k).status)
    ensures Evolves(k, a, Reply(k, u, m), t)
  {
    ReplyThread(k, u, m, t);
    assert Raised(k, a, t) == {} && k.thr[t].flags + {} == k.thr[t].flags;
    if !(t == u && AwaitsReply(k, t)) {
      if k.thr[t].status.FlagBlockedAny? || k.thr[t].status.FlagBlockedAll? { NoFlags(k, a, t); }
    }
  }

  lemma InitQueueEvolves(k: K, n: nat, t: Pid)
    requires Fit(k, t) && Me(k).call == User
    ensures Evolves(k, Mailing(CallInitQueue(n)), InitQueue(k, n), t)
  {
    if t != k.s.active { Aside(k, Mailing(CallInitQueue(n)), t, k.thr[t]); }
  }

  lemma StoreEvolves(k: K, addr: Addr, m: Msg, t: Pid)
    requires Fit(k, t) && Me(k).call == User
    ensures Evolves(k, Mailing(CallStore(addr, m)), Write(k, addr, m), t)
  {
    if t != k.s.active { Aside(k, Mailing(CallStore(addr, m)), t, k.thr[t]); }
  }

  // ---------------------------------------------------------------- the scheduler

  lemma RunThread(k: K, t: Pid)
    requires t in k.thr && NextThread(k) in k.thr && OnRq(k.thr[NextThread(k)].status)
    ensures t in SchedRun(k).thr && Alike(k.thr[t], SchedRun(k).thr[t])
  {
  }

  lemma BestRuns(k: K)
    requires Base(k)
    ensures NextThread(k) in k.thr && OnRq(k.thr[NextThread(k)].status)
    ensures forall u :: u in k.thr && OnRq(k.thr[u].status) ==> k.thr[NextThread(k)].prio <= k.thr[u].prio
  {
    var p := Best(k.s.rq, PRIO_TOP);
    BestExists(k);
    HeadFacts(k, p);
    forall u | u in k.thr && OnRq(k.thr[u].status) ensures p <= k.thr[u].prio {
      assert u in Rq(k.s.rq, k.thr[u].prio);
    }
  }

  lemma RunEvolves(k: K, t: Pid)
    requires Base(k) && t in k.thr && Lacks(k.thr[t])
    ensures Evolves(k, Schedule, SchedRun(k), t)
  {
    BestRuns(k);
    RunThread(k, t);
    Aside(k, Schedule, t, SchedRun(k).thr[t]);
  }
}
