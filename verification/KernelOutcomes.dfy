/** The exact outcome of every legal step for every thread, and for the thread table. */
module KernelOutcomes {
  import opened KernelTypes
  import opened KernelSpec
  import opened KernelStruct
  import opened KernelInv
  import opened KernelSteps
  import opened KernelThreads
  import opened KernelMail
  import opened KernelReceive
  import opened KernelRuns
  import opened KernelTheorems
  import opened KernelLogs
  import opened KernelReplies
  import opened KernelEffects

  // ---------------------------------------------------------------- what the invariant provides

  lemma ThreadFit(k: K, t: Pid)
    requires Inv(k) && t in k.thr
    ensures Lacks(k.thr[t]) && FlagFit(k.thr[t]) && (Awaits(k, t) ==> k.thr[t].call.InReceive?)
    ensures k.thr[t].status.ReplyBlocked? ==> k.thr[t].call.InSendReceive?
    ensures k.s.active in k.thr
  {
    assert Agree(t, k.thr[t]);
  }

  lemma CallerFit(k: K, t: Pid)
    requires Inv(k) && !k.s.pend && t in k.thr
    ensures Fit(k, t)
  {
    ThreadFit(k, t);
    ActiveFacts(k);
  }

  lemma HeldWord(k: K, m: MutexId)
    requires Inv(k)
    ensures Held(k, m) <==> !IsFree(k, m)
  {
    HolderEncodes(k.thr, k.w.lists, k.l.marked, k.l.holder, m);
  }

  lemma MutexFit(k: K, m: MutexId)
    requires CanCall(k) && MayRelease(k, m)
    ensures FitMutex(k, m)
  {
    HeldWord(k, m);
    ActiveFacts(k);
    assert m in Me(k).has ==> Holds(Me(k), m);
    var q := List(k.w.lists, MutexQ(m));
    if q != [] { ListAgreesWithStatus(k, q[0], MutexQ(m)); }
    assert Mutexes(k.thr, k.w.lists, k.l.marked, k.l.holder);
  }

  lemma CondFit(k: K, c: CondId, t: Pid)
    requires Inv(k)
    ensures FitCond(k, c, t)
  {
    if t in List(k.w.lists, CondQ(c)) {
      ListAgreesWithStatus(k, t, CondQ(c));
    } else if t in k.thr && k.thr[t].status.CondBlocked? {
      assert Agree(t, k.thr[t]);
      assert k.thr[t].on == Some(CondQ(k.thr[t].call.c));
      OnIsListed(k.thr, k.w.lists, CondQ(k.thr[t].call.c), t);
    }
  }

  lemma OnIsListed(thr: map<Pid, Thread>, lists: map<ListRef, seq<Pid>>, r: ListRef, t: Pid)
    requires Lists(thr, lists) && t in thr && thr[t].on == Some(r)
    ensures t in List(lists, r)
  {
  }

  lemma SenderFit(k: K, buf: Addr)
    requires CanCall(k) && buf.owner == k.s.active
    ensures FitSender(k, buf)
  {
    ActiveFacts(k);
    var q := List(k.w.lists, MsgWaiters(k.s.active));
    if q != [] {
      FirstWaiterFacts(k, k.s.active);
      assert Agree(q[0], k.thr[q[0]]);
    }
  }

  // ---------------------------------------------------------------- every thread

  lemma SyncEvolves(k: K, a: SyncCall, t: Pid)
    requires CanCall(k) && LegalSync(k, a) && t in k.thr && !a.CallExit?
    ensures Evolves(k, Sync(a), NextSync(k, a), t)
  {
    CallerFit(k, t);
    match a
    case CallYield => YieldEvolves(k, t);
    case CallSleep => SleepEvolves(k, t);
    case CallWakeup(u) => WakeupEvolves(k, Sync(a), u, t);
    case CallCreate(_, _, _, _) => CreateEvolves(k, t, a);
    case CallLock(m) => HeldWord(k, m); LockEvolves(k, t, m);
    case CallTryLock(m) => HeldWord(k, m); TryLockEvolves(k, t, m);
    case CallUnlock(m) => MutexFit(k, m); UnlockEvolves(k, t, m);
    case CallUnlockAndSleep(m) => MutexFit(k, m); UnlockAndSleepEvolves(k, t, m);
    case CallCondWait(c, m) => MutexFit(k, m); CondWaitEvolves(k, t, c, m);
    case CallSignal(c, broadcast) => SignalStep(k, Sync(a), c, broadcast, t);
    case CallFlagsSet(u, mask) => ThreadFit(k, t); FlagsSetEvolves(k, Sync(a), u, mask, t);
    case CallFlagsClear(mask) => FlagsClearEvolves(k, t, mask);
    case CallFlagsWait(mask, kind) => FlagsWaitEvolves(k, t, mask, kind);
  }

  lemma SignalStep(k: K, a: Step, c: CondId, broadcast: bool, t: Pid)
    requires Inv(k) && Signals(a, c, broadcast) && t in k.thr && (a.Sync? ==> Me(k).call == User && OnRq(Me(k).status))
    ensures Evolves(k, a, Signal(k, c, broadcast), t)
  {
    ThreadFit(k, t);
    CondFit(k, c, t);
    SignalThread(k, c, broadcast, t);
    SignalEvolves(k, a, c, broadcast, t, Signal(k, c, broadcast).thr[t]);
  }

  lemma MailEvolves(k: K, a: MailCall, t: Pid)
    requires CanCall(k) && LegalMail(k, a) && t in k.thr
    ensures Evolves(k, Mailing(a), NextMail(k, a), t)
  {
    CallerFit(k, t);
    ThreadFit(k, t);
    match a
    case CallStore(addr, m) => StoreEvolves(k, addr, m, t);
    case CallSend(buf, target, block) =>
      if target == k.s.active { SelfSendEvolves(k, buf, block, t); } else { SendEvolves(k, buf, target, block, t); }
    case CallSendReceive(m, buf, target) => RequestEvolves(k, m, buf, target, t);
    case CallReply(u, m) => ReplyEvolves(k, Mailing(a), u, m, t);
    case CallReceive(buf, block) => SenderFit(k, buf); ReceiveEvolves(k, buf, block, t);
    case CallInitQueue(n) => InitQueueEvolves(k, n, t);
  }

  lemma ResumeEvolves(k: K, g: Resume, t: Pid)
    requires CanGoOn(k) && LegalGo(k, g) && t in k.thr
    ensures Evolves(k, Go(g), NextGo(k, g), t)
  {
    CallerFit(k, t);
    if g == GoRelock {
      HeldWord(k, Me(k).call.m);
      RelockEvolves(k, t, Me(k).call.m);
    } else {
      GoEvolves(k, g, t);
    }
  }

  lemma HandlerEvolves(k: K, a: Handler, t: Pid)
    requires Inv(k) && t in k.thr
    ensures Evolves(k, Irq(a), IsrEnd(Handle(k, a)), t)
  {
    ThreadFit(k, t);
    match a
    case IrqNothing => Aside(k, Irq(a), t, k.thr[t]);
    case IrqWakeup(u) => WakeupEvolves(k, Irq(a), u, t);
    case IrqSignal(c, broadcast) => SignalStep(k, Irq(a), c, broadcast, t);
    case IrqFlagsSet(u, mask) => FlagsSetEvolves(k, Irq(a), u, mask, t);
    case IrqSend(m, target) => SendIntEvolves(k, m, target, t);
    case IrqReply(u, m) => ReplyThread(k, u, m, t); ReplyEvolves(k, Irq(a), u, m, t);
  }

  lemma ExitEvolves(k: K, t: Pid)
    requires CanCall(k) && LegalSync(k, CallExit) && t in k.thr && t != k.s.active
    ensures Evolves(k, Sync(CallExit), Exit(k), t)
  {
    GoneKeeps(k);
    BestRuns(Gone(k));
    RunThread(Gone(k), t);
    ThreadFit(k, t);
    Aside(k, Sync(CallExit), t, Exit(k).thr[t]);
  }

  /** Every legal step makes of every thread, but one that exits, exactly what the step asks
      for: whether it is runnable, where it is in its call, its mutexes, flags, queue and
      stamp. In particular no thread is woken without what it waits for, and none that is
      given it stays blocked. */
  lemma StepEvolves(k: K, a: Step, t: Pid)
    requires Inv(k) && Legal(k, a) && t in k.thr && !(Quits(a) && t == k.s.active)
    ensures Evolves(k, a, Next(k, a), t)
  {
    match a
    case Schedule => ThreadFit(k, t); RunEvolves(k, t);
    case Sync(c) => if c.CallExit? { ExitEvolves(k, t); } else { SyncEvolves(k, c, t); }
    case Mailing(c) => MailEvolves(k, c, t);
    case Go(g) => ResumeEvolves(k, g, t);
    case Irq(h) => HandlerEvolves(k, h, t);
  }

  // ---------------------------------------------------------------- the thread table

  /** The id of the thread that the step creates, or 0. */
  function Born(k: K, a: Step): Pid {
    if a.Sync? && a.sc.CallCreate? && a.sc.prio < PRIO_LEVELS then FreePid(k.thr, PID_FIRST) else 0
  }

  predicate SameTable(k: K, k': K) {
    k'.thr.Keys == k.thr.Keys
  }

  lemma {:induction false} WakeAllTable(k: K, c: CondId)
    requires Base(k)
    ensures SameTable(k, WakeAll(k, c))
    decreases |List(k.w.lists, CondQ(c))|
  {
    if List(k.w.lists, CondQ(c)) != [] {
      WakeHeadFacts(k, CondQ(c));
      WakeAllTable(WakeHead(k, CondQ(c)), c);
    }
  }

  lemma SignalTable(k: K, c: CondId, broadcast: bool)
    requires Base(k)
    ensures SameTable(k, Signal(k, c, broadcast))
  {
    WakeAllTable(k, c);
    if List(k.w.lists, CondQ(c)) != [] { WakeHeadFacts(k, CondQ(c)); }
  }

  lemma ReleaseTable(k: K, m: MutexId)
    requires k.s.active in k.thr && FitMutex(k, m)
    ensures SameTable(k, Release(k, m)) && SameTable(k, Unlock(k, m)) && Unlock(k, m).s.active == k.s.active == Release(k, m).s.active
  {
  }

  lemma SleepTable(k: K)
    requires k.s.active in k.thr
    ensures SameTable(k, Sleep(k))
  {
  }

  lemma CondWaitTable(k: K, c: CondId, m: MutexId)
    requires k.s.active in k.thr && FitMutex(k, m)
    ensures SameTable(k, CondWait(k, c, m))
  {
    ReleaseTable(k, m);
  }

  lemma PlainTable(k: K, a: SyncCall)
    requires k.s.active in k.thr && !a.CallExit? && !a.CallCreate? && !a.CallSignal? && Gives(Sync(a)) == None
    ensures SameTable(k, NextSync(k, a))
  {
  }

  lemma CreateTable(k: K, a: SyncCall)
    requires a.CallCreate?
    ensures NextSync(k, a).thr.Keys == k.thr.Keys + (if Born(k, Sync(a)) == 0 then {} else {Born(k, Sync(a))})
  {
  }

  lemma SyncTable(k: K, a: SyncCall)
    requires CanCall(k) && LegalSync(k, a) && !a.CallExit? && !a.CallCreate?
    ensures SameTable(k, NextSync(k, a))
  {
    match a
    case CallSignal(c, broadcast) => SignalTable(k, c, broadcast);
    case CallUnlock(m) => MutexFit(k, m); ReleaseTable(k, m);
    case CallUnlockAndSleep(m) => MutexFit(k, m); ReleaseTable(k, m); SleepTable(Release(k, m));
    case CallCondWait(c, m) => MutexFit(k, m); CondWaitTable(k, c, m);
    case _ => PlainTable(k, a);
  }

  lemma SendTable(k: K, buf: Addr, target: Pid, block: bool)
    requires k.s.active in k.thr
    ensures SameTable(k, SendStamped(k, buf, target, block))
  {
    if target in k.thr {
      DeliverTable(k, target, Read(k.x.mem, buf));
      QueueTable(k, target, Read(k.x.mem, buf));
      WaitingTable(k, buf, target, Read(k.x.mem, buf));
    }
  }

  lemma DeliverTable(k: K, t: Pid, m: Msg)
    requires t in k.thr
    ensures SameTable(k, Deliver(k, t, m))
  {
  }

  lemma FlagTable(k: K, t: Pid)
    requires t in k.thr
    ensures SameTable(k, RaiseMsgFlag(k, t))
  {
  }

  lemma QueueTable(k: K, t: Pid, m: Msg)
    requires t in k.thr
    ensures SameTable(k, QueueMsg(k, t, m)) && SameTable(k, SendQueued(k, t, m))
  {
    FlagTable(LogSent(Put(k, t, Th(k.thr, t).(inbox := Th(k.thr, t).inbox + [m])), m.sender, t, m), t);
  }

  lemma WaitingTable(k: K, buf: Addr, target: Pid, m: Msg)
    requires target in k.thr && k.s.active in k.thr
    ensures SameTable(k, SendWaiting(k, buf, target, m))
  {
    var reply := Me(k).status.ReplyBlocked?;
    var k1 := Block(k, Me(k).(wait := Buffer(buf), call := if reply then Me(k).call else InSend(target)), if reply then ReplyBlocked else SendBlocked);
    FlagTable(LogSent(AddToList(k1, MsgWaiters(target), k.s.active), k.s.active, target, m), target);
  }

  lemma ReceiveTable(k: K, buf: Addr, block: bool)
    requires k.s.active in k.thr && FitSender(k, buf)
    ensures SameTable(k, Receive(k, buf, block))
  {
    var q := List(k.w.lists, MsgWaiters(k.s.active));
    if q != [] {
      if Me(k).inbox != [] { RefillTable(TakeQueued(k, buf)); } else { TakeTable(k, buf); }
    }
  }

  lemma TakeTable(k: K, buf: Addr)
    requires k.s.active in k.thr && List(k.w.lists, MsgWaiters(k.s.active)) != [] && List(k.w.lists, MsgWaiters(k.s.active))[0] in k.thr
    ensures SameTable(k, TakeWaiting(k, buf))
  {
  }

  lemma RefillTable(k: K)
    requires k.s.active in k.thr && List(k.w.lists, MsgWaiters(k.s.active)) != [] && List(k.w.lists, MsgWaiters(k.s.active))[0] in k.thr
    ensures SameTable(k, Refill(k))
  {
  }

  lemma MailTable(k: K, a: MailCall)
    requires CanCall(k) && LegalMail(k, a)
    ensures SameTable(k, NextMail(k, a))
  {
    ActiveFacts(k);
    match a
    case CallSend(buf, target, block) =>
      if target != k.s.active { SendTable(Stamp(k, buf), buf, target, block); } else { SelfTable(k, buf); }
    case CallSendReceive(m, buf, target) => SendTable(Stamp(AwaitReply(k, m, buf, target), buf), buf, target, true);
    case CallReceive(buf, block) => SenderFit(k, buf); ReceiveTable(k, buf, block);
    case _ =>
  }

  lemma SelfTable(k: K, buf: Addr)
    requires k.s.active in k.thr
    ensures SameTable(k, SendToSelf(k, buf))
  {
    QueueTable(Stamp(k, buf), k.s.active, Read(Stamp(k, buf).x.mem, buf));
  }

  lemma HandlerTable(k: K, a: Handler)
    requires Inv(k)
    ensures SameTable(k, IsrEnd(Handle(k, a)))
  {
    match a
    case IrqSignal(c, broadcast) => SignalTable(k, c, broadcast);
    case IrqSend(m, target) => SendIntTable(k, m, target);
    case _ => PlainIrqTable(k, a);
  }

  lemma SendIntTable(k: K, m: Msg, target: Pid)
    ensures SameTable(k, SendInt(k, m, target))
  {
    if target in k.thr {
      DeliverTable(k, target, m.(sender := PID_ISR));
      QueueTable(k, target, m.(sender := PID_ISR));
    }
  }

  lemma PlainIrqTable(k: K, a: Handler)
    requires !a.IrqSignal? && !a.IrqSend?
    ensures SameTable(k, Handle(k, a))
  {
  }

  lemma RunTable(k: K)
    requires NextThread(k) in k.thr
    ensures SameTable(k, SchedRun(k))
  {
  }

  lemma GoTable(k: K, g: Resume)
    requires k.s.active in k.thr
    ensures SameTable(k, NextGo(k, g))
  {
  }

  /** Threads appear by thread_create and disappear by their own exit only. */
  lemma StepTable(k: K, a: Step)
    requires Inv(k) && Legal(k, a)
    ensures Next(k, a).thr.Keys == k.thr.Keys - (if Quits(a) then {k.s.active} else {}) + (if Born(k, a) == 0 then {} else {Born(k, a)})
  {
    match a
    case Schedule => BestRuns(k); RunTable(k);
    case Sync(c) =>
      if c.CallExit? {
        GoneKeeps(k);
        BestRuns(Gone(k));
        RunTable(Gone(k));
      } else if c.CallCreate? {
        CreateTable(k, c);
      } else {
        SyncTable(k, c);
      }
    case Mailing(c) => MailTable(k, c);
    case Go(g) => GoTable(k, g);
    case Irq(h) => HandlerTable(k, h);
  }

  /** thread_create takes the lowest free id, and makes a thread of the given priority,
      asleep or last in its run queue, without flags of its own and without a queue. */
  lemma CreateMakes(k: K, a: SyncCall)
    requires CanCall(k) && a.CallCreate? && Born(k, Sync(a)) != 0
    ensures var k', t := NextSync(k, a), Born(k, Sync(a));
      && t !in k.thr && (forall u :: PID_FIRST <= u < t ==> u in k.thr) && t in k'.thr
      && k'.thr[t].prio == a.prio && k'.thr[t].flags == a.flags && k'.thr[t].inbox == [] && k'.thr[t].cap == 0
      && k'.thr[t].call == User && k'.thr[t].has == {}
      && (if a.asleep then k'.thr[t].status == Sleeping else OnRq(k'.thr[t].status) && Rq(k'.s.rq, a.prio) == Rq(k.s.rq, a.prio) + [t])
  {
  }
}
