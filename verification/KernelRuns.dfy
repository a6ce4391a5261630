/** Runs of the kernel: every interleaving of kernel calls, scheduler runs and
    interrupt handlers, starting from boot. */
module KernelRuns {
  import opened KernelTypes
  import opened KernelSpec
  import opened KernelStruct
  import opened KernelInv
  import opened KernelSteps
  import opened KernelThreads
  import opened KernelMail
  import opened KernelReceive

  /** A call the active thread makes on the scheduler, a mutex, a condition variable
      or thread flags. */
  datatype SyncCall =
    | CallYield
    | CallSleep
    | CallWakeup(t: Pid)
    | CallCreate(prio: nat, asleep: bool, noYield: bool, flags: Flags)
    | CallExit
    | CallLock(m: MutexId)
    | CallTryLock(m: MutexId)
    | CallUnlock(m: MutexId)
    | CallUnlockAndSleep(m: MutexId)
    | CallCondWait(c: CondId, m: MutexId)
    | CallSignal(c: CondId, broadcast: bool)
    | CallFlagsSet(t: Pid, mask: Flags)
    | CallFlagsClear(mask: Flags)
    | CallFlagsWait(mask: Flags, kind: FlagWait)

  /** A messaging call, or a store to one of the active thread's own buffers. */
  datatype MailCall =
    | CallStore(a: Addr, msg: Msg)
    | CallSend(buf: Addr, target: Pid, block: bool)
    | CallSendReceive(msg: Msg, buf: Addr, target: Pid)
    | CallReply(t: Pid, msg: Msg)
    | CallReceive(buf: Addr, block: bool)
    | CallInitQueue(n: nat)

  /** The next section of the call the active thread is in. */
  datatype Resume = GoRelock | GoFlagsPick | GoFlagsTake | GoReturn

  /** What an interrupt handler does before it ends. */
  datatype Handler =
    | IrqNothing
    | IrqWakeup(t: Pid)
    | IrqSignal(c: CondId, broadcast: bool)
    | IrqFlagsSet(t: Pid, mask: Flags)
    | IrqSend(msg: Msg, target: Pid)
    | IrqReply(t: Pid, msg: Msg)

  /** One atomic step. A scheduler run may happen at any time. */
  datatype Step = Schedule | Sync(sc: SyncCall) | Mailing(mc: MailCall) | Go(g: Resume) | Irq(h: Handler)

  function NextSync(k: K, a: SyncCall): K {
    match a
    case CallYield => Yield(k)
    case CallSleep => Sleep(k)
    case CallWakeup(t) => Wakeup(k, t)
    case CallCreate(prio, asleep, noYield, flags) => Create(k, prio, asleep, noYield, flags)
    case CallExit => Exit(k)
    case CallLock(m) => Lock(k, m, true)
    case CallTryLock(m) => Lock(k, m, false)
    case CallUnlock(m) => Unlock(k, m)
    case CallUnlockAndSleep(m) => UnlockAndSleep(k, m)
    case CallCondWait(c, m) => CondWait(k, c, m)
    case CallSignal(c, broadcast) => Signal(k, c, broadcast)
    case CallFlagsSet(t, mask) => FlagsSet(k, t, mask)
    case CallFlagsClear(mask) => FlagsClear(k, mask)
    case CallFlagsWait(mask, kind) => FlagsWait(k, mask, kind)
  }

  function NextMail(k: K, a: MailCall): K {
    match a
    case CallStore(a, m) => Write(k, a, m)
    case CallSend(buf, target, block) => Send(k, buf, target, block)
    case CallSendReceive(m, buf, target) => SendReceive(k, m, buf, target)
    case CallReply(t, m) => Reply(k, t, m)
    case CallReceive(buf, block) => Receive(k, buf, block)
    case CallInitQueue(n) => InitQueue(k, n)
  }

  function NextGo(k: K, a: Resume): K {
    match a
    case GoRelock => Relock(k)
    case GoFlagsPick => FlagsPick(k)
    case GoFlagsTake => FlagsTake(k)
    case GoReturn => Return(k)
  }

  function Handle(k: K, a: Handler): K {
    match a
    case IrqNothing => k
    case IrqWakeup(t) => Wakeup(k, t)
    case IrqSignal(c, broadcast) => Signal(k, c, broadcast)
    case IrqFlagsSet(t, mask) => FlagsSet(k, t, mask)
    case IrqSend(m, target) => SendInt(k, m, target)
    case IrqReply(t, m) => ReplyInt(k, t, m)
  }

  function Next(k: K, a: Step): K {
    match a
    case Schedule => SchedRun(k)
    case Sync(c) => NextSync(k, c)
    case Mailing(c) => NextMail(k, c)
    case Go(c) => NextGo(k, c)
    case Irq(c) => IsrEnd(Handle(k, c))
  }

  /** The active thread executes: no yield is pending, and it is not the idle thread,
      which makes no kernel calls. */
  predicate Executes(k: K) {
    !k.s.pend && k.s.active != PID_IDLE
  }

  predicate LegalSync(k: K, a: SyncCall) {
    match a
    case CallExit => Me(k).has == {} && List(k.w.lists, MsgWaiters(k.s.active)) == []
    case CallUnlock(m) => MayRelease(k, m)
    case CallUnlockAndSleep(m) => MayRelease(k, m)
    case CallCondWait(c, m) => MayRelease(k, m)
    case _ => true
  }

  predicate LegalMail(k: K, a: MailCall) {
    match a
    case CallStore(a, m) => a.owner == k.s.active
    case CallSend(buf, target, block) => buf.owner == k.s.active
    case CallSendReceive(m, buf, target) => buf.owner == k.s.active && target in k.thr && target != k.s.active
    case CallReply(t, m) => MayReply(k, t)
    case CallReceive(buf, block) => buf.owner == k.s.active
    case CallInitQueue(n) => Me(k).inbox == [] && List(k.w.lists, MsgWaiters(k.s.active)) == []
  }

  predicate LegalGo(k: K, a: Resume) {
    match a
    case GoRelock => Me(k).call.InCond?
    case GoFlagsPick => Me(k).call.InFlags? && Me(k).call.kind == WaitOne
    case GoFlagsTake => Me(k).call.InFlagsPicked? || (Me(k).call.InFlags? && Me(k).call.kind != WaitOne)
    case GoReturn => Returns(Me(k).call)
  }

  /** What the kernel demands of its callers. */
  predicate Legal(k: K, a: Step) {
    match a
    case Schedule => true
    case Sync(c) => Executes(k) && Me(k).call == User && LegalSync(k, c)
    case Mailing(c) => Executes(k) && Me(k).call == User && LegalMail(k, c)
    case Go(c) => Executes(k) && LegalGo(k, c)
    case Irq(c) => c.IrqReply? ==> MayReply(k, c.t)
  }

  lemma SyncKeeps(k: K, a: SyncCall)
    requires CanCall(k) && LegalSync(k, a)
    ensures Inv(NextSync(k, a))
  {
    match a
    case CallYield => YieldKeeps(k);
    case CallSleep => SleepKeeps(k);
    case CallWakeup(t) => WakeupKeeps(k, t);
    case CallCreate(prio, asleep, noYield, flags) => CreateKeeps(k, prio, asleep, noYield, flags);
    case CallExit => ExitKeeps(k);
    case CallLock(m) => LockKeeps(k, m, true);
    case CallTryLock(m) => LockKeeps(k, m, false);
    case CallUnlock(m) => UnlockKeeps(k, m);
    case CallUnlockAndSleep(m) => UnlockAndSleepKeeps(k, m);
    case CallCondWait(c, m) => CondWaitKeeps(k, c, m);
    case CallSignal(c, broadcast) => SignalKeeps(k, c, broadcast);
    case CallFlagsSet(t, mask) => FlagsSetKeeps(k, t, mask);
    case CallFlagsClear(mask) => FlagsClearKeeps(k, mask);
    case CallFlagsWait(mask, kind) => FlagsWaitKeeps(k, mask, kind);
  }

  lemma MailKeeps(k: K, a: MailCall)
    requires CanCall(k) && LegalMail(k, a)
    ensures Inv(NextMail(k, a))
  {
    match a
    case CallStore(a, m) => StoreKeeps(k, a, m);
    case CallSend(buf, target, block) => SendKeeps(k, buf, target, block);
    case CallSendReceive(m, buf, target) => SendReceiveKeeps(k, m, buf, target);
    case CallReply(t, m) => ReplyKeeps(k, t, m);
    case CallReceive(buf, block) => ReceiveKeeps(k, buf, block);
    case CallInitQueue(n) => InitQueueKeeps(k, n);
  }

  lemma GoKeeps(k: K, a: Resume)
    requires CanGoOn(k) && LegalGo(k, a)
    ensures Inv(NextGo(k, a))
  {
    match a
    case GoRelock => RelockKeeps(k);
    case GoFlagsPick => FlagsPickKeeps(k);
    case GoFlagsTake => FlagsTakeKeeps(k);
    case GoReturn => ReturnKeeps(k);
  }

  lemma IrqKeeps(k: K, a: Handler)
    requires Inv(k) && (a.IrqReply? ==> MayReply(k, a.t))
    ensures Inv(IsrEnd(Handle(k, a)))
  {
    match a
    case IrqNothing => IsrEndKeeps(k);
    case IrqWakeup(t) => WakeupKeeps(k, t); IsrEndKeeps(Wakeup(k, t));
    case IrqSignal(c, broadcast) => SignalKeeps(k, c, broadcast); IsrEndKeeps(Signal(k, c, broadcast));
    case IrqFlagsSet(t, mask) => FlagsSetKeeps(k, t, mask); IsrEndKeeps(FlagsSet(k, t, mask));
    case IrqSend(m, target) => SendIntKeeps(k, m, target);
    case IrqReply(t, m) => ReplyIntKeeps(k, t, m);
  }

  /** One step keeps the invariant. */
  lemma StepKeeps(k: K, a: Step)
    requires Inv(k) && Legal(k, a)
    ensures Inv(Next(k, a))
  {
    match a
    case Schedule => SchedRunKeeps(k);
    case Sync(c) => SyncKeeps(k, c);
    case Mailing(c) => MailKeeps(k, c);
    case Go(c) => GoKeeps(k, c);
    case Irq(c) => IrqKeeps(k, c);
  }

  // ---------------------------------------------------------------- boot

  /** The kernel's tables before kernel_init. */
  function Blank(flagsOn: bool): K {
    K(flagsOn, map[], Sched(map[], 0, false, false, false), Waits(map[], 0), Locks({}, map[]), Mails(map[], map[], map[]))
  }

  /** kernel_init: create the idle and the main thread without yielding, then switch. */
  function Boot(flagsOn: bool, f1: Flags, f2: Flags): K {
    SchedRun(CreateBoth(flagsOn, f1, f2))
  }

  function CreateBoth(flagsOn: bool, f1: Flags, f2: Flags): K {
    Create(Create(Blank(flagsOn), PRIO_IDLE, false, true, f1), PRIO_MAIN, false, true, f2)
  }

  function Fresh(prio: nat, flags: Flags): Thread {
    Thread(prio, Pending, flags, NoData, [], 0, User, None, 0, {})
  }

  /** Both threads exist, each alone on its run queue. */
  lemma BootTables(flagsOn: bool, f1: Flags, f2: Flags)
    ensures var k := CreateBoth(flagsOn, f1, f2);
      && k.thr == map[PID_IDLE := Fresh(PRIO_IDLE, f1), PID_MAIN := Fresh(PRIO_MAIN, f2)]
      && k.s.rq == map[PRIO_IDLE := [PID_IDLE], PRIO_MAIN := [PID_MAIN]]
      && k.w == Waits(map[], 0) && k.l == Locks({}, map[]) && k.x == Mails(map[], map[], map[])
  {
    var k0 := Blank(flagsOn);
    assert FreePid(k0.thr, PID_FIRST) == PID_IDLE;
    var k1 := Create(k0, PRIO_IDLE, false, true, f1);
    assert Rq(k0.s.rq, PRIO_IDLE) + [PID_IDLE] == [PID_IDLE];
    assert k1.s.rq == map[PRIO_IDLE := [PID_IDLE]];
    assert FreePid(k1.thr, PID_FIRST) == PID_MAIN;
    assert Rq(k1.s.rq, PRIO_MAIN) + [PID_MAIN] == [PID_MAIN];
  }

  lemma BootBase(k: K, f1: Flags, f2: Flags)
    requires k.thr == map[PID_IDLE := Fresh(PRIO_IDLE, f1), PID_MAIN := Fresh(PRIO_MAIN, f2)]
    requires k.s.rq == map[PRIO_IDLE := [PID_IDLE], PRIO_MAIN := [PID_MAIN]]
    requires k.w == Waits(map[], 0)
    ensures Base(k)
  {
  }

  lemma BootContent(k: K, f1: Flags, f2: Flags)
    requires k.thr == map[PID_IDLE := Fresh(PRIO_IDLE, f1), PID_MAIN := Fresh(PRIO_MAIN, f2)]
    requires k.w == Waits(map[], 0) && k.l == Locks({}, map[]) && k.x == Mails(map[], map[], map[])
    ensures Content(k)
  {
    assert forall t, m :: t in k.thr ==> !Holds(k.thr[t], m);
  }

  lemma BootInv(flagsOn: bool, f1: Flags, f2: Flags)
    ensures Inv(Boot(flagsOn, f1, f2))
  {
    var k := CreateBoth(flagsOn, f1, f2);
    assert Base(k) && Content(k) by {
      BootTables(flagsOn, f1, f2);
      BootBase(k, f1, f2);
      BootContent(k, f1, f2);
    }
    SchedRunKeeps(k);
  }

  // ---------------------------------------------------------------- runs

  datatype Setup = Setup(flagsOn: bool, f1: Flags, f2: Flags)

  function After(b: Setup, steps: seq<Step>): K {
    if steps == [] then Boot(b.flagsOn, b.f1, b.f2)
    else Next(After(b, steps[..|steps| - 1]), steps[|steps| - 1])
  }

  /** Every step of the run is one its caller may take. */
  predicate LegalRun(b: Setup, steps: seq<Step>) {
    steps == [] ||
    (LegalRun(b, steps[..|steps| - 1]) && Legal(After(b, steps[..|steps| - 1]), steps[|steps| - 1]))
  }

  /** The invariant holds in every state of every legal run. */
  lemma {:induction false} RunInv(b: Setup, steps: seq<Step>)
    requires LegalRun(b, steps)
    ensures Inv(After(b, steps))
  {
    if steps == [] {
      BootInv(b.flagsOn, b.f1, b.f2);
    } else {
      var pre := steps[..|steps| - 1];
      RunInv(b, pre);
      StepKeeps(After(b, pre), steps[|steps| - 1]);
    }
  }
}
