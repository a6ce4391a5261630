/** Which steps leave a yield pending, and who runs after the next scheduler run. */
module KernelYields {
  import opened KernelTypes
  import opened KernelSpec
  import opened KernelStruct
  import opened KernelInv
  import opened KernelSteps
  import opened KernelThreads
  import opened KernelMail
  import opened KernelRuns
  import opened KernelTheorems
  import opened KernelLogs
  import opened KernelReplies
  import opened KernelEffects
  import opened KernelOutcomes

  predicate Better(k: K, t: Pid) {
    Th(k.thr, t).prio < Me(k).prio
  }

  /** The step wakes t, and the running thread has to let t run if t is better: at once if
      the step hands t a message or sets flags for it, or replies in an interrupt. The one
      wake-up without a yield is that of a thread that waits for the message flag. */
  ghost predicate Urges(k: K, a: Step, t: Pid) {
    && t in k.thr && Wakes(k, a, t)
    && match a
       case Sync(CallFlagsSet(_, _)) => true
       case Mailing(CallSend(_, _, _)) => Awaits(k, t)
       case Irq(IrqFlagsSet(_, _)) => true
       case Irq(IrqSend(_, _)) => true
       case Irq(IrqReply(_, _)) => true
       case _ => Better(k, t)
  }

  /** The step creates a thread that is to run before its creator goes on. */
  predicate Spawns(k: K, a: Step) {
    Born(k, a) != 0 && !a.sc.asleep && !a.sc.noYield && a.sc.prio < Me(k).prio
  }

  /** A yield is pending after the step exactly if one was, the caller gave up the
      processor or blocked, the step woke a thread to which it has to yield, or a request
      was outstanding when a handler ended. */
  ghost predicate Pends(k: K, a: Step) {
    && !Switches(a)
    && (k.s.pend || a == Sync(CallYield) || (ByActive(a) && Blocks(k, a)) || Spawns(k, a) || (a.Irq? && k.s.request)
        || exists t :: Urges(k, a, t))
  }

  /** The scheduler runs. */
  predicate Switches(a: Step) {
    a.Schedule? || Quits(a)
  }

  // ---------------------------------------------------------------- whom a step can wake

  /** What is used of the invariant: threads that wait for flags lack them, and the active
      thread is runnable unless a yield is pending. */
  ghost predicate Alert(k: K) {
    && k.s.active in k.thr && (k.s.pend || OnRq(Me(k).status))
    && (forall t :: t in k.thr ==> Lacks(k.thr[t]))
  }

  lemma IsAlert(k: K)
    requires Inv(k)
    ensures Alert(k)
  {
    forall t | t in k.thr ensures Lacks(k.thr[t]) { ThreadFit(k, t); }
    if !k.s.pend { ActiveFacts(k); }
  }

  function Heads(k: K, r: ListRef): set<Pid> {
    if List(k.w.lists, r) == [] then {} else {List(k.w.lists, r)[0]}
  }

  /** The threads that the step's arguments lead to. */
  function Candidates(k: K, a: Step): set<Pid> {
    match a
    case Sync(CallWakeup(u)) => {u}
    case Irq(IrqWakeup(u)) => {u}
    case Sync(CallFlagsSet(u, _)) => {u}
    case Irq(IrqFlagsSet(u, _)) => {u}
    case Sync(CallSignal(c, all)) => if all then set t | t in List(k.w.lists, CondQ(c)) else Heads(k, CondQ(c))
    case Irq(IrqSignal(c, all)) => if all then set t | t in List(k.w.lists, CondQ(c)) else Heads(k, CondQ(c))
    case Mailing(CallSend(_, target, _)) => {target}
    case Mailing(CallSendReceive(_, _, target)) => {target}
    case Mailing(CallReceive(_, _)) => Heads(k, MsgWaiters(k.s.active))
    case Mailing(CallReply(u, _)) => {u}
    case Irq(IrqSend(_, target)) => {target}
    case Irq(IrqReply(u, _)) => {u}
    case _ => if Gives(a).Some? then Heads(k, MutexQ(Gives(a).value)) else {}
  }

  lemma OnlyCandidates(k: K, a: Step, t: Pid)
    requires t in k.thr && Lacks(k.thr[t]) && Wakes(k, a, t)
    requires a.Sync? && a.sc.CallSignal? ==> FitCond(k, a.sc.c, t)
    requires a.Irq? && a.h.IrqSignal? ==> FitCond(k, a.h.c, t)
    requires a.Mailing? && a.mc.CallReceive? ==> OnRq(Me(k).status)
    ensures t in Candidates(k, a)
  {
    if k.thr[t].status.FlagBlockedAny? || k.thr[t].status.FlagBlockedAll? {
      if Raised(k, a, t) == {} { NoFlags(k, a, t); }
    }
  }

  // ---------------------------------------------------------------- one call after the other

  lemma WakeupPends(k: K, u: Pid)
    requires Alert(k)
    ensures Wakeup(k, u).s.pend <==> k.s.pend || (u in k.thr && k.thr[u].status.Sleeping? && Better(k, u))
    ensures Wakeup(k, u).s.request == k.s.request
  {
  }

  lemma CreatePends(k: K, a: SyncCall)
    requires Alert(k) && a.CallCreate? && !k.s.pend
    ensures NextSync(k, a).s.pend <==> Spawns(k, Sync(a))
  {
  }

  lemma UnlockPends(k: K, m: MutexId)
    requires Alert(k) && FitMutex(k, m) && !k.s.pend
    ensures var q := List(k.w.lists, MutexQ(m)); Unlock(k, m).s.pend <==> q != [] && Better(k, q[0])
  {
  }

  /** The least priority number among q is below that of the active thread exactly if one
      of q is better. */
  lemma MinBetter(k: K, q: seq<Pid>)
    requires Me(k).prio <= PRIO_MIN
    ensures MinPrio(k.thr, q) < Me(k).prio <==> exists t :: t in q && Better(k, t)
  {
  }

  lemma {:induction false} WakeAllSame(k: K, c: CondId)
    ensures WakeAll(k, c).s.(rq := k.s.rq) == k.s
    decreases |List(k.w.lists, CondQ(c))|
  {
    if List(k.w.lists, CondQ(c)) != [] { WakeAllSame(WakeHead(k, CondQ(c)), c); }
  }

  /** The threads that a signal wakes. */
  function Signalled(k: K, c: CondId, broadcast: bool): seq<Pid> {
    var q := List(k.w.lists, CondQ(c));
    if broadcast || q == [] then q else q[..1]
  }

  lemma SignalPends(k: K, c: CondId, broadcast: bool)
    requires Base(k) && Alert(k) && Me(k).prio <= PRIO_MIN
    ensures Signal(k, c, broadcast).s.pend <==> k.s.pend || exists t :: t in Signalled(k, c, broadcast) && Better(k, t)
    ensures Signal(k, c, broadcast).s.request == k.s.request
  {
    MinBetter(k, Signalled(k, c, broadcast));
    if List(k.w.lists, CondQ(c)) != [] {
      var k1 := if broadcast then WakeAll(k, c) else WakeHead(k, CondQ(c));
      if broadcast { WokenAllSame(k, c, k1); } else { WokenOneSame(k, c, k1); }
      SwitchPends(k, k1, MinPrio(k.thr, Signalled(k, c, broadcast)));
    }
  }

  /** The active thread is as good as before, and runnable if it was. */
  predicate SameRunner(k: K, k': K) {
    && k'.s.(rq := k.s.rq) == k.s && k.s.active in k.thr && k'.s.active in k'.thr
    && Me(k').prio == Me(k).prio && (OnRq(Me(k).status) ==> OnRq(Me(k').status))
  }

  lemma SwitchPends(k: K, k': K, prio: nat)
    requires SameRunner(k, k') && (k.s.pend || OnRq(Me(k).status))
    ensures SchedSwitch(k', prio).s.pend <==> k.s.pend || prio < Me(k).prio
    ensures SchedSwitch(k', prio).s.request == k.s.request
  {
  }

  lemma WokenAllSame(k: K, c: CondId, k': K)
    requires Base(k) && k.s.active in k.thr && k' == WakeAll(k, c)
    ensures SameRunner(k, k')
  {
    WakeAllSame(k, c);
    WakeAllThread(k, c, k.s.active);
  }

  lemma WokenOneSame(k: K, c: CondId, k': K)
    requires Base(k) && k.s.active in k.thr && List(k.w.lists, CondQ(c)) != [] && k' == WakeHead(k, CondQ(c))
    ensures SameRunner(k, k')
  {
    WakeHeadFacts(k, CondQ(c));
  }

  /** Flags set for u wake it. */
  predicate Rouses(k: K, u: Pid, mask: Flags) {
    u in k.thr && FlagsReady(k.thr[u].(flags := k.thr[u].flags + mask))
  }

  lemma FlagsSetPends(k: K, u: Pid, mask: Flags)
    ensures FlagsSet(k, u, mask).s.pend <==> k.s.pend || Rouses(k, u, mask)
    ensures FlagsSet(k, u, mask).s.request <==> k.s.request || Rouses(k, u, mask)
  {
  }

  lemma FlagPends(k: K, u: Pid)
    requires u in k.thr
    ensures RaiseMsgFlag(k, u).s.pend == k.s.pend && RaiseMsgFlag(k, u).s.active == k.s.active
    ensures RaiseMsgFlag(k, u).s.request <==> k.s.request || (k.flagsOn && Rouses(k, u, MSG_WAITING))
  {
  }

  lemma QueuePends(k: K, u: Pid, m: Msg)
    requires u in k.thr
    ensures QueueMsg(k, u, m).s.pend == k.s.pend
    ensures QueueMsg(k, u, m).s.request <==> k.s.request || (k.flagsOn && Rouses(k, u, MSG_WAITING))
    ensures SendQueued(k, u, m).s.pend <==> k.s.pend || Me(k).status.ReplyBlocked?
  {
    FlagPends(LogSent(Put(k, u, Th(k.thr, u).(inbox := Th(k.thr, u).inbox + [m])), m.sender, u, m), u);
  }

  lemma SendPends(k: K, buf: Addr, target: Pid, block: bool)
    ensures SendStamped(k, buf, target, block).s.pend <==>
      k.s.pend || (target in k.thr && (Awaits(k, target) || (if HasRoom(k.thr[target]) then Me(k).status.ReplyBlocked? else block)))
  {
    if target in k.thr { QueuePends(k, target, Read(k.x.mem, buf)); }
  }

  lemma SelfPends(k: K, buf: Addr)
    requires k.s.active in k.thr
    ensures SendToSelf(k, buf).s.pend == k.s.pend
  {
    QueuePends(Stamp(k, buf), k.s.active, Read(Stamp(k, buf).x.mem, buf));
  }

  lemma RequestPends(k: K, m: Msg, buf: Addr, target: Pid)
    requires target in k.thr && target != k.s.active && k.s.active in k.thr
    ensures SendReceive(k, m, buf, target).s.pend
  {
    SendPends(Stamp(AwaitReply(k, m, buf, target), buf), buf, target, true);
  }

  lemma SendIntPends(k: K, m: Msg, target: Pid)
    ensures SendInt(k, m, target).s.pend == k.s.pend
    ensures SendInt(k, m, target).s.request <==>
      k.s.request || Awaits(k, target) || (target in k.thr && HasRoom(k.thr[target]) && k.flagsOn && Rouses(k, target, MSG_WAITING))
  {
    if target in k.thr { QueuePends(k, target, Stamped(m, PID_ISR)); }
  }

  lemma ReplyPends(k: K, u: Pid, m: Msg)
    requires Alert(k)
    ensures Reply(k, u, m).s.pend <==> k.s.pend || (AwaitsReply(k, u) && Better(k, u))
    ensures ReplyInt(k, u, m).s.pend == k.s.pend && (ReplyInt(k, u, m).s.request <==> k.s.request || AwaitsReply(k, u))
  {
  }

  lemma ReleaseSenderPends(k: K, s: Pid)
    requires k.s.active in k.thr && OnRq(Me(k).status) && Me(k).prio <= PRIO_MIN && s in k.thr && s != k.s.active
    ensures ReleaseSender(k, s).s.pend <==> k.s.pend || (!k.thr[s].status.ReplyBlocked? && Better(k, s))
  {
  }

  lemma ReceivePends(k: K, buf: Addr, block: bool)
    requires Alert(k) && !k.s.pend && Me(k).prio <= PRIO_MIN && FitSender(k, buf)
    ensures var q := List(k.w.lists, MsgWaiters(k.s.active));
      Receive(k, buf, block).s.pend <==> (block && Found(k) == None) || (q != [] && !k.thr[q[0]].status.ReplyBlocked? && Better(k, q[0]))
  {
    var q := List(k.w.lists, MsgWaiters(k.s.active));
    if q != [] {
      if Me(k).inbox != [] { RefillPends(TakeQueued(k, buf), q[0]); } else { TakePends(k, buf, q[0]); }
    }
  }

  lemma RefillPends(k: K, s: Pid)
    requires k.s.active in k.thr && OnRq(Me(k).status) && Me(k).prio <= PRIO_MIN
    requires First(k, MsgWaiters(k.s.active), s) && s in k.thr && s != k.s.active
    ensures Refill(k).s.pend <==> k.s.pend || (!k.thr[s].status.ReplyBlocked? && Better(k, s))
  {
    var k1 := RemoveHead(Put(k, k.s.active, Me(k).(inbox := Me(k).inbox + [WaitingMsg(k.x.mem, Th(k.thr, s))])), MsgWaiters(k.s.active));
    ReleaseSenderPends(k1, s);
  }

  lemma TakePends(k: K, buf: Addr, s: Pid)
    requires k.s.active in k.thr && OnRq(Me(k).status) && Me(k).prio <= PRIO_MIN
    requires First(k, MsgWaiters(k.s.active), s) && s in k.thr && s != k.s.active
    ensures TakeWaiting(k, buf).s.pend <==> k.s.pend || (!k.thr[s].status.ReplyBlocked? && Better(k, s))
  {
    var m := WaitingMsg(k.x.mem, Th(k.thr, s));
    var k1 := Put(k, k.s.active, Me(k).(wait := Buffer(buf), call := InReceive(buf, Some(m))));
    ReleaseSenderPends(RemoveHead(LogRcvd(Write(k1, buf, m), m.sender, k.s.active, m), MsgWaiters(k.s.active)), s);
  }

  // ---------------------------------------------------------------- every step

  /** Some candidate is to run before the active thread. */
  ghost predicate Urgent(k: K, a: Step) {
    exists t :: t in Candidates(k, a) && Urges(k, a, t)
  }

  lemma UrgesCandidates(k: K, a: Step)
    requires Inv(k) && Legal(k, a)
    ensures Urgent(k, a) <==> exists t :: Urges(k, a, t)
  {
    IsAlert(k);
    forall t | Urges(k, a, t) ensures t in Candidates(k, a) {
      if a.Sync? && a.sc.CallSignal? { CondFit(k, a.sc.c, t); }
      if a.Irq? && a.h.IrqSignal? { CondFit(k, a.h.c, t); }
      OnlyCandidates(k, a, t);
    }
  }

  lemma Ranked(k: K)
    requires Inv(k)
    ensures Me(k).prio <= PRIO_MIN && Alert(k)
  {
    IsAlert(k);
    PrioBound(k, k.s.active);
  }

  lemma PrioBound(k: K, t: Pid)
    requires Base(k) && t in k.thr
    ensures k.thr[t].prio <= PRIO_MIN
  {
  }

  lemma RousesWakes(k: K, a: Step, u: Pid, mask: Flags)
    requires u in k.thr && FlagFit(k.thr[u]) && Raised(k, a, u) == mask && HandedOver(k, a) == None
    requires !a.Irq? || !a.h.IrqReply?
    requires SetsFlags(a, u, mask) || (a.Irq? && a.h.IrqSend?)
    ensures Rouses(k, u, mask) <==> Wakes(k, a, u)
  {
    if k.thr[u].wait.FlagMask? { AllOrSubset(k.thr[u].flags + mask, k.thr[u].wait.mask); }
  }

  lemma SignalUrgent(k: K, a: Step, c: CondId, broadcast: bool)
    requires Inv(k) && Signals(a, c, broadcast)
    ensures (exists t :: t in Signalled(k, c, broadcast) && Better(k, t)) <==> Urgent(k, a)
  {
    forall t | t in Signalled(k, c, broadcast) ensures t in Candidates(k, a) && (Urges(k, a, t) <==> Better(k, t)) { CondFit(k, c, t); }
    assert forall t :: t in Candidates(k, a) ==> t in Signalled(k, c, broadcast);
  }

  lemma SyncPends(k: K, a: SyncCall)
    requires CanCall(k) && LegalSync(k, a) && !a.CallExit?
    ensures NextSync(k, a).s.pend <==> a == CallYield || Blocks(k, Sync(a)) || Spawns(k, Sync(a)) || Urgent(k, Sync(a))
  {
    Ranked(k);
    match a
    case CallWakeup(u) => WakeupPends(k, u); WakeupUrgent(k, Sync(a), u);
    case CallCreate(_, _, _, _) => CreatePends(k, a);
    case CallLock(m) => HeldWord(k, m);
    case CallTryLock(m) => HeldWord(k, m);
    case CallUnlock(m) => MutexFit(k, m); UnlockPends(k, m); UnlockUrgent(k, m);
    case CallSignal(c, broadcast) => SignalPends(k, c, broadcast); SignalUrgent(k, Sync(a), c, broadcast);
    case CallFlagsSet(u, mask) => FlagsSetUrgent(k, Sync(a), u, mask); FlagsSetPends(k, u, mask);
    case CallFlagsWait(mask, kind) => AllOrSubset(Me(k).flags, mask);
    case _ =>
  }

  predicate FlagBlocked(s: Status) {
    s.FlagBlockedAny? || s.FlagBlockedAll?
  }

  lemma WakeupUrgent(k: K, a: Step, u: Pid)
    requires Alert(k) && WakesUp(a, u)
    ensures Urgent(k, a) <==> u in k.thr && k.thr[u].status.Sleeping? && Better(k, u)
  {
    if u in k.thr && FlagBlocked(k.thr[u].status) { NoFlags(k, a, u); }
    assert Urgent(k, a) <==> Urges(k, a, u);
  }

  lemma ReplyUrgent(k: K, a: Step, u: Pid, m: Msg)
    requires Alert(k) && Answers(a, u, m)
    ensures Urgent(k, a) <==> AwaitsReply(k, u) && (a.Mailing? ==> Better(k, u))
  {
    if u in k.thr && FlagBlocked(k.thr[u].status) { NoFlags(k, a, u); }
    assert Urgent(k, a) <==> Urges(k, a, u);
  }

  lemma SendUrgent(k: K, buf: Addr, target: Pid, block: bool)
    requires !Awaits(k, k.s.active)
    ensures Urgent(k, Mailing(CallSend(buf, target, block))) <==> Awaits(k, target)
  {
    assert Urgent(k, Mailing(CallSend(buf, target, block))) <==> Urges(k, Mailing(CallSend(buf, target, block)), target);
  }

  lemma UnlockUrgent(k: K, m: MutexId)
    requires FitMutex(k, m)
    ensures var q := List(k.w.lists, MutexQ(m)); Urgent(k, Sync(CallUnlock(m))) <==> q != [] && Better(k, q[0])
  {
    var q := List(k.w.lists, MutexQ(m));
    if q != [] { assert Urges(k, Sync(CallUnlock(m)), q[0]) <==> Better(k, q[0]); }
  }

  lemma FlagsSetUrgent(k: K, a: Step, u: Pid, mask: Flags)
    requires Inv(k) && SetsFlags(a, u, mask)
    ensures Urgent(k, a) <==> Rouses(k, u, mask)
  {
    if u in k.thr {
      ThreadFit(k, u);
      RousesWakes(k, a, u, mask);
    }
    assert Urgent(k, a) <==> Urges(k, a, u);
  }

  lemma MailPends(k: K, a: MailCall)
    requires CanCall(k) && LegalMail(k, a)
    ensures NextMail(k, a).s.pend <==> Blocks(k, Mailing(a)) || Urgent(k, Mailing(a))
  {
    Ranked(k);
    match a
    case CallSend(buf, target, block) =>
      SendUrgent(k, buf, target, block);
      if target == k.s.active { SelfPends(k, buf); } else { SendPends(Stamp(k, buf), buf, target, block); }
    case CallSendReceive(m, buf, target) => RequestPends(k, m, buf, target);
    case CallReply(u, m) => ReplyPends(k, u, m); ReplyUrgent(k, Mailing(a), u, m);
    case CallReceive(buf, block) => SenderFit(k, buf); ReceivePends(k, buf, block); ReceiveUrgent(k, buf, block);
    case _ =>
  }

  lemma ReceiveUrgent(k: K, buf: Addr, block: bool)
    requires FitSender(k, buf)
    ensures var q := List(k.w.lists, MsgWaiters(k.s.active));
      Urgent(k, Mailing(CallReceive(buf, block))) <==> q != [] && !k.thr[q[0]].status.ReplyBlocked? && Better(k, q[0])
  {
    var q := List(k.w.lists, MsgWaiters(k.s.active));
    var a := Mailing(CallReceive(buf, block));
    if q != [] { assert Urges(k, a, q[0]) <==> !k.thr[q[0]].status.ReplyBlocked? && Better(k, q[0]); }
  }

  lemma GoPends(k: K, g: Resume)
    requires CanGoOn(k) && LegalGo(k, g)
    ensures NextGo(k, g).s.pend <==> Blocks(k, Go(g))
  {
    if g == GoRelock { HeldWord(k, Me(k).call.m); }
  }

  lemma IrqPends(k: K, a: Handler)
    requires Inv(k)
    ensures IsrEnd(Handle(k, a)).s.pend <==> k.s.pend || k.s.request || Urgent(k, Irq(a))
  {
    Ranked(k);
    match a
    case IrqNothing =>
    case IrqWakeup(u) => WakeupPends(k, u); WakeupUrgent(k, Irq(a), u);
    case IrqSignal(c, broadcast) => SignalPends(k, c, broadcast); SignalUrgent(k, Irq(a), c, broadcast);
    case IrqFlagsSet(u, mask) => FlagsSetUrgent(k, Irq(a), u, mask); FlagsSetPends(k, u, mask);
    case IrqSend(m, target) => SendIntPends(k, m, target); SendIntUrgent(k, m, target);
    case IrqReply(u, m) => ReplyPends(k, u, m); ReplyUrgent(k, Irq(a), u, m);
  }

  lemma SendIntUrgent(k: K, m: Msg, target: Pid)
    requires Inv(k)
    ensures Urgent(k, Irq(IrqSend(m, target))) <==>
      Awaits(k, target) || (target in k.thr && HasRoom(k.thr[target]) && k.flagsOn && Rouses(k, target, MSG_WAITING))
  {
    var a := Irq(IrqSend(m, target));
    if target in k.thr {
      ThreadFit(k, target);
      if !Awaits(k, target) {
        RousesWakes(k, a, target, Raised(k, a, target));
        if Raised(k, a, target) == {} && FlagBlocked(k.thr[target].status) { NoFlags(k, a, target); }
      }
    }
    assert Urgent(k, a) <==> Urges(k, a, target);
  }

  lemma RunSettles(k: K)
    ensures !SchedRun(k).s.pend && SchedRun(k).s.active == NextThread(k)
  {
  }

  /** After every legal step a yield is pending exactly if the step asks for one. */
  lemma StepPends(k: K, a: Step)
    requires Inv(k) && Legal(k, a)
    ensures Next(k, a).s.pend <==> Pends(k, a)
  {
    if Switches(a) {
      RunSettles(if a.Schedule? then k else Gone(k));
    } else {
      UrgesCandidates(k, a);
      StaysPends(k, a);
    }
  }

  lemma StaysPends(k: K, a: Step)
    requires Inv(k) && Legal(k, a) && !Switches(a)
    ensures Next(k, a).s.pend <==>
      k.s.pend || a == Sync(CallYield) || (ByActive(a) && Blocks(k, a)) || Spawns(k, a) || (a.Irq? && k.s.request) || Urgent(k, a)
  {
    match a
    case Sync(c) => SyncPends(k, c);
    case Mailing(c) => MailPends(k, c);
    case Go(g) => GoPends(k, g); assert Candidates(k, a) == {};
    case Irq(h) => IrqPends(k, h);
  }

  // ---------------------------------------------------------------- who runs

  /** Every scheduler run makes the head of the best run queue active; no other step changes
      the active thread. */
  lemma StepActive(k: K, a: Step)
    requires Inv(k) && Legal(k, a)
    ensures if Switches(a) then StrictPriority(Next(k, a)) && AtHead(Next(k, a)) else Next(k, a).s.active == k.s.active
  {
    if a.Schedule? {
      RunRanks(k);
    } else if Quits(a) {
      GoneKeeps(k);
      RunRanks(Gone(k));
    } else {
      StaysActive(k, a);
    }
  }

  lemma RunRanks(k: K)
    requires Base(k) && Content(k)
    ensures StrictPriority(SchedRun(k)) && AtHead(SchedRun(k))
  {
    SchedRunKeeps(k);
    PriorityIffNotLax(SchedRun(k));
  }

  lemma StaysActive(k: K, a: Step)
    requires !Switches(a)
    ensures Next(k, a).s.active == k.s.active
  {
    match a
    case Sync(c) => SyncActive(k, c);
    case Mailing(c) => MailActive(k, c);
    case Go(g) =>
    case Irq(h) => IrqActive(k, h);
  }

  lemma ReleaseActive(k: K, m: MutexId)
    ensures Release(k, m).s.active == k.s.active && Unlock(k, m).s.active == k.s.active
  {
  }

  lemma SyncActive(k: K, a: SyncCall)
    requires !a.CallExit?
    ensures NextSync(k, a).s.active == k.s.active
  {
    match a
    case CallSignal(c, _) => WakeAllSame(k, c);
    case CallUnlock(m) => ReleaseActive(k, m);
    case CallUnlockAndSleep(m) => ReleaseActive(k, m);
    case CallCondWait(_, m) => ReleaseActive(k, m);
    case _ =>
  }

  lemma SendActive(k: K, buf: Addr, target: Pid, block: bool)
    ensures SendStamped(k, buf, target, block).s.active == k.s.active
  {
  }

  lemma MailActive(k: K, a: MailCall)
    ensures NextMail(k, a).s.active == k.s.active
  {
    match a
    case CallSend(buf, target, block) => SendActive(Stamp(k, buf), buf, target, block);
    case CallSendReceive(m, buf, target) => SendActive(Stamp(AwaitReply(k, m, buf, target), buf), buf, target, true);
    case CallReceive(buf, block) => ReceiveActive(k, buf, block);
    case _ =>
  }

  lemma ReceiveActive(k: K, buf: Addr, block: bool)
    ensures Receive(k, buf, block).s.active == k.s.active
  {
    if List(k.w.lists, MsgWaiters(k.s.active)) != [] {
      if Me(k).inbox != [] { RefillActive(TakeQueued(k, buf)); } else { TakeActive(k, buf); }
    }
  }

  lemma RefillActive(k: K)
    requires List(k.w.lists, MsgWaiters(k.s.active)) != []
    ensures Refill(k).s.active == k.s.active
  {
    var s := List(k.w.lists, MsgWaiters(k.s.active))[0];
    var k1 := RemoveHead(Put(k, k.s.active, Me(k).(inbox := Me(k).inbox + [WaitingMsg(k.x.mem, Th(k.thr, s))])), MsgWaiters(k.s.active));
    SenderActive(k1, s);
  }

  lemma SenderActive(k: K, s: Pid)
    ensures ReleaseSender(k, s).s.active == k.s.active
  {
  }

  lemma TakeActive(k: K, buf: Addr)
    requires List(k.w.lists, MsgWaiters(k.s.active)) != []
    ensures TakeWaiting(k, buf).s.active == k.s.active
  {
    var s := List(k.w.lists, MsgWaiters(k.s.active))[0];
    var m := WaitingMsg(k.x.mem, Th(k.thr, s));
    var k1 := Put(k, k.s.active, Me(k).(wait := Buffer(buf), call := InReceive(buf, Some(m))));
    SenderActive(RemoveHead(LogRcvd(Write(k1, buf, m), m.sender, k.s.active, m), MsgWaiters(k.s.active)), s);
  }

  lemma IrqActive(k: K, h: Handler)
    ensures IsrEnd(Handle(k, h)).s.active == k.s.active
  {
    if h.IrqSignal? { WakeAllSame(k, h.c); }
  }
}
