/** What every step does to message buffers. */
module KernelBuffers {
  import opened KernelTypes
  import opened KernelSpec
  import opened KernelStruct
  import opened KernelInv
  import opened KernelSteps
  import opened KernelMail
  import opened KernelRuns
  import opened KernelLogs
  import opened KernelReplies
  import opened KernelEffects
  import opened KernelOutcomes

  /** The buffer that thread t named when it began to wait for a message or a reply. */
  function Awaited(k: K, t: Pid): Option<Addr> {
    match Th(k.thr, t).call
    case InReceive(buf, _) => Some(buf)
    case InSendReceive(buf, _, _) => Some(buf)
    case _ => None
  }

  /** The step hands message m over to a thread that waits for it, in buffer a. */
  predicate Supplies(k: K, st: Step, a: Addr, m: Msg) {
    match st
    case Mailing(CallReply(t, r)) => AwaitsReply(k, t) && Awaited(k, t) == Some(a) && m == r
    case Irq(IrqReply(t, r)) => AwaitsReply(k, t) && Awaited(k, t) == Some(a) && m == r
    case Mailing(CallReceive(_, _)) => false
    case _ => HandedOver(k, st).Some? && Awaited(k, HandedOver(k, st).value.r) == Some(a) && m == HandedOver(k, st).value.m
  }

  /** What the active thread's own step writes to its buffer a. */
  function OwnWrite(k: K, st: Step, a: Addr): Option<Msg> {
    match st
    case Mailing(CallStore(b, m)) => if a == b then Some(m) else None
    case Mailing(CallSend(b, _, _)) => if a == b then Some(Stamped(Read(k.x.mem, b), k.s.active)) else None
    case Mailing(CallSendReceive(m, b, _)) => if a == b then Some(Stamped(m, k.s.active)) else None
    case Mailing(CallReceive(b, _)) => if a == b then Found(k) else None
    case _ => None
  }

  /** Buffer a after the step: what was handed over, what its owner's step wrote, or what it
      held before. */
  ghost predicate Holding(k: K, st: Step, k': K, a: Addr) {
    && (forall m :: Supplies(k, st, a, m) ==> Read(k'.x.mem, a) == m)
    && (OwnWrite(k, st, a).Some? ==> Read(k'.x.mem, a) == OwnWrite(k, st, a).value)
    && (OwnWrite(k, st, a) == None && (forall m :: !Supplies(k, st, a, m)) ==> Read(k'.x.mem, a) == Read(k.x.mem, a))
  }

  lemma {:induction false} WakeAllMem(k: K, c: CondId)
    ensures WakeAll(k, c).x.mem == k.x.mem
    decreases |List(k.w.lists, CondQ(c))|
  {
    if List(k.w.lists, CondQ(c)) != [] { WakeAllMem(WakeHead(k, CondQ(c)), c); }
  }

  lemma SignalMem(k: K, c: CondId, broadcast: bool)
    ensures Signal(k, c, broadcast).x.mem == k.x.mem
  {
    WakeAllMem(k, c);
  }

  lemma SyncMem(k: K, a: SyncCall)
    ensures NextSync(k, a).x.mem == k.x.mem
  {
    match a
    case CallSignal(c, broadcast) => SignalMem(k, c, broadcast);
    case CallExit => ExitMem(k);
    case CallUnlock(m) => GiveMem(k, m);
    case CallUnlockAndSleep(m) => GiveMem(k, m);
    case CallCondWait(c, m) => CondWaitMem(k, c, m);
    case _ => PlainMem(k, a);
  }

  lemma ExitMem(k: K)
    ensures Exit(k).x.mem == k.x.mem
  {
  }

  lemma GiveMem(k: K, m: MutexId)
    ensures Unlock(k, m).x.mem == k.x.mem && UnlockAndSleep(k, m).x.mem == k.x.mem
  {
  }

  lemma CondWaitMem(k: K, c: CondId, m: MutexId)
    ensures CondWait(k, c, m).x.mem == k.x.mem
  {
    GiveMem(k, m);
  }

  lemma PlainMem(k: K, a: SyncCall)
    requires !a.CallExit? && !a.CallSignal? && Gives(Sync(a)) == None
    ensures NextSync(k, a).x.mem == k.x.mem
  {
  }

  lemma GoMem(k: K, g: Resume)
    ensures NextGo(k, g).x.mem == k.x.mem
  {
  }

  lemma RunMem(k: K)
    ensures SchedRun(k).x.mem == k.x.mem
  {
  }

  /** Memory after a message went to a thread that waits for it. */
  lemma DeliverMem(k: K, t: Pid, m: Msg)
    requires t in k.thr
    ensures Deliver(k, t, m).x.mem == CopyOut(k, k.thr[t].wait, m).x.mem
  {
  }

  lemma SendMem(k: K, buf: Addr, target: Pid, block: bool, m: Msg)
    requires m == Read(k.x.mem, buf)
    ensures SendStamped(k, buf, target, block).x.mem == if Awaits(k, target) then CopyOut(k, k.thr[target].wait, m).x.mem else k.x.mem
  {
    if target in k.thr {
      if Awaits(k, target) {
        DeliverMem(k, target, m);
      } else if HasRoom(k.thr[target]) {
        QueuedLogs(k, target, m);
      } else if block {
        WaitingLogs(k, buf, target, m);
      }
    }
  }

  /** What is used of the invariant about a thread that waits for a message or a reply. */
  predicate Receptive(k: K, t: Pid) {
    Awaits(k, t) || AwaitsReply(k, t) ==> Awaited(k, t).Some? && k.thr[t].wait == Buffer(Awaited(k, t).value)
  }

  lemma Waiter(k: K, t: Pid)
    requires Inv(k)
    ensures Receptive(k, t) && (Awaits(k, t) || AwaitsReply(k, t) ==> Awaited(k, t).value.owner == t)
  {
    if t in k.thr { assert Agree(t, k.thr[t]); }
  }

  lemma SendHolding(k: K, buf: Addr, target: Pid, block: bool, a: Addr)
    requires Receptive(k, target) && target != k.s.active && (Awaits(k, target) ==> Awaited(k, target) != Some(buf))
    ensures Holding(k, Mailing(CallSend(buf, target, block)), Send(k, buf, target, block), a)
  {
    var st, m := Mailing(CallSend(buf, target, block)), Stamped(Read(k.x.mem, buf), k.s.active);
    SendMem(Stamp(k, buf), buf, target, block, m);
    if Awaits(k, target) { assert HandedOver(k, st) == Some(Letter(k.s.active, target, m)) && Supplies(k, st, Awaited(k, target).value, m); }
  }

  lemma SelfHolding(k: K, buf: Addr, block: bool, a: Addr)
    ensures Holding(k, Mailing(CallSend(buf, k.s.active, block)), Send(k, buf, k.s.active, block), a)
  {
    QueuedLogs(Stamp(k, buf), k.s.active, Read(Stamp(k, buf).x.mem, buf));
  }

  /** Memory after a request: it is copied to the reply buffer, and from there to a target
      that waits for it. */
  lemma RequestMem(k: K, m: Msg, buf: Addr, target: Pid)
    requires target != k.s.active && target in k.thr
    ensures var mem := k.x.mem[buf := m][buf := Stamped(m, k.s.active)];
      SendReceive(k, m, buf, target).x.mem ==
        if Awaits(k, target) && k.thr[target].wait.Buffer? then mem[k.thr[target].wait.addr := Stamped(m, k.s.active)] else mem
  {
    var k2 := Stamp(AwaitReply(k, m, buf, target), buf);
    assert k2.thr[target] == k.thr[target] && k2.x.mem == k.x.mem[buf := m][buf := Stamped(m, k.s.active)];
    SendMem(k2, buf, target, true, Stamped(m, k.s.active));
  }

  lemma RequestHolding(k: K, m: Msg, buf: Addr, target: Pid, a: Addr)
    requires Receptive(k, target) && target != k.s.active && target in k.thr && (Awaits(k, target) ==> Awaited(k, target) != Some(buf))
    ensures Holding(k, Mailing(CallSendReceive(m, buf, target)), SendReceive(k, m, buf, target), a)
  {
    var st, m' := Mailing(CallSendReceive(m, buf, target)), Stamped(m, k.s.active);
    RequestMem(k, m, buf, target);
    if Awaits(k, target) { assert HandedOver(k, st) == Some(Letter(k.s.active, target, m')) && Supplies(k, st, Awaited(k, target).value, m'); }
  }

  lemma ReplyHolding(k: K, st: Step, t: Pid, m: Msg, a: Addr)
    requires Receptive(k, t) && Answers(st, t, m)
    ensures Holding(k, st, Reply(k, t, m), a) && Reply(k, t, m).x == ReplyInt(k, t, m).x
  {
    assert Supplies(k, st, a, m) <==> AwaitsReply(k, t) && Awaited(k, t) == Some(a);
  }

  lemma ReceiveMem(k: K, buf: Addr, block: bool)
    ensures Receive(k, buf, block).x.mem == if Found(k).Some? then k.x.mem[buf := Found(k).value] else k.x.mem
  {
    if Me(k).inbox != [] && List(k.w.lists, MsgWaiters(k.s.active)) != [] { RefillMem(TakeQueued(k, buf)); }
  }

  lemma RefillMem(k: K)
    requires List(k.w.lists, MsgWaiters(k.s.active)) != []
    ensures Refill(k).x.mem == k.x.mem
  {
  }

  lemma SendIntHolding(k: K, m: Msg, target: Pid, a: Addr)
    requires Receptive(k, target)
    ensures Holding(k, Irq(IrqSend(m, target)), SendInt(k, m, target), a)
  {
    var st, m' := Irq(IrqSend(m, target)), Stamped(m, PID_ISR);
    if target in k.thr {
      if Awaits(k, target) {
        DeliverMem(k, target, m');
        assert HandedOver(k, st) == Some(Letter(PID_ISR, target, m')) && Supplies(k, st, Awaited(k, target).value, m');
      } else if HasRoom(k.thr[target]) {
        QueuedLogs(k, target, m');
      }
    }
  }

  lemma MailHolding(k: K, c: MailCall, a: Addr)
    requires CanCall(k) && LegalMail(k, c)
    ensures Holding(k, Mailing(c), NextMail(k, c), a)
  {
    match c
    case CallSend(buf, target, block) =>
      Waiter(k, target);
      if target == k.s.active { SelfHolding(k, buf, block, a); } else { SendHolding(k, buf, target, block, a); }
    case CallSendReceive(m, buf, target) => Waiter(k, target); RequestHolding(k, m, buf, target, a);
    case CallReply(t, m) => Waiter(k, t); ReplyHolding(k, Mailing(c), t, m, a);
    case CallReceive(buf, block) => ReceiveMem(k, buf, block);
    case _ =>
  }

  lemma HandlerHolding(k: K, h: Handler, a: Addr)
    requires Inv(k)
    ensures Holding(k, Irq(h), IsrEnd(Handle(k, h)), a)
  {
    match h
    case IrqSignal(c, broadcast) => SignalMem(k, c, broadcast);
    case IrqSend(m, target) => Waiter(k, target); SendIntHolding(k, m, target, a);
    case IrqReply(t, m) => Waiter(k, t); ReplyHolding(k, Irq(h), t, m, a);
    case _ => PlainIrqMem(k, h);
  }

  lemma PlainIrqMem(k: K, h: Handler)
    requires !h.IrqSignal? && !h.IrqSend? && !h.IrqReply?
    ensures Handle(k, h).x.mem == k.x.mem
  {
  }

  /** Every legal step leaves in every buffer what it hands over there, what the buffer's
      owner writes there, and else what was there. */
  lemma StepHolding(k: K, st: Step, a: Addr)
    requires Inv(k) && Legal(k, st)
    ensures Holding(k, st, Next(k, st), a)
  {
    match st
    case Schedule => RunMem(k);
    case Sync(c) => SyncMem(k, c);
    case Mailing(c) => MailHolding(k, c, a);
    case Go(g) => GoMem(k, g);
    case Irq(h) => HandlerHolding(k, h, a);
  }
}
