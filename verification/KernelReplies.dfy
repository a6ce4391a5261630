/** Step by step: what can end the wait of msg_send_receive. */
module KernelReplies {
  import opened KernelTypes
  import opened KernelSpec
  import opened KernelStruct
  import opened KernelInv
  import opened KernelSteps
  import opened KernelThreads
  import opened KernelMail
  import opened KernelRuns

  /** A step that leaves the call of thread t as it was. */
  predicate SameCall(k: K, k': K, t: Pid) {
    t in k'.thr && k'.thr[t].call == Th(k.thr, t).call
  }

  lemma {:induction false} WakeAllCall(k: K, c: CondId, t: Pid)
    requires t in k.thr
    ensures SameCall(k, WakeAll(k, c), t)
    decreases |List(k.w.lists, CondQ(c))|
  {
    if List(k.w.lists, CondQ(c)) != [] {
      WakeAllCall(WakeHead(k, CondQ(c)), c, t);
    }
  }

  lemma SignalCall(k: K, c: CondId, broadcast: bool, t: Pid)
    requires t in k.thr
    ensures SameCall(k, Signal(k, c, broadcast), t)
  {
    WakeAllCall(k, c, t);
  }

  lemma CondWaitCall(k: K, c: CondId, m: MutexId, t: Pid)
    requires t in k.thr && t != k.s.active
    ensures SameCall(k, CondWait(k, c, m), t)
  {
    ReleaseCall(k, m, t);
  }

  lemma ReleaseCall(k: K, m: MutexId, t: Pid)
    requires t in k.thr && t != k.s.active
    ensures SameCall(k, Release(k, m), t) && SameCall(k, Unlock(k, m), t) && SameCall(k, UnlockAndSleep(k, m), t)
    ensures Unlock(k, m).s.active == k.s.active
  {
    HandOffCall(k, m, t);
    SleepCall(Release(k, m), t);
  }

  lemma HandOffCall(k: K, m: MutexId, t: Pid)
    requires t in k.thr && t != k.s.active
    ensures SameCall(k, Release(k, m), t) && Release(k, m).s.active == k.s.active
  {
  }

  lemma SleepCall(k: K, t: Pid)
    requires t in k.thr && t != k.s.active
    ensures SameCall(k, Sleep(k), t)
  {
  }

  lemma SchedRunCall(k: K, t: Pid)
    requires t in k.thr
    ensures SameCall(k, SchedRun(k), t)
  {
  }

  lemma SyncCallKept(k: K, a: SyncCall, t: Pid)
    requires t in k.thr && t != k.s.active
    ensures SameCall(k, NextSync(k, a), t)
  {
    match a
    case CallExit => ExitCall(k, t);
    case CallUnlock(m) => ReleaseCall(k, m, t);
    case CallUnlockAndSleep(m) => ReleaseCall(k, m, t);
    case CallCondWait(c, m) => CondWaitCall(k, c, m, t);
    case CallSignal(c, broadcast) => SignalCall(k, c, broadcast, t);
    case _ => PlainCall(k, a, t);
  }

  lemma ExitCall(k: K, t: Pid)
    requires t in k.thr && t != k.s.active
    ensures SameCall(k, Exit(k), t)
  {
    var k1 := SetStatus(k, k.s.active, Stopped);
    SchedRunCall(k1.(thr := k1.thr - {k.s.active},
                     x := k1.x.(sent := Forget(k1.x.sent, k.s.active), rcvd := Forget(k1.x.rcvd, k.s.active))), t);
  }

  lemma PlainCall(k: K, a: SyncCall, t: Pid)
    requires t in k.thr && t != k.s.active
    requires !a.CallExit? && !a.CallUnlock? && !a.CallUnlockAndSleep? && !a.CallCondWait? && !a.CallSignal?
    ensures SameCall(k, NextSync(k, a), t)
  {
  }

  lemma SendCallKept(k: K, buf: Addr, target: Pid, block: bool, t: Pid)
    requires t in k.thr && t != k.s.active && k.s.active in k.thr && !k.thr[t].status.ReceiveBlocked?
    ensures SameCall(k, SendStamped(k, buf, target, block), t)
  {
    var m := Read(k.x.mem, buf);
    if target in k.thr {
      if k.thr[target].status.ReceiveBlocked? {
        assert SameCall(k, Deliver(k, target, m), t);
      } else if HasRoom(k.thr[target]) {
        assert SameCall(k, QueueMsg(k, target, m), t);
      } else if block {
        WaitingCallKept(k, buf, target, m, t);
      }
    }
  }

  lemma WaitingCallKept(k: K, buf: Addr, target: Pid, m: Msg, t: Pid)
    requires t in k.thr && t != k.s.active
    ensures SameCall(k, SendWaiting(k, buf, target, m), t)
  {
  }

  lemma ReceiveCallKept(k: K, buf: Addr, block: bool, t: Pid)
    requires t in k.thr && t != k.s.active
    ensures SameCall(k, Receive(k, buf, block), t)
  {
    if List(k.w.lists, MsgWaiters(k.s.active)) != [] {
      if Me(k).inbox != [] {
        RefillCallKept(TakeQueued(k, buf), t);
      } else {
        TakeWaitingCallKept(k, buf, t);
      }
    }
  }

  lemma RefillCallKept(k: K, t: Pid)
    requires t in k.thr && List(k.w.lists, MsgWaiters(k.s.active)) != []
    ensures SameCall(k, Refill(k), t)
  {
  }

  lemma TakeWaitingCallKept(k: K, buf: Addr, t: Pid)
    requires t in k.thr && t != k.s.active && List(k.w.lists, MsgWaiters(k.s.active)) != []
    ensures SameCall(k, TakeWaiting(k, buf), t)
  {
  }

  lemma MailCallKept(k: K, a: MailCall, t: Pid)
    requires t in k.thr && t != k.s.active && k.s.active in k.thr && k.thr[t].status.ReplyBlocked?
    requires !(a.CallReply? && a.t == t)
    ensures SameCall(k, NextMail(k, a), t)
  {
    match a
    case CallSend(buf, target, block) => SendCallKept(Stamp(k, buf), buf, target, block, t);
    case CallSendReceive(m, buf, target) => SendCallKept(Stamp(AwaitReply(k, m, buf, target), buf), buf, target, true, t);
    case CallReceive(buf, block) => ReceiveCallKept(k, buf, block, t);
    case _ =>
  }

  lemma IrqCallKept(k: K, a: Handler, t: Pid)
    requires t in k.thr && k.thr[t].status.ReplyBlocked? && !(a.IrqReply? && a.t == t)
    ensures SameCall(k, IsrEnd(Handle(k, a)), t)
  {
    match a
    case IrqSignal(c, broadcast) => SignalCall(k, c, broadcast, t);
    case _ =>
  }

  /** The message a step replies to thread t with, if it is a reply to t. */
  function ReplyIn(a: Step, t: Pid): Option<Msg> {
    match a
    case Mailing(CallReply(u, m)) => if u == t then Some(m) else None
    case Irq(IrqReply(u, m)) => if u == t then Some(m) else None
    case _ => None
  }

  lemma ReplyFacts(k: K, a: Step, t: Pid)
    requires Inv(k) && Legal(k, a) && t in k.thr && k.thr[t].status.ReplyBlocked?
    ensures k.thr[t].call.InSendReceive? && k.thr[t].call.got == None && k.s.active in k.thr
    ensures a.Sync? || a.Mailing? || a.Go? ==> t != k.s.active
  {
    OwnFacts(k, t);
    if !k.s.pend { ActiveFacts(k); }
  }

  lemma UnansweredKept(k: K, a: Step, t: Pid)
    requires t in k.thr && k.thr[t].status.ReplyBlocked? && k.s.active in k.thr && ReplyIn(a, t) == None
    requires a.Sync? || a.Mailing? || a.Go? ==> t != k.s.active
    ensures SameCall(k, Next(k, a), t)
  {
    match a
    case Schedule => SchedRunCall(k, t);
    case Sync(c) => SyncCallKept(k, c, t);
    case Mailing(c) => MailCallKept(k, c, t);
    case Go(c) => GoCallKept(k, c, t);
    case Irq(c) => IrqCallKept(k, c, t);
  }

  lemma GoCallKept(k: K, a: Resume, t: Pid)
    requires t in k.thr && t != k.s.active
    ensures SameCall(k, NextGo(k, a), t)
  {
  }

  lemma AnswerArrives(k: K, a: Step, t: Pid)
    requires t in k.thr && k.thr[t].status.ReplyBlocked? && k.thr[t].call.InSendReceive? && ReplyIn(a, t).Some?
    ensures t in Next(k, a).thr && Next(k, a).thr[t].call == k.thr[t].call.(got := ReplyIn(a, t))
  {
  }

  /** A thread waiting in msg_send_receive stays in that wait through every step that
      is no reply to it, and a reply to it is what the call then returns. */
  lemma OnlyRepliesAnswer(k: K, a: Step, t: Pid)
    requires Inv(k) && Legal(k, a) && t in k.thr && k.thr[t].status.ReplyBlocked?
    ensures t in Next(k, a).thr && Next(k, a).thr[t].call == k.thr[t].call.(got := ReplyIn(a, t))
  {
    ReplyFacts(k, a, t);
    if ReplyIn(a, t) == None {
      UnansweredKept(k, a, t);
    } else {
      AnswerArrives(k, a, t);
    }
  }
}
