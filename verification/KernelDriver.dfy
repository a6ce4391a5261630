/** The object and the step machine run in step: every call that the machine allows may
    be made on the object, and leads it to the machine's next state. */
module KernelDriver {
  import opened KernelTypes
  import opened KernelSpec
  import KernelStruct
  import opened KernelInv
  import opened KernelSteps
  import opened KernelMail
  import opened KernelRuns
  import opened KernelObject
  import Bits
  import Cib

  /** msg_init_queue gets a size that cib can handle: 0 or a power of two, up to 2^30. */
  ghost predicate Soundly(a: Step) {
    a.Mailing? && a.mc.CallInitQueue? ==> Cib.Sound(a.mc.n)
  }

  predicate OnThreads(a: SyncCall) {
    a.CallYield? || a.CallSleep? || a.CallWakeup? || a.CallCreate? || a.CallExit?
  }

  predicate OnMutex(a: SyncCall) {
    a.CallLock? || a.CallTryLock? || a.CallUnlock? || a.CallUnlockAndSleep?
  }

  method DoThreads(o: Kernel, a: SyncCall)
    requires o.Valid() && Inv(o.k) && Legal(o.k, Sync(a)) && OnThreads(a)
    modifies o, o.links, o.links.next, o.links.tails, o.mail, o.mail.repr
    ensures fresh(o.mail.repr - old(o.mail.repr))
    ensures o.Valid() && o.k == NextSync(old(o.k), a)
  {
    InvFacts(o.k);
    match a {
      case CallYield => o.Yield();
      case CallSleep => o.Sleep();
      case CallWakeup(t) => var _ := o.Wakeup(t);
      case CallCreate(prio, asleep, noYield, flags) => var _ := o.Create(prio, asleep, noYield, flags);
      case CallExit => o.Exit();
    }
  }

  method DoMutex(o: Kernel, a: SyncCall)
    requires o.Valid() && Inv(o.k) && Legal(o.k, Sync(a)) && OnMutex(a)
    modifies o, o.links, o.links.next, o.links.tails, o.mail, o.mail.repr
    ensures fresh(o.mail.repr - old(o.mail.repr))
    ensures o.Valid() && o.k == NextSync(old(o.k), a)
  {
    InvFacts(o.k);
    match a {
      case CallLock(m) => var _ := o.Lock(m, true);
      case CallTryLock(m) => var _ := o.Lock(m, false);
      case CallUnlock(m) => o.Unlock(m);
      case CallUnlockAndSleep(m) => o.UnlockAndSleep(m);
    }
  }

  method DoWaiting(o: Kernel, a: SyncCall)
    requires o.Valid() && Inv(o.k) && Legal(o.k, Sync(a)) && !OnThreads(a) && !OnMutex(a)
    modifies o, o.links, o.links.next, o.links.tails, o.mail, o.mail.repr
    ensures fresh(o.mail.repr - old(o.mail.repr))
    ensures o.Valid() && o.k == NextSync(old(o.k), a)
  {
    InvFacts(o.k);
    match a {
      case CallCondWait(c, m) => o.CondWait(c, m);
      case CallSignal(c, broadcast) => o.Signal(c, broadcast);
      case CallFlagsSet(t, mask) => o.FlagsSet(t, mask);
      case CallFlagsClear(mask) => o.FlagsClear(mask);
      case CallFlagsWait(mask, kind) => o.FlagsWait(mask, kind);
    }
  }

  method DoSync(o: Kernel, a: SyncCall)
    requires o.Valid() && Inv(o.k) && Legal(o.k, Sync(a))
    modifies o, o.links, o.links.next, o.links.tails, o.mail, o.mail.repr
    ensures fresh(o.mail.repr - old(o.mail.repr))
    ensures o.Valid() && o.k == NextSync(old(o.k), a)
  {
    if OnThreads(a) {
      DoThreads(o, a);
    } else if OnMutex(a) {
      DoMutex(o, a);
    } else {
      DoWaiting(o, a);
    }
  }

  predicate OnTarget(a: MailCall) {
    a.CallSend? || a.CallSendReceive? || a.CallReply?
  }

  method DoSending(o: Kernel, a: MailCall)
    requires o.Valid() && Inv(o.k) && Legal(o.k, Mailing(a)) && OnTarget(a)
    modifies o, o.links, o.links.next, o.links.tails, o.mail, o.mail.repr
    ensures fresh(o.mail.repr - old(o.mail.repr))
    ensures o.Valid() && o.k == NextMail(old(o.k), a)
  {
    InvFacts(o.k);
    match a {
      case CallSend(buf, target, block) => var _ := o.Send(buf, target, block);
      case CallSendReceive(m, buf, target) => var _ := o.SendReceive(m, buf, target);
      case CallReply(t, m) => var _ := o.Reply(t, m);
    }
  }

  method DoMail(o: Kernel, a: MailCall)
    requires o.Valid() && Inv(o.k) && Legal(o.k, Mailing(a)) && Soundly(Mailing(a))
    modifies o, o.links, o.links.next, o.links.tails, o.mail, o.mail.repr
    ensures fresh(o.mail.repr - old(o.mail.repr))
    ensures o.Valid() && o.k == NextMail(old(o.k), a)
  {
    if OnTarget(a) {
      DoSending(o, a);
      return;
    }
    InvFacts(o.k);
    match a {
      case CallStore(a, m) => o.WriteMem(a, m);
      case CallReceive(buf, block) =>
        ActiveFacts(o.k);
        var _ := o.Receive(buf, block);
      case CallInitQueue(n) => o.InitQueue(n);
    }
  }

  method DoResume(o: Kernel, a: Resume)
    requires o.Valid() && Inv(o.k) && Legal(o.k, Go(a))
    modifies o, o.links, o.links.next, o.links.tails, o.mail, o.mail.repr
    ensures fresh(o.mail.repr - old(o.mail.repr))
    ensures o.Valid() && o.k == NextGo(old(o.k), a)
  {
    InvFacts(o.k);
    match a {
      case GoRelock => o.Relock();
      case GoFlagsPick => o.FlagsPick();
      case GoFlagsTake => var _ := o.FlagsTake();
      case GoReturn => o.Return();
    }
  }

  method DoHandler(o: Kernel, a: Handler)
    requires o.Valid() && Inv(o.k) && Legal(o.k, Irq(a))
    modifies o, o.links, o.links.next, o.links.tails, o.mail, o.mail.repr
    ensures fresh(o.mail.repr - old(o.mail.repr))
    ensures o.Valid() && o.k == IsrEnd(Handle(old(o.k), a))
  {
    InvFacts(o.k);
    match a {
      case IrqNothing =>
      case IrqWakeup(t) => var _ := o.Wakeup(t);
      case IrqSignal(c, broadcast) => o.Signal(c, broadcast);
      case IrqFlagsSet(t, mask) => o.FlagsSet(t, mask);
      case IrqSend(m, target) =>
        assert target in o.k.thr ==> Agree(target, o.k.thr[target]);
        var _ := o.SendInt(m, target);
      case IrqReply(t, m) => var _ := o.ReplyInt(t, m);
    }
    o.IsrEnd();
  }

  /** One step of the object is one step of the machine, and it keeps the invariant. */
  method Do(o: Kernel, a: Step)
    requires o.Valid() && Inv(o.k) && Legal(o.k, a) && Soundly(a)
    modifies o, o.links, o.links.next, o.links.tails, o.mail, o.mail.repr
    ensures fresh(o.mail.repr - old(o.mail.repr))
    ensures o.Valid() && Inv(o.k) && o.k == Next(old(o.k), a)
  {
    StepKeeps(o.k, a);
    match a {
      case Schedule => o.Run();
      case Sync(c) => DoSync(o, c);
      case Mailing(c) => DoMail(o, c);
      case Go(c) => DoResume(o, c);
      case Irq(c) => DoHandler(o, c);
    }
  }

  /** kernel_init */
  method Init(b: Setup) returns (o: Kernel)
    ensures o.Valid() && Inv(o.k) && o.k == Boot(b.flagsOn, b.f1, b.f2)
    ensures fresh(o) && fresh(o.links) && fresh(o.links.next) && fresh(o.links.tails) && fresh(o.mail) && fresh(o.mail.repr)
  {
    o := new Kernel(b.flagsOn, b.f1, b.f2);
    BootReady(b);
    BootInv(b.flagsOn, b.f1, b.f2);
    o.Run();
  }

  /** A whole legal run, from kernel_init on. */
  method RunAll(b: Setup, steps: seq<Step>) returns (o: Kernel)
    requires LegalRun(b, steps) && forall i :: 0 <= i < |steps| ==> Soundly(steps[i])
    ensures o.Valid() && Inv(o.k) && o.k == After(b, steps)
    ensures fresh(o) && fresh(o.links) && fresh(o.links.next) && fresh(o.links.tails) && fresh(o.mail) && fresh(o.mail.repr)
    decreases |steps|
  {
    if steps == [] {
      o := Init(b);
    } else {
      var n := |steps| - 1;
      o := RunAll(b, steps[..n]);
      Do(o, steps[n]);
    }
  }

  lemma BootReady(b: Setup)
    ensures KernelStruct.Base(CreateBoth(b.flagsOn, b.f1, b.f2))
  {
    BootTables(b.flagsOn, b.f1, b.f2);
    BootBase(CreateBoth(b.flagsOn, b.f1, b.f2), b.f1, b.f2);
  }

  /** Bit p of the object's cache says whether a thread of priority p is runnable. */
  lemma CacheMeans(o: Kernel, p: nat)
    requires o.Valid() && KernelStruct.Base(o.k)
    ensures Bits.Bit(o.links.cache, p) <==> exists t :: t in o.thr && o.thr[t].prio == p && OnRq(o.thr[t].status)
  {
    assert Opened(0) && Asked(0);
    MirrorsRq(o.k, o.links.rq, o.links.lists, o.links.marked, o.links.home);
    assert Rq(o.k.s.rq, p) == Rq(o.links.rq, p);
    assert Bits.Bit(o.links.cache, p) <==> Rq(o.links.rq, p) != [];
    RunnableIff(o.k, p);
  }

  lemma RunnableIff(k: K, p: nat)
    requires KernelStruct.Queues(k.thr, k.s.rq)
    ensures Rq(k.s.rq, p) != [] <==> exists t :: t in k.thr && k.thr[t].prio == p && OnRq(k.thr[t].status)
  {
    if Rq(k.s.rq, p) != [] { HeadFacts(k, p); }
    forall t | t in k.thr && k.thr[t].prio == p && OnRq(k.thr[t].status) ensures Rq(k.s.rq, p) != [] {
      assert t in Rq(k.s.rq, p);
    }
  }
}
