/** Strict priority: exactly which steps leave a better thread waiting, and that it holds
    in every state of every legal run unless such a step came after the last switch. */
module KernelPriority {
  import opened KernelTypes
  import opened KernelSpec
  import opened KernelStruct
  import opened KernelInv
  import opened KernelSteps
  import opened KernelThreads
  import opened KernelMail
  import opened KernelReceive
  import opened KernelRuns
  import opened KernelTheorems

  // ---------------------------------------------------------------- the steps that skip a yield

  /** THREAD_CREATE_WOUT_YIELD for a new thread that is awake and of better priority. */
  predicate CreateSkips(k: K, prio: nat, asleep: bool, noYield: bool) {
    noYield && !asleep && FreePid(k.thr, PID_FIRST) != 0 && prio < Me(k).prio && prio < PRIO_LEVELS
  }

  /** The target waits for flags, and queueing a message gives it what it lacks. */
  predicate WokenByMessage(k: K, target: Pid) {
    && k.flagsOn && target in k.thr && HasRoom(k.thr[target])
    && FlagsReady(k.thr[target].(flags := k.thr[target].flags + MSG_WAITING))
  }

  /** msg_send or msg_try_send that queues for a better thread which the flag wakes. */
  predicate SendSkips(k: K, target: Pid) {
    target != k.s.active && WokenByMessage(k, target) && k.thr[target].prio < Me(k).prio
  }

  /** What the caller can tell before the call: it will leave a better thread waiting. */
  predicate Skips(k: K, a: Step) {
    match a
    case Sync(CallCreate(prio, asleep, noYield, _)) => CreateSkips(k, prio, asleep, noYield)
    case Mailing(CallSend(_, target, _)) => SendSkips(k, target)
    case _ => false
  }

  /** The steps that contain a scheduler run. */
  predicate Switches(a: Step) {
    a.Schedule? || (a.Sync? && a.sc.CallExit?)
  }

  // ---------------------------------------------------------------- what each step does to the mark

  predicate SameLax(k: K, k': K) {
    k'.s.lax == k.s.lax && k'.flagsOn == k.flagsOn
  }

  lemma ReleaseLax(k: K, m: MutexId)
    ensures SameLax(k, Release(k, m)) && SameLax(k, Unlock(k, m)) && SameLax(k, UnlockAndSleep(k, m))
  {
  }

  lemma CondWaitLax(k: K, c: CondId, m: MutexId)
    ensures SameLax(k, CondWait(k, c, m))
  {
    ReleaseLax(k, m);
  }

  lemma {:induction false} WakeAllLax(k: K, c: CondId)
    ensures SameLax(k, WakeAll(k, c))
    decreases |List(k.w.lists, CondQ(c))|
  {
    if List(k.w.lists, CondQ(c)) != [] {
      WakeAllLax(WakeHead(k, CondQ(c)), c);
    }
  }

  lemma SignalLax(k: K, c: CondId, broadcast: bool)
    ensures SameLax(k, Signal(k, c, broadcast))
  {
    WakeAllLax(k, c);
  }

  lemma SchedRunLax(k: K)
    ensures !SchedRun(k).s.lax && SchedRun(k).flagsOn == k.flagsOn
  {
  }

  lemma CreateLax(k: K, prio: nat, asleep: bool, noYield: bool, flags: Flags)
    requires k.s.active in k.thr
    ensures Create(k, prio, asleep, noYield, flags).flagsOn == k.flagsOn
    ensures Create(k, prio, asleep, noYield, flags).s.lax <==> k.s.lax || CreateSkips(k, prio, asleep, noYield)
  {
  }

  lemma SyncLax(k: K, a: SyncCall)
    requires k.s.active in k.thr
    ensures NextSync(k, a).flagsOn == k.flagsOn
    ensures NextSync(k, a).s.lax <==> !Switches(Sync(a)) && (k.s.lax || Skips(k, Sync(a)))
  {
    match a
    case CallCreate(prio, asleep, noYield, flags) => CreateLax(k, prio, asleep, noYield, flags);
    case CallExit => ExitLax(k);
    case CallUnlock(m) => ReleaseLax(k, m);
    case CallUnlockAndSleep(m) => ReleaseLax(k, m);
    case CallCondWait(c, m) => CondWaitLax(k, c, m);
    case CallSignal(c, broadcast) => SignalLax(k, c, broadcast);
    case _ => PlainLax(k, a);
  }

  lemma ExitLax(k: K)
    ensures !Exit(k).s.lax && Exit(k).flagsOn == k.flagsOn
  {
  }

  /** The calls that are not treated above. */
  lemma PlainLax(k: K, a: SyncCall)
    requires !a.CallCreate? && !a.CallExit? && !a.CallUnlock? && !a.CallUnlockAndSleep? && !a.CallCondWait? && !a.CallSignal?
    ensures SameLax(k, NextSync(k, a))
  {
  }

  lemma RaiseLax(k: K, t: Pid)
    ensures SameLax(k, RaiseMsgFlag(k, t))
  {
  }

  lemma WaitingLax(k: K, buf: Addr, target: Pid, m: Msg)
    ensures SameLax(k, SendWaiting(k, buf, target, m)) && SameLax(k, Pend(Deliver(k, target, m)))
  {
  }

  lemma QueuedLax(k: K, target: Pid, m: Msg)
    requires target in k.thr && k.s.active in k.thr && HasRoom(k.thr[target])
    requires Agree(target, k.thr[target])
    ensures SendQueued(k, target, m).flagsOn == k.flagsOn
    ensures SendQueued(k, target, m).s.lax <==>
      k.s.lax || (!Me(k).status.ReplyBlocked? && WokenByMessage(k, target) && k.thr[target].prio < Me(k).prio)
  {
    var k1 := QueueMsg(k, target, m);
    RaiseLax(LogSent(Put(k, target, k.thr[target].(inbox := k.thr[target].inbox + [m])), m.sender, target, m), target);
    assert OnRq(Th(k1.thr, target).status) && !OnRq(k.thr[target].status) <==> WokenByMessage(k, target);
  }

  lemma SendLax(k: K, buf: Addr, target: Pid, block: bool)
    requires CanCall(k)
    ensures Send(k, buf, target, block).flagsOn == k.flagsOn
    ensures Send(k, buf, target, block).s.lax <==> k.s.lax || SendSkips(k, target)
  {
    ActiveFacts(k);
    var k1 := Stamp(k, buf);
    if target == k.s.active {
      RaiseLax(LogSent(Put(k1, target, Me(k1).(inbox := Me(k1).inbox + [Read(k1.x.mem, buf)])),
                       Read(k1.x.mem, buf).sender, target, Read(k1.x.mem, buf)), target);
    } else if target in k.thr {
      OwnFacts(k, target);
      WaitingLax(k1, buf, target, Read(k1.x.mem, buf));
      if HasRoom(k.thr[target]) { QueuedLax(k1, target, Read(k1.x.mem, buf)); }
    }
  }

  lemma SendReceiveLax(k: K, m: Msg, reply: Addr, target: Pid)
    requires CanCall(k) && reply.owner == k.s.active && target in k.thr && target != k.s.active
    ensures SameLax(k, SendReceive(k, m, reply, target))
  {
    AwaitReplyKeeps(k, m, reply, target);
    var k1 := Stamp(AwaitReply(k, m, reply, target), reply);
    assert SameLax(k, k1);
    OwnFacts(k, target);
    WaitingLax(k1, reply, target, Read(k1.x.mem, reply));
    if HasRoom(k1.thr[target]) { QueuedLax(k1, target, Read(k1.x.mem, reply)); }
  }

  lemma RefillLax(k: K)
    requires List(k.w.lists, MsgWaiters(k.s.active)) != []
    ensures SameLax(k, Refill(k))
  {
  }

  lemma ReceiveLax(k: K, buf: Addr, block: bool)
    ensures SameLax(k, Receive(k, buf, block))
  {
    if Me(k).inbox != [] && List(k.w.lists, MsgWaiters(k.s.active)) != [] { RefillLax(TakeQueued(k, buf)); }
  }

  lemma MailLax(k: K, a: MailCall)
    requires CanCall(k) && LegalMail(k, a)
    ensures NextMail(k, a).flagsOn == k.flagsOn
    ensures NextMail(k, a).s.lax <==> k.s.lax || Skips(k, Mailing(a))
  {
    match a
    case CallSend(buf, target, block) => SendLax(k, buf, target, block);
    case CallSendReceive(m, buf, target) => SendReceiveLax(k, m, buf, target);
    case CallReceive(buf, block) => ReceiveLax(k, buf, block);
    case _ =>
  }

  lemma IrqLax(k: K, a: Handler)
    ensures SameLax(k, IsrEnd(Handle(k, a)))
  {
    match a
    case IrqSignal(c, broadcast) => SignalLax(k, c, broadcast);
    case _ =>
  }

  lemma GoLax(k: K, a: Resume)
    ensures SameLax(k, NextGo(k, a))
  {
  }

  /** A step leaves the kernel lax exactly if it skips a yield or did not undo an earlier
      one by switching. */
  lemma StepLaxExactly(k: K, a: Step)
    requires Inv(k) && Legal(k, a)
    ensures Next(k, a).flagsOn == k.flagsOn
    ensures Next(k, a).s.lax <==> !Switches(a) && (k.s.lax || Skips(k, a))
  {
    match a
    case Schedule => SchedRunLax(k);
    case Sync(c) => SyncLax(k, c);
    case Mailing(c) => MailLax(k, c);
    case Go(c) => GoLax(k, c);
    case Irq(c) => IrqLax(k, c);
  }

  // ---------------------------------------------------------------- whole runs

  /** For each step of a run, whether it skipped a yield. */
  ghost function SkipMarks(b: Setup, steps: seq<Step>): (marks: seq<bool>)
    ensures |marks| == |steps|
  {
    if steps == [] then []
    else var n := |steps| - 1; SkipMarks(b, steps[..n]) + [Skips(After(b, steps[..n]), steps[n])]
  }

  lemma {:induction false} MarksMean(b: Setup, steps: seq<Step>, i: nat)
    requires i < |steps|
    ensures SkipMarks(b, steps)[i] <==> Skips(After(b, steps[..i]), steps[i])
    decreases |steps|
  {
    var n := |steps| - 1;
    if i < n {
      MarksMean(b, steps[..n], i);
      assert steps[..n][..i] == steps[..i];
    }
  }

  /** No step from i on has switched. */
  predicate Unswitched(steps: seq<Step>, i: int) {
    forall j :: i <= j < |steps| && 0 <= j ==> !Switches(steps[j])
  }

  /** Some marked step, and no step since then has switched. */
  predicate LeftBy(marks: seq<bool>, steps: seq<Step>) {
    exists i :: 0 <= i < |marks| && marks[i] && Unswitched(steps, i + 1)
  }

  /** Some step skipped a yield, and no step since then has switched. */
  ghost predicate LeftWaiting(b: Setup, steps: seq<Step>) {
    LeftBy(SkipMarks(b, steps), steps)
  }

  lemma BootLax(b: Setup)
    ensures !Boot(b.flagsOn, b.f1, b.f2).s.lax && Boot(b.flagsOn, b.f1, b.f2).flagsOn == b.flagsOn
  {
    SchedRunLax(CreateBoth(b.flagsOn, b.f1, b.f2));
  }

  lemma UnswitchedStep(steps: seq<Step>, n: nat, i: int)
    requires n == |steps| - 1 && i <= n
    ensures Unswitched(steps, i) <==> Unswitched(steps[..n], i) && !Switches(steps[n])
  {
    forall j | 0 <= j < n ensures steps[..n][j] == steps[j] {
    }
  }

  lemma LeftStep(marks: seq<bool>, steps: seq<Step>, n: nat, last: bool)
    requires n == |steps| - 1 == |marks| && (last ==> !Switches(steps[n]))
    ensures LeftBy(marks + [last], steps) <==> !Switches(steps[n]) && (LeftBy(marks, steps[..n]) || last)
  {
    var marks' := marks + [last];
    if LeftBy(marks', steps) {
      var i :| 0 <= i < |marks'| && marks'[i] && Unswitched(steps, i + 1);
      if i < n {
        UnswitchedStep(steps, n, i + 1);
        assert marks[i];
      }
    }
    if !Switches(steps[n]) && LeftBy(marks, steps[..n]) {
      var i :| 0 <= i < |marks| && marks[i] && Unswitched(steps[..n], i + 1);
      UnswitchedStep(steps, n, i + 1);
      assert marks'[i];
    }
    if last {
      assert marks'[n] && Unswitched(steps, n + 1);
    }
  }

  lemma {:induction false} RunLaxExactly(b: Setup, steps: seq<Step>)
    requires LegalRun(b, steps)
    ensures After(b, steps).s.lax <==> LeftWaiting(b, steps)
    ensures After(b, steps).flagsOn == b.flagsOn
  {
    if steps == [] {
      BootLax(b);
    } else {
      var n := |steps| - 1;
      RunInv(b, steps[..n]);
      RunLaxExactly(b, steps[..n]);
      StepLaxExactly(After(b, steps[..n]), steps[n]);
      LeftStep(SkipMarks(b, steps[..n]), steps, n, Skips(After(b, steps[..n]), steps[n]));
    }
  }

  /** In every state of every legal run in which no yield is pending: no runnable thread
      has a better priority than the active one, if and only if no step skipped a yield
      since the last switch. */
  lemma StrictExactly(b: Setup, steps: seq<Step>)
    requires LegalRun(b, steps) && !After(b, steps).s.pend
    ensures StrictPriority(After(b, steps)) <==> !LeftWaiting(b, steps)
  {
    RunInv(b, steps);
    RunLaxExactly(b, steps);
    PriorityIffNotLax(After(b, steps));
  }

  /** In particular, runs without thread flags and without THREAD_CREATE_WOUT_YIELD. */
  lemma RunsAreStrict(b: Setup, steps: seq<Step>)
    requires LegalRun(b, steps) && !After(b, steps).s.pend && !b.flagsOn
    requires forall i :: 0 <= i < |steps| ==> !(steps[i].Sync? && steps[i].sc.CallCreate? && steps[i].sc.noYield)
    ensures StrictPriority(After(b, steps))
  {
    StrictExactly(b, steps);
    forall i | 0 <= i < |steps| ensures !SkipMarks(b, steps)[i] {
      MarksMean(b, steps, i);
      LegalPrefix(b, steps, i);
      RunLaxExactly(b, steps[..i]);
    }
  }

  lemma {:induction false} LegalPrefix(b: Setup, steps: seq<Step>, i: nat)
    requires LegalRun(b, steps) && i <= |steps|
    ensures LegalRun(b, steps[..i])
    decreases |steps|
  {
    if i < |steps| {
      var n := |steps| - 1;
      LegalPrefix(b, steps[..n], i);
      assert steps[..n][..i] == steps[..i];
    } else {
      assert steps[..i] == steps;
    }
  }
}
