/** What a kernel call returns with, over every run: from the step that makes the call to
    the step with which its caller is back in user code. */
module KernelReturns {
  import opened KernelTypes
  import opened KernelSpec
  import opened KernelStruct
  import opened KernelInv
  import opened KernelSteps
  import opened KernelThreads
  import opened KernelMail
  import opened KernelRuns
  import opened KernelTheorems
  import opened KernelLogs
  import opened KernelReplies
  import opened KernelEffects
  import opened KernelOutcomes
  import opened KernelCalls
  import opened KernelPriority
  import KernelBuffers

  // ---------------------------------------------------------------- one step

  /** How step a may lead a thread t from call c to call d without ending the call: its
      arguments stay, and it is told of a message or a reply only as it comes. */
  ghost predicate GoesOn(k: K, a: Step, t: Pid, c: Call, d: Call) {
    d == c ||
    match c
    case InCond(_, m) => d == InLock(m)
    case InFlags(mask, kind) => kind == WaitOne && d.InFlagsPicked? && d.mask == mask
    case InReceive(buf, got) => got == None && Gets(k, a, t) && d == InReceive(buf, Some(HandedOver(k, a).value.m))
    case InSendReceive(buf, target, got) => got == None && ReplyIn(a, t).Some? && d == InSendReceive(buf, target, ReplyIn(a, t))
    case _ => false
  }

  /** No step changes what a call in progress was called with. */
  lemma CallGoesOn(k: K, a: Step, t: Pid)
    requires Inv(k) && Legal(k, a) && t in k.thr && k.thr[t].call != User
    ensures t in Next(k, a).thr
    ensures Next(k, a).thr[t].call == User ==> a.Go? && t == k.s.active
    ensures Next(k, a).thr[t].call != User ==> GoesOn(k, a, t, k.thr[t].call, Next(k, a).thr[t].call)
  {
    StepEvolves(k, a, t);
    assert Agree(t, k.thr[t]);
  }

  /** The step that ends a call is its caller's own, and hands it what it waited for: the
      mutex it was called with, or exactly the flags that then go. */
  lemma CallEnds(k: K, a: Step, t: Pid)
    requires Inv(k) && Legal(k, a) && t in k.thr && k.thr[t].call != User
    requires t in Next(k, a).thr && Next(k, a).thr[t].call == User
    ensures t == k.s.active && OnRq(k.thr[t].status) && Served(t, k.thr[t])
    ensures Next(k, a).x.mem == k.x.mem && Kept(k.x.mem, t, k.thr[t])
    ensures LocksMutex(k.thr[t].call) ==> Next(k, a).thr[t].has == k.thr[t].has + {k.thr[t].call.m}
    ensures Next(k, a).thr[t].flags == k.thr[t].flags - Returned(k.thr[t])
    ensures k.thr[t].call.InFlags? ==> k.thr[t].call.kind != WaitOne
  {
    CallGoesOn(k, a, t);
    StepEvolves(k, a, t);
    KernelBuffers.GoMem(k, a.g);
    ActiveFacts(k);
    assert Raised(k, a, t) == {};
  }

  /** The step gives a thread in call c what lets it go on. */
  ghost predicate Brings(k: K, a: Step, t: Pid, c: Call) {
    match c
    case InSleep => WakesUp(a, t)
    case InLock(m) => Gives(a) == Some(m)
    case InCond(c, _) => Signals(a, c, true) || Signals(a, c, false)
    case InSend(target) => a.Mailing? && a.mc.CallReceive? && k.s.active == target
    case InReceive(_, _) => Gets(k, a, t)
    case InSendReceive(_, _, _) => ReplyIn(a, t).Some?
    case InFlags(mask, _) => Raised(k, a, t) * mask != {}
    case _ => false
  }

  /** Only such a step makes a thread in a call runnable again. */
  lemma OnlyBringsWakes(k: K, a: Step, t: Pid)
    requires Inv(k) && Legal(k, a) && t in k.thr && k.thr[t].call != User && !OnRq(k.thr[t].status)
    requires t in Next(k, a).thr && OnRq(Next(k, a).thr[t].status)
    ensures Brings(k, a, t, k.thr[t].call)
  {
    StepEvolves(k, a, t);
    assert Agree(t, k.thr[t]);
    if k.thr[t].status.SendBlocked? { ListedAt(k, t); }
    if k.thr[t].call.InFlags? { FlagsBring(k.thr[t].flags, Raised(k, a, t), k.thr[t].call.mask); }
  }

  lemma FlagsBring(flags: Flags, more: Flags, mask: Flags)
    ensures more * mask == {} ==> (flags + more) * mask == flags * mask && (mask <= flags + more ==> mask <= flags)
  {
    assert forall b :: b in mask && b in more ==> b in more * mask;
  }

  lemma ListedAt(k: K, t: Pid)
    requires Inv(k) && First(k, MsgWaiters(k.s.active), t)
    ensures t in k.thr && k.thr[t].on == Some(MsgWaiters(k.s.active))
  {
    ListedThread(k.thr, k.w.lists, MsgWaiters(k.s.active), t);
  }

  // ---------------------------------------------------------------- from the call to its end

  /** Thread t is in a kernel call. */
  predicate Busy(b: Setup, steps: seq<Step>, t: Pid) {
    Th(After(b, steps).thr, t).call != User
  }

  /** Step i is a call that t makes. */
  predicate Makes(b: Setup, steps: seq<Step>, i: nat, t: Pid) {
    i < |steps| && (steps[i].Sync? || steps[i].Mailing?) && After(b, steps[..i]).s.active == t
  }

  /** In a legal run thread t made a call in step i, and has been busy with it after that
      step and after every step since. */
  ghost predicate Lasts(b: Setup, steps: seq<Step>, i: nat, t: Pid)
    decreases |steps|
  {
    && i < |steps| && LegalRun(b, steps) && Busy(b, steps, t)
    && if i + 1 == |steps| then Makes(b, steps, i, t) else Lasts(b, steps[..|steps| - 1], i, t)
  }

  /** In a legal run thread t made a call in step i, and with the last step is back from it
      for the first time. */
  ghost predicate Ends(b: Setup, steps: seq<Step>, i: nat, t: Pid) {
    && i < |steps| && LegalRun(b, steps) && !Busy(b, steps, t) && t in After(b, steps).thr
    && if i + 1 == |steps| then Makes(b, steps, i, t) else Lasts(b, steps[..|steps| - 1], i, t)
  }

  /** The last step of a legal run. */
  lemma LastStep(b: Setup, steps: seq<Step>)
    requires LegalRun(b, steps) && steps != []
    ensures var k, a := After(b, steps[..|steps| - 1]), steps[|steps| - 1]; Inv(k) && Legal(k, a) && After(b, steps) == Next(k, a)
  {
    RunInv(b, steps[..|steps| - 1]);
  }

  /** The calls that a call may become while it lasts. */
  predicate Suits(a: Step, d: Call) {
    match a
    case Sync(CallSleep) => d == InSleep
    case Sync(CallUnlockAndSleep(_)) => d == InSleep
    case Sync(CallLock(m)) => d == InLock(m)
    case Sync(CallCondWait(c, m)) => d == InCond(c, m) || d == InLock(m)
    case Sync(CallFlagsWait(mask, kind)) => d == InFlags(mask, kind) || (kind == WaitOne && d.InFlagsPicked? && d.mask == mask)
    case Mailing(CallSend(_, target, _)) => d == InSend(target)
    case Mailing(CallSendReceive(_, buf, target)) => d.InSendReceive? && d.buf == buf && d.target == target
    case Mailing(CallReceive(buf, _)) => d.InReceive? && d.buf == buf
    case _ => false
  }

  /** Where a call leads its caller at once. */
  lemma OwnStep(k: K, a: Step)
    requires Inv(k) && Legal(k, a) && (a.Sync? || a.Mailing?)
    ensures k.s.active in k.thr && Th(Next(k, a).thr, k.s.active).call == OwnCall(k, a)
    ensures !Quits(a) ==> k.s.active in Next(k, a).thr
  {
    assert k.s.active in k.thr;
    if Quits(a) { StepTable(k, a); } else { StepEvolves(k, a, k.s.active); }
  }

  lemma OwnSuits(k: K, a: Step)
    requires (a.Sync? || a.Mailing?) && OwnCall(k, a) != User
    ensures Suits(a, OwnCall(k, a)) && !Quits(a)
  {
  }

  lemma Continues(k: K, a: Step, t: Pid, first: Step)
    requires Inv(k) && Legal(k, a) && t in k.thr && k.thr[t].call != User && Suits(first, k.thr[t].call)
    requires t in Next(k, a).thr && Next(k, a).thr[t].call != User
    ensures Suits(first, Next(k, a).thr[t].call)
  {
    CallGoesOn(k, a, t);
  }

  /** In every run a call keeps the arguments of the step that made it, as long as it lasts. */
  lemma {:induction false} CallKeepsArguments(b: Setup, steps: seq<Step>, i: nat, t: Pid)
    requires Lasts(b, steps, i, t)
    ensures t in After(b, steps).thr && Suits(steps[i], After(b, steps).thr[t].call)
  {
    LastStep(b, steps);
    var pre := steps[..|steps| - 1];
    if i + 1 == |steps| {
      OwnStep(After(b, pre), steps[i]);
      OwnSuits(After(b, pre), steps[i]);
    } else {
      CallKeepsArguments(b, pre, i, t);
      Continues(After(b, pre), steps[|steps| - 1], t, steps[i]);
    }
  }

  // ---------------------------------------------------------------- what has to happen in between

  /** Step x of the run gives thread t what call c waits for. */
  ghost predicate BringsAt(b: Setup, steps: seq<Step>, x: nat, t: Pid, c: Call)
    requires x < |steps|
  {
    Brings(After(b, steps[..x]), steps[x], t, c)
  }

  ghost predicate Brought(b: Setup, steps: seq<Step>, i: nat, t: Pid, c: Call) {
    exists x :: i < x < |steps| && BringsAt(b, steps, x, t, c)
  }

  lemma BroughtBefore(b: Setup, steps: seq<Step>, i: nat, t: Pid, c: Call)
    requires steps != [] && Brought(b, steps[..|steps| - 1], i, t, c)
    ensures Brought(b, steps, i, t, c)
  {
    var pre := steps[..|steps| - 1];
    var x :| i < x < |pre| && BringsAt(b, pre, x, t, c);
    assert pre[..x] == steps[..x];
    assert BringsAt(b, steps, x, t, c);
  }

  /** A blocked thread is made runnable, or led on, by such a step only. */
  lemma OnlyBringsMoves(k: K, a: Step, t: Pid)
    requires Inv(k) && Legal(k, a) && t in k.thr && k.thr[t].call != User && !OnRq(k.thr[t].status)
    requires t in Next(k, a).thr && (OnRq(Next(k, a).thr[t].status) || Next(k, a).thr[t].call != k.thr[t].call)
    ensures Brings(k, a, t, k.thr[t].call)
  {
    if OnRq(Next(k, a).thr[t].status) {
      OnlyBringsWakes(k, a, t);
    } else {
      CallGoesOn(k, a, t);
      if a.Go? && t == k.s.active { ActiveFacts(k); } else { StepEvolves(k, a, t); }
    }
  }

  lemma LastStepMoves(b: Setup, steps: seq<Step>, t: Pid)
    requires LegalRun(b, steps) && steps != []
    requires var th, th' := Th(After(b, steps[..|steps| - 1]).thr, t), Th(After(b, steps).thr, t);
      && t in After(b, steps[..|steps| - 1]).thr && t in After(b, steps).thr
      && th.call != User && !OnRq(th.status) && (OnRq(th'.status) || th'.call != th.call)
    ensures var k := After(b, steps[..|steps| - 1]); Brings(k, steps[|steps| - 1], t, k.thr[t].call)
  {
    LastStep(b, steps);
    OnlyBringsMoves(After(b, steps[..|steps| - 1]), steps[|steps| - 1], t);
  }

  /** The caller of step i was blocked by it, in call c. */
  ghost predicate BlockedIn(b: Setup, steps: seq<Step>, i: nat, t: Pid, c: Call)
    requires i < |steps|
  {
    var th := Th(After(b, steps[..i + 1]).thr, t);
    th.call == c && !OnRq(th.status)
  }

  /** The last step of a run in which a call lasts. */
  lemma LastStepGoesOn(b: Setup, steps: seq<Step>, i: nat, t: Pid)
    requires Lasts(b, steps, i, t) && i + 1 < |steps|
    ensures var pre := steps[..|steps| - 1];
      && Lasts(b, pre, i, t) && t in After(b, pre).thr && t in After(b, steps).thr
      && GoesOn(After(b, pre), steps[|steps| - 1], t, After(b, pre).thr[t].call, After(b, steps).thr[t].call)
  {
    var pre := steps[..|steps| - 1];
    LastStep(b, steps);
    CallKeepsArguments(b, pre, i, t);
    CallGoesOn(After(b, pre), steps[|steps| - 1], t);
  }

  lemma FirstStepLeads(b: Setup, steps: seq<Step>, i: nat, t: Pid)
    requires Lasts(b, steps, i, t) && i + 1 == |steps|
    ensures Th(After(b, steps).thr, t).call == OwnCall(After(b, steps[..i]), steps[i])
  {
    LastStep(b, steps);
    OwnStep(After(b, steps[..i]), steps[i]);
  }

  /** The thread is runnable, or has been led on from call c. */
  predicate Moved(b: Setup, steps: seq<Step>, t: Pid, c: Call) {
    var th := Th(After(b, steps).thr, t);
    OnRq(th.status) || th.call != c
  }

  lemma LastBring(b: Setup, steps: seq<Step>, i: nat, t: Pid, c: Call)
    requires Lasts(b, steps, i, t) && i + 1 < |steps| && Moved(b, steps, t, c)
    ensures Lasts(b, steps[..|steps| - 1], i, t) && (Moved(b, steps[..|steps| - 1], t, c) || BringsAt(b, steps, |steps| - 1, t, c))
  {
    LastStepGoesOn(b, steps, i, t);
    if !Moved(b, steps[..|steps| - 1], t, c) { LastStepMoves(b, steps, t); }
  }

  lemma {:induction false} BlockedUntilBrought(b: Setup, steps: seq<Step>, i: nat, t: Pid, c: Call)
    requires Lasts(b, steps, i, t) && BlockedIn(b, steps, i, t, c) && Moved(b, steps, t, c)
    ensures Brought(b, steps, i, t, c)
  {
    assert steps[..|steps|] == steps;
    if i + 1 < |steps| {
      LastBring(b, steps, i, t, c);
      if !BringsAt(b, steps, |steps| - 1, t, c) {
        assert steps[..|steps| - 1][..i + 1] == steps[..i + 1];
        BlockedUntilBrought(b, steps[..|steps| - 1], i, t, c);
        BroughtBefore(b, steps, i, t, c);
      }
    }
  }

  /** The state before the last step, and the thread in it. */
  lemma Ending(b: Setup, steps: seq<Step>, i: nat, t: Pid)
    requires Ends(b, steps, i, t) && i + 1 < |steps|
    ensures var pre := steps[..|steps| - 1];
      var k := After(b, pre);
      && Lasts(b, pre, i, t) && t in k.thr && t == k.s.active && Served(t, k.thr[t]) && Kept(k.x.mem, t, k.thr[t]) && k.thr[t].call != User && Suits(steps[i], k.thr[t].call) && OnRq(k.thr[t].status)
      && After(b, steps).x.mem == k.x.mem
      && After(b, steps).thr[t].flags == k.thr[t].flags - Returned(k.thr[t])
      && (LocksMutex(k.thr[t].call) ==> k.thr[t].call.m in After(b, steps).thr[t].has)
      && (k.thr[t].call.InFlags? ==> k.thr[t].call.kind != WaitOne)
  {
    var pre := steps[..|steps| - 1];
    LastStep(b, steps);
    CallKeepsArguments(b, pre, i, t);
    CallEnds(After(b, pre), steps[|steps| - 1], t);
  }

  /** In every run a call that blocks its caller ends only after a step that brings what the
      call waits for: a wake-up, a signal of its condition, a receive by its target, and so on. */
  lemma BlockedCallsWait(b: Setup, steps: seq<Step>, i: nat, t: Pid, c: Call)
    requires Ends(b, steps, i, t) && BlockedIn(b, steps, i, t, c) && c != User
    ensures Brought(b, steps, i, t, c)
  {
    var pre := steps[..|steps| - 1];
    assert steps[..|steps|] == steps;
    if i + 1 < |steps| {
      Ending(b, steps, i, t);
      assert pre[..i + 1] == steps[..i + 1];
      BlockedUntilBrought(b, pre, i, t, c);
      BroughtBefore(b, steps, i, t, c);
    }
  }

  // ---------------------------------------------------------------- what calls return with

  /** In every run, a thread that calls mutex_lock or cond_wait with mutex m has m when it is
      back in user code. */
  lemma LockCallsReturnHolding(b: Setup, steps: seq<Step>, i: nat, t: Pid, m: MutexId)
    requires Ends(b, steps, i, t) && (steps[i] == Sync(CallLock(m)) || (steps[i].Sync? && steps[i].sc.CallCondWait? && steps[i].sc.m == m))
    ensures m in After(b, steps).thr[t].has
  {
    if i + 1 < |steps| {
      Ending(b, steps, i, t);
    } else {
      LastStep(b, steps);
      StepEvolves(After(b, steps[..i]), steps[i], t);
    }
  }

  /** In every run, cond_wait returns only after its condition was signalled. */
  lemma CondWaitsReturnSignalled(b: Setup, steps: seq<Step>, i: nat, t: Pid, c: CondId, m: MutexId)
    requires Ends(b, steps, i, t) && steps[i] == Sync(CallCondWait(c, m))
    ensures exists x :: i < x < |steps| && (Signals(steps[x], c, true) || Signals(steps[x], c, false))
  {
    EndsMakes(b, steps, i, t);
    CondWaitBlocks(b, steps, i, t, c, m);
    BlockedCallsWait(b, steps, i, t, InCond(c, m));
    var x :| i < x < |steps| && BringsAt(b, steps, x, t, InCond(c, m));
  }

  lemma CondWaitBlocks(b: Setup, steps: seq<Step>, i: nat, t: Pid, c: CondId, m: MutexId)
    requires LegalRun(b, steps) && Makes(b, steps, i, t) && steps[i] == Sync(CallCondWait(c, m))
    ensures BlockedIn(b, steps, i, t, InCond(c, m))
  {
    FirstStep(b, steps, i);
    CondWaitWaits(After(b, steps[..i]), c, m);
  }

  lemma EndsMakes(b: Setup, steps: seq<Step>, i: nat, t: Pid)
    requires Ends(b, steps, i, t)
    ensures LegalRun(b, steps) && Makes(b, steps, i, t)
  {
    if i + 1 < |steps| {
      LastsMakes(b, steps[..|steps| - 1], i, t);
      assert steps[..|steps| - 1][..i] == steps[..i];
    }
  }

  lemma {:induction false} LastsMakes(b: Setup, steps: seq<Step>, i: nat, t: Pid)
    requires Lasts(b, steps, i, t)
    ensures Makes(b, steps, i, t)
  {
    if i + 1 < |steps| {
      LastsMakes(b, steps[..|steps| - 1], i, t);
      assert steps[..|steps| - 1][..i] == steps[..i];
    }
  }

  /** Step i of a legal run. */
  lemma FirstStep(b: Setup, steps: seq<Step>, i: nat)
    requires LegalRun(b, steps) && i < |steps|
    ensures var k := After(b, steps[..i]); Inv(k) && Legal(k, steps[i]) && After(b, steps[..i + 1]) == Next(k, steps[i])
  {
    var s := steps[..i + 1];
    assert s[..i] == steps[..i] && s[i] == steps[i];
    LegalPrefix(b, steps, i + 1);
    LastStep(b, s);
  }

  /** The flags that a wait for mask gives back and clears, when `flags` are set: all of the
      mask, those of it that are set and at least one, or exactly one of it. */
  ghost predicate Fulfils(taken: Flags, flags: Flags, mask: Flags, kind: FlagWait) {
    match kind
    case WaitAll => taken == mask
    case WaitAny => taken == flags * mask && taken != {}
    case WaitOne => taken <= mask && |taken| == 1
  }

  /** In every run, the flags that a flag wait returns and clears are those that the kind and
      the mask of the call ask for. */
  lemma FlagWaitsFulfil(b: Setup, steps: seq<Step>, i: nat, t: Pid, mask: Flags, kind: FlagWait)
    requires Ends(b, steps, i, t) && steps[i] == Sync(CallFlagsWait(mask, kind))
    ensures var k := After(b, steps[..|steps| - 1]);
      && t == k.s.active && t in k.thr
      && After(b, steps).thr[t].flags == k.thr[t].flags - FlagsResult(k) && FlagsResult(k) <= k.thr[t].flags
      && Fulfils(FlagsResult(k), k.thr[t].flags, mask, kind)
  {
    TakesLonger(b, steps, i, t);
    Ending(b, steps, i, t);
    var k := After(b, steps[..|steps| - 1]);
    Taken(k.thr[t], FlagsResult(k), mask, kind);
  }

  /** A flag wait or a request takes more than one step. */
  lemma TakesLonger(b: Setup, steps: seq<Step>, i: nat, t: Pid)
    requires Ends(b, steps, i, t) && ((steps[i].Sync? && steps[i].sc.CallFlagsWait?) || (steps[i].Mailing? && steps[i].mc.CallSendReceive?))
    ensures i + 1 < |steps|
  {
    if i + 1 == |steps| {
      LastStep(b, steps);
      OwnStep(After(b, steps[..i]), steps[i]);
    }
  }

  lemma Taken(th: Thread, taken: Flags, mask: Flags, kind: FlagWait)
    requires taken == Returned(th) && Suits(Sync(CallFlagsWait(mask, kind)), th.call) && (th.call.InFlags? ==> kind != WaitOne)
    requires Served(0, th)
    ensures Fulfils(taken, th.flags, mask, kind) && taken <= th.flags
  {
    match th.call
    case InFlags(_, _) => AllOrSubset(th.flags, mask);
    case InFlagsPicked(_, pick) => AllOrSubset(th.flags, pick);
  }

  // ---------------------------------------------------------------- messages and replies

  /** Step x of the run hands message m over to thread t. */
  ghost predicate HandsAt(b: Setup, steps: seq<Step>, x: nat, t: Pid, m: Msg)
    requires x < |steps|
  {
    var h := HandedOver(After(b, steps[..x]), steps[x]);
    h.Some? && h.value.r == t && h.value.m == m
  }

  ghost predicate WasHanded(b: Setup, steps: seq<Step>, i: nat, t: Pid, m: Msg) {
    exists x :: i <= x < |steps| && HandsAt(b, steps, x, t, m)
  }

  lemma HandedBefore(b: Setup, steps: seq<Step>, i: nat, t: Pid, m: Msg)
    requires steps != [] && WasHanded(b, steps[..|steps| - 1], i, t, m)
    ensures WasHanded(b, steps, i, t, m)
  {
    var pre := steps[..|steps| - 1];
    var x :| i <= x < |pre| && HandsAt(b, pre, x, t, m);
    assert pre[..x] == steps[..x];
    SameHand(b, pre, steps, x, t, m);
  }

  lemma SameHand(b: Setup, pre: seq<Step>, steps: seq<Step>, x: nat, t: Pid, m: Msg)
    requires x < |pre| && x < |steps| && pre[..x] == steps[..x] && pre[x] == steps[x] && HandsAt(b, pre, x, t, m)
    ensures HandsAt(b, steps, x, t, m)
  {
  }

  /** Thread t, in a receive, has its message. */
  predicate HasMessage(b: Setup, steps: seq<Step>, t: Pid, m: Msg) {
    var c := Th(After(b, steps).thr, t).call;
    c.InReceive? && c.got == Some(m)
  }

  /** A thread was handed its message by the last step, or has had it before. */
  lemma LastHand(b: Setup, steps: seq<Step>, i: nat, t: Pid, m: Msg)
    requires Lasts(b, steps, i, t) && i + 1 < |steps| && HasMessage(b, steps, t, m)
    ensures HasMessage(b, steps[..|steps| - 1], t, m) || HandsAt(b, steps, |steps| - 1, t, m)
  {
    LastStepGoesOn(b, steps, i, t);
  }

  lemma HandedAtOnce(b: Setup, steps: seq<Step>, i: nat, t: Pid, m: Msg)
    requires Lasts(b, steps, i, t) && i + 1 == |steps| && HasMessage(b, steps, t, m)
    ensures HandsAt(b, steps, i, t, m)
  {
    FirstStepLeads(b, steps, i, t);
    FoundAtOnce(After(b, steps[..i]), steps[i], m);
  }

  lemma {:induction false} GotWasHanded(b: Setup, steps: seq<Step>, i: nat, t: Pid, m: Msg)
    requires Lasts(b, steps, i, t) && HasMessage(b, steps, t, m)
    ensures WasHanded(b, steps, i, t, m)
  {
    var pre, last := steps[..|steps| - 1], |steps| - 1;
    if i + 1 < |steps| {
      LastHand(b, steps, i, t, m);
      if !HandsAt(b, steps, last, t, m) {
        GotWasHanded(b, pre, i, t, m);
        HandedBefore(b, steps, i, t, m);
      }
    } else {
      HandedAtOnce(b, steps, i, t, m);
    }
  }

  lemma FoundAtOnce(k: K, a: Step, m: Msg)
    requires (a.Sync? || a.Mailing?) && OwnCall(k, a).InReceive? && OwnCall(k, a).got == Some(m)
    ensures HandedOver(k, a).Some? && HandedOver(k, a).value.r == k.s.active && HandedOver(k, a).value.m == m
  {
  }

  /** In every run, a blocking receive returns only after a message was handed over to its
      caller, and with that message in its buffer; a receive that may not wait returns so too,
      or at once if nothing is there. */
  lemma ReceivesReturnMessage(b: Setup, steps: seq<Step>, i: nat, t: Pid, buf: Addr, block: bool)
    requires Ends(b, steps, i, t) && steps[i] == Mailing(CallReceive(buf, block))
    ensures WasHanded(b, steps, i, t, Read(After(b, steps).x.mem, buf))
      || (!block && |steps| == i + 1 && After(b, steps) == After(b, steps[..i]) && Found(After(b, steps[..i])) == None)
  {
    if i + 1 < |steps| {
      Ending(b, steps, i, t);
      var pre := steps[..|steps| - 1];
      var m := After(b, pre).thr[t].call.got.value;
      GotWasHanded(b, pre, i, t, m);
      HandedBefore(b, steps, i, t, m);
    } else {
      FirstStep(b, steps, i);
      SelfIsNotFirst(After(b, steps[..i]));
      ReceiveTakesOrWaits(After(b, steps[..i]), buf, block);
      assert steps[..|steps|] == steps;
    }
  }

  lemma SelfIsNotFirst(k: K)
    requires CanCall(k)
    ensures NotFirst(k, MsgWaiters(k.s.active))
  {
    ActiveFacts(k);
    if First(k, MsgWaiters(k.s.active), k.s.active) { ListedAt(k, k.s.active); }
  }

  /** Message m is a reply to t in the steps after step i. */
  ghost predicate WasReplied(steps: seq<Step>, i: nat, t: Pid, m: Msg) {
    exists x :: i < x < |steps| && RepliesAt(steps, x, t, m)
  }

  predicate RepliesAt(steps: seq<Step>, x: nat, t: Pid, m: Msg)
    requires x < |steps|
  {
    ReplyIn(steps[x], t) == Some(m)
  }

  lemma RepliedBefore(steps: seq<Step>, i: nat, t: Pid, m: Msg)
    requires steps != [] && WasReplied(steps[..|steps| - 1], i, t, m)
    ensures WasReplied(steps, i, t, m)
  {
    var pre := steps[..|steps| - 1];
    var x :| i < x < |pre| && RepliesAt(pre, x, t, m);
    assert RepliesAt(steps, x, t, m);
  }

  /** Thread t, in msg_send_receive, has its reply. */
  predicate HasReply(b: Setup, steps: seq<Step>, t: Pid, m: Msg) {
    var c := Th(After(b, steps).thr, t).call;
    c.InSendReceive? && c.got == Some(m)
  }

  /** A thread got its reply by the last step, or has had it before. */
  lemma LastReply(b: Setup, steps: seq<Step>, i: nat, t: Pid, m: Msg)
    requires Lasts(b, steps, i, t) && i + 1 < |steps| && HasReply(b, steps, t, m)
    ensures HasReply(b, steps[..|steps| - 1], t, m) || RepliesAt(steps, |steps| - 1, t, m)
  {
    LastStepGoesOn(b, steps, i, t);
  }

  lemma NoReplyAtOnce(b: Setup, steps: seq<Step>, i: nat, t: Pid)
    requires Lasts(b, steps, i, t) && i + 1 == |steps|
    ensures forall m :: !HasReply(b, steps, t, m)
  {
    FirstStepLeads(b, steps, i, t);
    if OwnCall(After(b, steps[..i]), steps[i]).InSendReceive? { NoReplyYet(After(b, steps[..i]), steps[i]); }
  }

  lemma {:induction false} GotWasReplied(b: Setup, steps: seq<Step>, i: nat, t: Pid, m: Msg)
    requires Lasts(b, steps, i, t) && HasReply(b, steps, t, m)
    ensures WasReplied(steps, i, t, m)
  {
    var pre, last := steps[..|steps| - 1], |steps| - 1;
    if i + 1 < |steps| {
      LastReply(b, steps, i, t, m);
      if !RepliesAt(steps, last, t, m) {
        GotWasReplied(b, pre, i, t, m);
        RepliedBefore(steps, i, t, m);
      }
    } else {
      NoReplyAtOnce(b, steps, i, t);
    }
  }

  lemma NoReplyYet(k: K, a: Step)
    requires (a.Sync? || a.Mailing?) && OwnCall(k, a).InSendReceive?
    ensures OwnCall(k, a).got == None
  {
  }

  /** In every run, msg_send_receive returns only after a reply to its caller, and with that
      reply in its buffer. */
  lemma RequestsReturnReply(b: Setup, steps: seq<Step>, i: nat, t: Pid, msg: Msg, buf: Addr, target: Pid)
    requires Ends(b, steps, i, t) && steps[i] == Mailing(CallSendReceive(msg, buf, target))
    ensures WasReplied(steps, i, t, Read(After(b, steps).x.mem, buf))
  {
    TakesLonger(b, steps, i, t);
    Ending(b, steps, i, t);
    var pre := steps[..|steps| - 1];
    var m := After(b, pre).thr[t].call.got.value;
    GotWasReplied(b, pre, i, t, m);
    RepliedBefore(steps, i, t, m);
  }
}
