/** Short legal runs after which the kernel's callers get less than they would expect:
    for each condition in `KernelLimits`, `KernelPriority` and `KernelLosses` one run that
    violates it. */
module KernelFailures {
  import opened KernelTypes
  import opened KernelSpec
  import opened KernelStruct
  import opened KernelInv
  import opened KernelSteps
  import opened KernelMail
  import opened KernelRuns
  import opened KernelTheorems
  import opened KernelLimits
  import opened KernelPriority
  import opened KernelLogs
  import opened KernelLosses

  const OTHER: Pid := 3
  const BETTER: nat := 6

  /** The run queues below level p are empty. */
  ghost predicate NoneBetter(rq: map<nat, seq<Pid>>, p: nat) {
    forall i: nat :: i < p ==> Rq(rq, i) == []
  }

  lemma BestIs(rq: map<nat, seq<Pid>>, p: nat)
    requires p < PRIO_LEVELS && Rq(rq, p) != [] && NoneBetter(rq, p)
    ensures Best(rq, PRIO_TOP) == p
  {
    assert Best(rq, PRIO_TOP) >= p ==> Best(rq, PRIO_TOP) == p;
  }

  /** After kernel_init the main thread executes, and only the idle thread is there. */
  ghost predicate Booted(k: K, flagsOn: bool) {
    && k.thr.Keys == {PID_IDLE, PID_MAIN} && k.flagsOn == flagsOn
    && k.thr[PID_MAIN] == Thread(PRIO_MAIN, Running, {}, NoData, [], 0, User, None, 0, {})
    && k.s.active == PID_MAIN && !k.s.pend && Rq(k.s.rq, PRIO_MAIN) == [PID_MAIN] && NoneBetter(k.s.rq, PRIO_MAIN)
    && k.w.lists == map[]
  }

  /** k is the state after the legal run `steps`. */
  ghost predicate Reached(b: Setup, steps: seq<Step>, k: K) {
    LegalRun(b, steps) && k == After(b, steps) && Inv(k)
  }

  lemma Extend(b: Setup, steps: seq<Step>, k: K, a: Step)
    requires Reached(b, steps, k) && Legal(k, a)
    ensures Reached(b, steps + [a], Next(k, a))
  {
    var steps' := steps + [a];
    assert steps'[..|steps'| - 1] == steps;
    StepKeeps(k, a);
  }

  lemma AfterBoth(k: K, f1: Flags)
    requires k.thr == map[PID_IDLE := Fresh(PRIO_IDLE, f1), PID_MAIN := Fresh(PRIO_MAIN, {})]
    requires k.s.rq == map[PRIO_IDLE := [PID_IDLE], PRIO_MAIN := [PID_MAIN]] && k.s.active == 0 && k.w.lists == map[]
    ensures Booted(SchedRun(k), k.flagsOn)
  {
    BestIs(k.s.rq, PRIO_MAIN);
  }

  lemma BootState(b: Setup) returns (steps: seq<Step>, k: K)
    requires b.f2 == {}
    ensures Reached(b, steps, k) && Booted(k, b.flagsOn)
  {
    steps, k := [], Boot(b.flagsOn, b.f1, b.f2);
    var k0 := CreateBoth(b.flagsOn, b.f1, b.f2);
    BootTables(b.flagsOn, b.f1, b.f2);
    assert k0.flagsOn == b.flagsOn && k0.s.active == 0;
    AfterBoth(k0, b.f1);
    BootInv(b.flagsOn, b.f1, b.f2);
  }

  // ---------------------------------------------------------------- right after boot

  lemma NobodyStep(k: K, m: Msg, reply: Addr)
    requires Inv(k) && Booted(k, k.flagsOn) && reply.owner == PID_MAIN
    ensures CanCall(k) && !Inv(SendReceive(k, m, reply, OTHER))
  {
    SendReceiveExact(k, m, reply, OTHER);
  }

  /** msg_send_receive right after boot, to a thread that does not exist. */
  lemma RequestToNobody(b: Setup, m: Msg, reply: Addr) returns (steps: seq<Step>, k: K)
    requires b.f2 == {} && reply.owner == PID_MAIN
    ensures Reached(b, steps, k) && CanCall(k) && !Inv(SendReceive(k, m, reply, OTHER))
  {
    steps, k := BootState(b);
    NobodyStep(k, m, reply);
  }

  const CREATE_SILENTLY: SyncCall := CallCreate(BETTER, false, true, {})
  const CREATE: SyncCall := CallCreate(BETTER, false, false, {})

  lemma ThirdPid(k: K)
    requires k.thr.Keys == {PID_IDLE, PID_MAIN}
    ensures FreePid(k.thr, PID_FIRST) == OTHER
  {
    assert FreePid(k.thr, 1) == FreePid(k.thr, 2) == FreePid(k.thr, 3);
  }

  lemma SilentStep(k: K)
    requires Booted(k, k.flagsOn)
    ensures Legal(k, Sync(CREATE_SILENTLY)) && Skips(k, Sync(CREATE_SILENTLY)) && !Next(k, Sync(CREATE_SILENTLY)).s.pend
  {
    ThirdPid(k);
  }

  /** A better thread created without yield waits, although nothing is pending. */
  lemma SilentCreate(b: Setup) returns (steps: seq<Step>, k: K)
    requires b.f2 == {}
    ensures Reached(b, steps, k) && !k.s.pend && !StrictPriority(k)
  {
    var steps0, k0 := BootState(b);
    SilentStep(k0);
    Extend(b, steps0, k0, Sync(CREATE_SILENTLY));
    StepLaxExactly(k0, Sync(CREATE_SILENTLY));
    steps, k := steps0 + [Sync(CREATE_SILENTLY)], Next(k0, Sync(CREATE_SILENTLY));
    PriorityIffNotLax(k);
  }

  // ---------------------------------------------------------------- a message to oneself

  /** The main thread has one message in its queue. */
  ghost predicate HasLetter(k: K, m: Msg) {
    && k.thr.Keys == {PID_IDLE, PID_MAIN} && k.s.active == PID_MAIN && !k.s.pend && k.w.lists == map[]
    && k.thr[PID_MAIN].inbox == [m] && m.sender == PID_MAIN && k.thr[PID_MAIN].call == User && k.thr[PID_MAIN].has == {}
  }

  const MAIN_QUEUE: Thread := Thread(PRIO_MAIN, Running, {}, NoData, [], 1, User, None, 0, {})

  lemma OwnQueueStep(k: K, a: Step)
    requires Booted(k, k.flagsOn) && a == Mailing(CallInitQueue(1))
    ensures Legal(k, a) && Next(k, a) == Put(k, PID_MAIN, MAIN_QUEUE)
  {
  }

  lemma SelfSendStep(k: K, k1: K, a: Step, buf: Addr)
    requires Booted(k, k.flagsOn) && k1 == Put(k, PID_MAIN, MAIN_QUEUE) && buf.owner == PID_MAIN
    requires a == Mailing(CallSend(buf, PID_MAIN, true))
    ensures Legal(k1, a) && HasLetter(Next(k1, a), Stamped(Read(k.x.mem, buf), PID_MAIN))
  {
    var m := Stamped(Read(k.x.mem, buf), PID_MAIN);
    assert Read(Stamp(k1, buf).x.mem, buf) == m;
    assert [] + [m] == [m];
  }

  lemma Addressed(b: Setup, buf: Addr) returns (steps: seq<Step>, k: K, m: Msg)
    requires b.f2 == {} && buf.owner == PID_MAIN
    ensures Reached(b, steps, k) && HasLetter(k, m)
  {
    var steps0, k0 := BootState(b);
    var a1, a2 := Mailing(CallInitQueue(1)), Mailing(CallSend(buf, PID_MAIN, true));
    OwnQueueStep(k0, a1);
    Extend(b, steps0, k0, a1);
    var steps1, k1 := steps0 + [a1], Next(k0, a1);
    SelfSendStep(k0, k1, a2, buf);
    Extend(b, steps1, k1, a2);
    steps, k, m := steps1 + [a2], Next(k1, a2), Stamped(Read(k0.x.mem, buf), PID_MAIN);
  }

  lemma LetterFails(k: K, m: Msg, n: nat)
    requires Inv(k) && HasLetter(k, m)
    ensures CanCall(k) && Legal(k, Sync(CallExit)) && !Inv(InitQueue(k, n))
    ensures LostNow(k, Sync(CallExit), PID_MAIN, PID_MAIN) == [m]
  {
    InitQueueExact(k, n);
    assert [m][..0] == [] && From([m], PID_MAIN) == [m];
  }

  /** A message that was accepted for a thread, which then sets up its queue again. */
  lemma QueueSetUpAgain(b: Setup, buf: Addr, n: nat) returns (steps: seq<Step>, k: K)
    requires b.f2 == {} && buf.owner == PID_MAIN
    ensures Reached(b, steps, k) && CanCall(k) && Me(k).inbox != [] && !Inv(InitQueue(k, n))
  {
    var m;
    steps, k, m := Addressed(b, buf);
    LetterFails(k, m, n);
  }

  /** A message that was accepted for a thread, which then exits. */
  lemma LostAtExit(b: Setup, buf: Addr) returns (steps: seq<Step>)
    requires b.f2 == {} && buf.owner == PID_MAIN
    ensures LegalRun(b, steps) && Lost(b, steps, PID_MAIN, PID_MAIN) != []
  {
    var steps0, k, m := Addressed(b, buf);
    LetterFails(k, m, 0);
    Extend(b, steps0, k, Sync(CallExit));
    steps := steps0 + [Sync(CallExit)];
    LostTail(b, steps0, steps, k, PID_MAIN);
  }

  lemma LostTail(b: Setup, steps0: seq<Step>, steps: seq<Step>, k: K, t: Pid)
    requires k == After(b, steps0) && steps == steps0 + [Sync(CallExit)] && LostNow(k, Sync(CallExit), t, t) != []
    ensures Lost(b, steps, t, t) != []
  {
    assert steps[..|steps| - 1] == steps0;
    LostStep(b, steps, t, t, |steps| - 1);
  }

  // ---------------------------------------------------------------- a second, better thread

  const OTHER_AWAKE: Thread := Thread(BETTER, Running, {}, NoData, [], 0, User, None, 0, {})
  const MAIN_PENDING: Thread := Thread(PRIO_MAIN, Pending, {}, NoData, [], 0, User, None, 0, {})

  /** The main thread and a better one that executes. */
  ghost predicate Preempted(k: K, flagsOn: bool) {
    && k.thr.Keys == {PID_IDLE, PID_MAIN, OTHER} && k.flagsOn == flagsOn
    && k.thr[PID_MAIN] == MAIN_PENDING && k.thr[OTHER] == OTHER_AWAKE
    && k.s.active == OTHER && !k.s.pend && k.w.lists == map[]
    && Rq(k.s.rq, BETTER) == [OTHER] && Rq(k.s.rq, PRIO_MAIN) == [PID_MAIN] && NoneBetter(k.s.rq, BETTER)
  }

  /** The main thread has created a better one and is about to yield to it. */
  ghost predicate Created(k: K, flagsOn: bool) {
    && k.thr.Keys == {PID_IDLE, PID_MAIN, OTHER} && k.flagsOn == flagsOn
    && k.thr[PID_MAIN] == MAIN_PENDING.(status := Running) && k.thr[OTHER] == OTHER_AWAKE.(status := Pending)
    && k.s.active == PID_MAIN && k.w.lists == map[]
    && Rq(k.s.rq, BETTER) == [OTHER] && Rq(k.s.rq, PRIO_MAIN) == [PID_MAIN] && NoneBetter(k.s.rq, BETTER)
  }

  lemma CreateStep(k: K, c: SyncCall)
    requires Booted(k, k.flagsOn) && c == CREATE
    ensures Legal(k, Sync(c)) && Created(Next(k, Sync(c)), k.flagsOn)
  {
    ThirdPid(k);
    assert Rq(k.s.rq, BETTER) == [] && [] + [OTHER] == [OTHER];
    var k' := Next(k, Sync(c));
    forall i: nat | i < BETTER ensures Rq(k'.s.rq, i) == [] {
      assert Rq(k.s.rq, i) == [];
    }
  }

  lemma PreemptStep(k: K)
    requires Created(k, k.flagsOn)
    ensures Preempted(Next(k, Schedule), k.flagsOn)
  {
    BestIs(k.s.rq, BETTER);
  }

  lemma Preempt(b: Setup) returns (steps: seq<Step>, k: K)
    requires b.f2 == {}
    ensures Reached(b, steps, k) && Preempted(k, b.flagsOn)
  {
    steps, k := BootState(b);
    steps, k := CreateTaken(b, steps, k, CREATE);
    steps, k := PreemptTaken(b, steps, k);
  }

  lemma CreateTaken(b: Setup, steps0: seq<Step>, k0: K, c: SyncCall) returns (steps: seq<Step>, k: K)
    requires Reached(b, steps0, k0) && Booted(k0, b.flagsOn) && c == CREATE
    ensures Reached(b, steps, k) && Created(k, b.flagsOn)
  {
    CreateStep(k0, c);
    Extend(b, steps0, k0, Sync(c));
    steps, k := steps0 + [Sync(c)], Next(k0, Sync(c));
  }

  lemma PreemptTaken(b: Setup, steps0: seq<Step>, k0: K) returns (steps: seq<Step>, k: K)
    requires Reached(b, steps0, k0) && Created(k0, b.flagsOn)
    ensures Reached(b, steps, k) && Preempted(k, b.flagsOn)
  {
    PreemptStep(k0);
    Extend(b, steps0, k0, Schedule);
    steps, k := steps0 + [Schedule], Next(k0, Schedule);
  }

  // ---------------------------------------------------------------- a request that is still queued

  /** The better thread waits in the list of senders to the main thread; `back` says
      whether the main thread executes again. */
  ghost predicate Asking(k: K, back: bool) {
    && k.thr.Keys == {PID_IDLE, PID_MAIN, OTHER} && !k.flagsOn
    && k.thr[PID_MAIN] == (if back then MAIN_PENDING.(status := Running) else MAIN_PENDING)
    && k.thr[OTHER].status == ReplyBlocked && k.thr[OTHER].on == Some(MsgWaiters(PID_MAIN))
    && List(k.w.lists, MsgWaiters(PID_MAIN)) == [OTHER]
    && k.s.active == (if back then PID_MAIN else OTHER) && (back ==> !k.s.pend)
    && Rq(k.s.rq, PRIO_MAIN) == [PID_MAIN] && NoneBetter(k.s.rq, PRIO_MAIN)
  }

  /** After the better thread has left its run queue, the main thread's is the best. */
  lemma LeftRq(rq: map<nat, seq<Pid>>, rq': map<nat, seq<Pid>>)
    requires Rq(rq, BETTER) == [OTHER] && Rq(rq, PRIO_MAIN) == [PID_MAIN] && NoneBetter(rq, BETTER)
    requires rq' == rq[BETTER := []]
    ensures Rq(rq', PRIO_MAIN) == [PID_MAIN] && NoneBetter(rq', PRIO_MAIN)
  {
    forall i: nat | i < PRIO_MAIN ensures Rq(rq', i) == [] {
      assert i < BETTER ==> Rq(rq, i) == [];
    }
  }

  lemma AwaitState(k: K, m: Msg, reply: Addr)
    requires Preempted(k, false)
    ensures var k1 := Stamp(AwaitReply(k, m, reply, PID_MAIN), reply);
      && k1.thr == k.thr[OTHER := OTHER_AWAKE.(wait := Buffer(reply), call := InSendReceive(reply, PID_MAIN, None), status := ReplyBlocked)]
      && k1.s.rq == k.s.rq[BETTER := []] && k1.s.active == OTHER && k1.w == k.w && !k1.flagsOn
  {
    assert [OTHER][1..] == [];
  }

  lemma AskStep(k: K, m: Msg, reply: Addr)
    requires Preempted(k, false) && reply.owner == OTHER
    ensures Legal(k, Mailing(CallSendReceive(m, reply, PID_MAIN)))
    ensures Asking(Next(k, Mailing(CallSendReceive(m, reply, PID_MAIN))), false)
  {
    var k1 := Stamp(AwaitReply(k, m, reply, PID_MAIN), reply);
    AwaitState(k, m, reply);
    LeftRq(k.s.rq, k1.s.rq);
    AskWaits(k1, reply);
  }

  lemma AskWaits(k: K, reply: Addr)
    requires k.thr.Keys == {PID_IDLE, PID_MAIN, OTHER} && !k.flagsOn && k.thr[PID_MAIN] == MAIN_PENDING
    requires k.thr[OTHER].status == ReplyBlocked && k.thr[OTHER].prio == BETTER && k.w.lists == map[] && k.s.active == OTHER
    requires Rq(k.s.rq, PRIO_MAIN) == [PID_MAIN] && NoneBetter(k.s.rq, PRIO_MAIN)
    ensures Asking(SendStamped(k, reply, PID_MAIN, true), false)
  {
    var k' := SendStamped(k, reply, PID_MAIN, true);
    assert Rq(k.s.rq, BETTER) == [];
    assert [] + [OTHER] + [] == [OTHER];
    forall i: nat ensures Rq(k'.s.rq, i) == Rq(k.s.rq, i) {
    }
  }

  lemma BackStep(k: K)
    requires Asking(k, false)
    ensures Asking(Next(k, Schedule), true)
  {
    BestIs(k.s.rq, PRIO_MAIN);
  }

  lemma Asked(b: Setup, m: Msg, reply: Addr) returns (steps: seq<Step>, k: K)
    requires b.f2 == {} && !b.flagsOn && reply.owner == OTHER
    ensures Reached(b, steps, k) && Asking(k, true)
  {
    steps, k := Preempt(b);
    steps, k := AskTaken(b, steps, k, m, reply);
    steps, k := BackTaken(b, steps, k);
  }

  lemma AskTaken(b: Setup, steps0: seq<Step>, k0: K, m: Msg, reply: Addr) returns (steps: seq<Step>, k: K)
    requires Reached(b, steps0, k0) && Preempted(k0, false) && reply.owner == OTHER
    ensures Reached(b, steps, k) && Asking(k, false)
  {
    var a := Mailing(CallSendReceive(m, reply, PID_MAIN));
    AskStep(k0, m, reply);
    Extend(b, steps0, k0, a);
    steps, k := steps0 + [a], Next(k0, a);
  }

  lemma BackTaken(b: Setup, steps0: seq<Step>, k0: K) returns (steps: seq<Step>, k: K)
    requires Reached(b, steps0, k0) && Asking(k0, false)
    ensures Reached(b, steps, k) && Asking(k, true)
  {
    BackStep(k0);
    Extend(b, steps0, k0, Schedule);
    steps, k := steps0 + [Schedule], Next(k0, Schedule);
  }

  lemma AskingFails(k: K, answer: Msg, n: nat)
    requires Inv(k) && Asking(k, true) && n > 0
    ensures CanCall(k) && !Inv(Reply(k, OTHER, answer)) && !Inv(InitQueue(k, n))
  {
    ReplyExact(k, OTHER, answer);
    InitQueueExact(k, n);
  }

  /** A reply to a request that is still queued, and msg_init_queue while it is. */
  lemma QueuedRequest(b: Setup, m: Msg, reply: Addr, answer: Msg, n: nat) returns (steps: seq<Step>, k: K)
    requires b.f2 == {} && !b.flagsOn && reply.owner == OTHER && n > 0
    ensures Reached(b, steps, k) && CanCall(k) && !Inv(Reply(k, OTHER, answer)) && !Inv(InitQueue(k, n))
  {
    steps, k := Asked(b, m, reply);
    AskingFails(k, answer, n);
  }

  // ---------------------------------------------------------------- a thread woken by the message flag

  /** The better thread has a queue and waits for the message flag. */
  ghost predicate Listening(k: K, back: bool) {
    && k.thr.Keys == {PID_IDLE, PID_MAIN, OTHER} && k.flagsOn
    && k.thr[PID_MAIN] == (if back then MAIN_PENDING.(status := Running) else MAIN_PENDING)
    && k.thr[OTHER] == OTHER_AWAKE.(cap := 1, call := InFlags(MSG_WAITING, WaitAny), wait := FlagMask(MSG_WAITING), status := FlagBlockedAny)
    && k.s.active == (if back then PID_MAIN else OTHER) && (back ==> !k.s.pend)
    && Rq(k.s.rq, PRIO_MAIN) == [PID_MAIN] && NoneBetter(k.s.rq, PRIO_MAIN)
  }

  lemma QueueStep(k: K)
    requires Preempted(k, true)
    ensures Legal(k, Mailing(CallInitQueue(1))) && Next(k, Mailing(CallInitQueue(1))) == Put(k, OTHER, OTHER_AWAKE.(cap := 1))
  {
  }

  lemma ListenStep(k: K, k1: K, c: SyncCall)
    requires Preempted(k, true) && k1 == Put(k, OTHER, OTHER_AWAKE.(cap := 1)) && c == CallFlagsWait(MSG_WAITING, WaitAny)
    ensures Legal(k1, Sync(c)) && Listening(Next(k1, Sync(c)), false)
  {
    assert OTHER_AWAKE.flags * MSG_WAITING == {};
    assert [OTHER][1..] == [];
    LeftRq(k.s.rq, Next(k1, Sync(c)).s.rq);
  }

  lemma ListenBack(k: K)
    requires Listening(k, false)
    ensures Listening(Next(k, Schedule), true)
  {
    BestIs(k.s.rq, PRIO_MAIN);
  }

  lemma QueueTaken(b: Setup, steps0: seq<Step>, k0: K) returns (steps: seq<Step>, k: K)
    requires Reached(b, steps0, k0) && Preempted(k0, true)
    ensures Reached(b, steps, k) && k == Put(k0, OTHER, OTHER_AWAKE.(cap := 1))
  {
    QueueStep(k0);
    Extend(b, steps0, k0, Mailing(CallInitQueue(1)));
    steps, k := steps0 + [Mailing(CallInitQueue(1))], Next(k0, Mailing(CallInitQueue(1)));
  }

  lemma ListenTaken(b: Setup, steps1: seq<Step>, k0: K, k1: K, c: SyncCall) returns (steps: seq<Step>, k: K)
    requires Reached(b, steps1, k1) && Preempted(k0, true) && k1 == Put(k0, OTHER, OTHER_AWAKE.(cap := 1))
    requires c == CallFlagsWait(MSG_WAITING, WaitAny)
    ensures Reached(b, steps, k) && Listening(k, true)
  {
    ListenStep(k0, k1, c);
    Extend(b, steps1, k1, Sync(c));
    var steps2, k2 := steps1 + [Sync(c)], Next(k1, Sync(c));
    ListenBack(k2);
    Extend(b, steps2, k2, Schedule);
    steps, k := steps2 + [Schedule], Next(k2, Schedule);
  }

  lemma WakingStep(k: K, a: Step, buf: Addr)
    requires Listening(k, true) && a == Mailing(CallSend(buf, OTHER, true)) && buf.owner == PID_MAIN
    ensures Legal(k, a) && Skips(k, a) && !Next(k, a).s.pend
  {
    assert 15 in MSG_WAITING && 15 in (OTHER_AWAKE.flags + MSG_WAITING) * MSG_WAITING;
  }

  /** A message for a better thread that waits for the message flag: it is woken, and
      waits although nothing is pending. */
  lemma SilentMessage(b: Setup, buf: Addr) returns (steps: seq<Step>, k: K)
    requires b.f2 == {} && b.flagsOn && buf.owner == PID_MAIN
    ensures Reached(b, steps, k) && !k.s.pend && !StrictPriority(k)
  {
    var steps0, k0 := Preempt(b);
    var steps1, k1 := QueueTaken(b, steps0, k0);
    var steps2, k2 := ListenTaken(b, steps1, k0, k1, CallFlagsWait(MSG_WAITING, WaitAny));
    steps, k := WakingTaken(b, steps2, k2, Mailing(CallSend(buf, OTHER, true)), buf);
  }

  lemma WakingTaken(b: Setup, steps0: seq<Step>, k0: K, a: Step, buf: Addr) returns (steps: seq<Step>, k: K)
    requires Reached(b, steps0, k0) && Listening(k0, true) && a == Mailing(CallSend(buf, OTHER, true)) && buf.owner == PID_MAIN
    ensures Reached(b, steps, k) && !k.s.pend && !StrictPriority(k)
  {
    WakingStep(k0, a, buf);
    Extend(b, steps0, k0, a);
    StepLaxExactly(k0, a);
    steps, k := steps0 + [a], Next(k0, a);
    PriorityIffNotLax(k);
  }
}
