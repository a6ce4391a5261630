/** What every step does to the records of messages sent and received. */
module KernelLogs {
  import opened KernelTypes
  import opened KernelSpec
  import opened KernelStruct
  import opened KernelInv
  import opened KernelRuns

  /** Message m from s to r. */
  datatype Letter = Letter(s: Pid, r: Pid, m: Msg)

  function Stamped(m: Msg, s: Pid): Msg {
    m.(sender := s)
  }

  /** The message that the kernel takes over in step a: its sender is told that it was
      sent, or blocks with it. */
  function Accepted(k: K, a: Step): Option<Letter> {
    match a
    case Mailing(CallSend(buf, target, block)) =>
      if SendReturns(k, target, block) == 1 then Some(Letter(k.s.active, target, Stamped(Read(k.x.mem, buf), k.s.active))) else None
    case Mailing(CallSendReceive(m, _, target)) =>
      if target in k.thr then Some(Letter(k.s.active, target, Stamped(m, k.s.active))) else None
    case Irq(IrqSend(m, target)) =>
      if SendResult(k, target, false) == 1 then Some(Letter(PID_ISR, target, Stamped(m, PID_ISR))) else None
    case _ => None
  }

  predicate Awaits(k: K, t: Pid) {
    t in k.thr && k.thr[t].status.ReceiveBlocked?
  }

  /** What a receive finds: the oldest queued message, else that of the first waiting sender. */
  function Found(k: K): Option<Msg> {
    if Me(k).inbox != [] then Some(Me(k).inbox[0])
    else
      var q := List(k.w.lists, MsgWaiters(k.s.active));
      if q != [] then Some(WaitingMsg(k.x.mem, Th(k.thr, q[0]))) else None
  }

  /** The message that a receiver gets in step a: the active thread, or one that waited. */
  function HandedOver(k: K, a: Step): Option<Letter> {
    match a
    case Mailing(CallReceive(_, _)) =>
      var m := Found(k);
      if m.Some? then Some(Letter(m.value.sender, k.s.active, m.value)) else None
    case Mailing(CallSend(_, target, _)) => if target != k.s.active && Awaits(k, target) then Accepted(k, a) else None
    case Mailing(CallSendReceive(_, _, target)) => if Awaits(k, target) then Accepted(k, a) else None
    case Irq(IrqSend(_, target)) => if Awaits(k, target) then Accepted(k, a) else None
    case _ => None
  }

  function Noted(log: map<(Pid, Pid), seq<Msg>>, p: Option<Letter>): map<(Pid, Pid), seq<Msg>> {
    if p.Some? then Append(log, p.value.s, p.value.r, p.value.m) else log
  }

  // ---------------------------------------------------------------- steps without messages

  predicate SameLogs(k: K, k': K) {
    k'.x.sent == k.x.sent && k'.x.rcvd == k.x.rcvd
  }

  lemma ReleaseLogs(k: K, m: MutexId)
    ensures SameLogs(k, Release(k, m)) && SameLogs(k, Unlock(k, m)) && SameLogs(k, UnlockAndSleep(k, m))
  {
  }

  lemma CondWaitLogs(k: K, c: CondId, m: MutexId)
    ensures SameLogs(k, CondWait(k, c, m))
  {
    ReleaseLogs(k, m);
  }

  lemma {:induction false} WakeAllLogs(k: K, c: CondId)
    ensures SameLogs(k, WakeAll(k, c))
    decreases |List(k.w.lists, CondQ(c))|
  {
    if List(k.w.lists, CondQ(c)) != [] { WakeAllLogs(WakeHead(k, CondQ(c)), c); }
  }

  lemma SignalLogs(k: K, c: CondId, broadcast: bool)
    ensures SameLogs(k, Signal(k, c, broadcast))
  {
    WakeAllLogs(k, c);
  }

  lemma SyncLogs(k: K, a: SyncCall)
    requires !a.CallExit?
    ensures SameLogs(k, NextSync(k, a))
  {
    match a
    case CallUnlock(m) => ReleaseLogs(k, m);
    case CallUnlockAndSleep(m) => ReleaseLogs(k, m);
    case CallCondWait(c, m) => CondWaitLogs(k, c, m);
    case CallSignal(c, broadcast) => SignalLogs(k, c, broadcast);
    case _ => PlainLogs(k, a);
  }

  lemma PlainLogs(k: K, a: SyncCall)
    requires !a.CallExit? && !a.CallUnlock? && !a.CallUnlockAndSleep? && !a.CallCondWait? && !a.CallSignal?
    ensures SameLogs(k, NextSync(k, a))
  {
  }

  lemma RunLogs(k: K)
    ensures SameLogs(k, SchedRun(k))
  {
  }

  lemma GoLogs(k: K, a: Resume)
    ensures SameLogs(k, NextGo(k, a))
  {
  }

  /** Replies are no messages of their own: they are what OnlyRepliesAnswer is about. */
  lemma ReplyLogs(k: K, t: Pid, m: Msg)
    ensures SameLogs(k, Reply(k, t, m)) && SameLogs(k, ReplyInt(k, t, m))
  {
  }

  // ---------------------------------------------------------------- sending

  lemma FlagLogs(k: K, t: Pid)
    ensures RaiseMsgFlag(k, t).x == k.x
  {
  }

  lemma QueuedLogs(k: K, target: Pid, m: Msg)
    ensures QueueMsg(k, target, m).x == k.x.(sent := Append(k.x.sent, m.sender, target, m))
    ensures SendQueued(k, target, m).x == QueueMsg(k, target, m).x
  {
    FlagLogs(LogSent(Put(k, target, Th(k.thr, target).(inbox := Th(k.thr, target).inbox + [m])), m.sender, target, m), target);
  }

  lemma DeliveredLogs(k: K, target: Pid, m: Msg)
    ensures Deliver(k, target, m).x.sent == Append(k.x.sent, m.sender, target, m)
    ensures Deliver(k, target, m).x.rcvd == Append(k.x.rcvd, m.sender, target, m)
  {
  }

  lemma WaitingLogs(k: K, buf: Addr, target: Pid, m: Msg)
    ensures SendWaiting(k, buf, target, m).x == k.x.(sent := Append(k.x.sent, k.s.active, target, m))
  {
    var me := Me(k);
    var reply := me.status.ReplyBlocked?;
    var k1 := Block(k, me.(wait := Buffer(buf), call := if reply then me.call else InSend(target)),
                    if reply then ReplyBlocked else SendBlocked);
    FlagLogs(LogSent(AddToList(k1, MsgWaiters(target), k.s.active), k.s.active, target, m), target);
  }

  /** The letter of a send by s, if it is accepted. */
  function LetterIf(yes: bool, s: Pid, r: Pid, m: Msg): Option<Letter> {
    if yes then Some(Letter(s, r, Stamped(m, s))) else None
  }

  lemma StampedLogs(k: K, buf: Addr, target: Pid, block: bool, m: Msg)
    requires Read(k.x.mem, buf) == m && m.sender == k.s.active
    ensures var k' := SendStamped(k, buf, target, block);
      && k'.x.sent == Noted(k.x.sent, LetterIf(SendResult(k, target, block) == 1, k.s.active, target, m))
      && k'.x.rcvd == Noted(k.x.rcvd, LetterIf(Awaits(k, target), k.s.active, target, m))
  {
    assert Stamped(m, k.s.active) == m;
    if target in k.thr {
      if Awaits(k, target) {
        DeliveredLogs(k, target, m);
      } else if HasRoom(k.thr[target]) {
        QueuedLogs(k, target, m);
      } else if block {
        WaitingLogs(k, buf, target, m);
      }
    }
  }

  /** msg_send and msg_try_send return 1 exactly when the message counts as sent, to
      another thread or to oneself; it counts as received at once exactly if the target
      was waiting for one. */
  lemma AcceptedIsLogged(k: K, buf: Addr, target: Pid, block: bool)
    ensures var k' := Send(k, buf, target, block); var m := Read(k.x.mem, buf);
      && k'.x.sent == Noted(k.x.sent, LetterIf(SendReturns(k, target, block) == 1, k.s.active, target, m))
      && k'.x.rcvd == Noted(k.x.rcvd, LetterIf(target != k.s.active && Awaits(k, target), k.s.active, target, m))
  {
    var k1 := Stamp(k, buf);
    var m := Read(k1.x.mem, buf);
    assert m == Stamped(Read(k.x.mem, buf), k.s.active) && SameLogs(k, k1) && k1.thr == k.thr;
    if target == k.s.active {
      QueuedLogs(k1, target, m);
    } else {
      StampedLogs(k1, buf, target, block, m);
    }
  }

  /** A request counts as sent exactly if its target exists. */
  lemma RequestIsLogged(k: K, m: Msg, reply: Addr, target: Pid)
    requires target != k.s.active
    ensures var k' := SendReceive(k, m, reply, target);
      && k'.x.sent == Noted(k.x.sent, LetterIf(target in k.thr, k.s.active, target, m))
      && k'.x.rcvd == Noted(k.x.rcvd, LetterIf(Awaits(k, target), k.s.active, target, m))
  {
    var k1 := AwaitReply(k, m, reply, target);
    var k2 := Stamp(k1, reply);
    assert Read(k2.x.mem, reply) == Stamped(m, k.s.active) && SameLogs(k, k2) && k2.s.active == k.s.active;
    assert (target in k2.thr <==> target in k.thr) && (target in k.thr ==> k2.thr[target] == k.thr[target]);
    StampedLogs(k2, reply, target, true, Stamped(m, k.s.active));
  }

  /** msg_send_int returns 1 exactly when the handler's message counts as sent. */
  lemma HandlerIsLogged(k: K, m: Msg, target: Pid)
    ensures var k' := SendInt(k, m, target);
      && k'.x.sent == Noted(k.x.sent, LetterIf(SendResult(k, target, false) == 1, PID_ISR, target, m))
      && k'.x.rcvd == Noted(k.x.rcvd, LetterIf(Awaits(k, target), PID_ISR, target, m))
  {
    DeliveredLogs(k, target, Stamped(m, PID_ISR));
    QueuedLogs(k, target, Stamped(m, PID_ISR));
  }

  // ---------------------------------------------------------------- receiving

  lemma RefillLogs(k: K)
    requires List(k.w.lists, MsgWaiters(k.s.active)) != []
    ensures Refill(k).x == k.x && Th(Refill(k).thr, k.s.active).call == Me(k).call
  {
  }

  /** A receive counts the message that it finds as received, and no other; it then has it,
      in its buffer. */
  lemma ReceiveIsLogged(k: K, buf: Addr, block: bool)
    requires k.s.active in k.thr && Me(k).call == User
    ensures var k' := Receive(k, buf, block); var m := Found(k);
      && k'.x.sent == k.x.sent
      && k'.x.rcvd == (if m.Some? then Append(k.x.rcvd, m.value.sender, k.s.active, m.value) else k.x.rcvd)
      && (m.Some? ==> Th(k'.thr, k.s.active).call == InReceive(buf, m) && Read(k'.x.mem, buf) == m.value)
  {
    if Me(k).inbox != [] {
      if List(k.w.lists, MsgWaiters(k.s.active)) != [] { RefillLogs(TakeQueued(k, buf)); }
    } else if List(k.w.lists, MsgWaiters(k.s.active)) != [] {
      TakenLogs(k, buf, Found(k).value);
    }
  }

  lemma TakenLogs(k: K, buf: Addr, m: Msg)
    requires k.s.active in k.thr && Me(k).inbox == [] && List(k.w.lists, MsgWaiters(k.s.active)) != [] && Found(k) == Some(m)
    ensures var k' := TakeWaiting(k, buf);
      && k'.x.sent == k.x.sent && k'.x.rcvd == Append(k.x.rcvd, m.sender, k.s.active, m)
      && Th(k'.thr, k.s.active).call == InReceive(buf, Some(m)) && Read(k'.x.mem, buf) == m
  {
    var k1 := Put(k, k.s.active, Me(k).(wait := Buffer(buf), call := InReceive(buf, Some(m))));
    var k2 := LogRcvd(Write(k1, buf, m), m.sender, k.s.active, m);
    FreedCall(k2, List(k.w.lists, MsgWaiters(k.s.active))[0]);
  }

  /** Releasing the first waiter touches no message and no call. */
  lemma FreedCall(k: K, s: Pid)
    requires k.s.active in k.thr && List(k.w.lists, MsgWaiters(k.s.active)) != []
    ensures var k' := ReleaseSender(RemoveHead(k, MsgWaiters(k.s.active)), s);
      k'.x == k.x && Th(k'.thr, k.s.active).call == Me(k).call
  {
  }

  /** A message that is handed to a waiting thread arrives in its buffer. */
  lemma DeliveredArrives(k: K, t: Pid, m: Msg)
    requires Inv(k) && Awaits(k, t)
    ensures k.thr[t].call.InReceive? && Th(Deliver(k, t, m).thr, t).call == InReceive(k.thr[t].call.buf, Some(m))
    ensures Read(Deliver(k, t, m).x.mem, k.thr[t].call.buf) == m
  {
    assert Agree(t, k.thr[t]);
  }

  // ---------------------------------------------------------------- every step

  lemma MailLogs(k: K, a: MailCall)
    requires Executes(k) && Me(k).call == User && k.s.active in k.thr && LegalMail(k, a)
    ensures NextMail(k, a).x.sent == Noted(k.x.sent, Accepted(k, Mailing(a)))
    ensures NextMail(k, a).x.rcvd == Noted(k.x.rcvd, HandedOver(k, Mailing(a)))
  {
    match a
    case CallSend(buf, target, block) => AcceptedIsLogged(k, buf, target, block);
    case CallSendReceive(m, buf, target) => RequestIsLogged(k, m, buf, target);
    case CallReply(t, m) => ReplyLogs(k, t, m);
    case CallReceive(buf, block) => ReceiveIsLogged(k, buf, block);
    case _ =>
  }

  lemma HandlerLogs(k: K, a: Handler)
    ensures Handle(k, a).x.sent == Noted(k.x.sent, Accepted(k, Irq(a)))
    ensures Handle(k, a).x.rcvd == Noted(k.x.rcvd, HandedOver(k, Irq(a)))
  {
    match a
    case IrqSignal(c, broadcast) => SignalLogs(k, c, broadcast);
    case IrqSend(m, target) => HandlerIsLogged(k, m, target);
    case IrqReply(t, m) => ReplyLogs(k, t, m);
    case _ =>
  }

  /** Every step but an exit records exactly what it accepts and what it hands over. */
  lemma StepLogs(k: K, a: Step)
    requires k.s.active in k.thr && Legal(k, a) && !Quits(a)
    ensures Next(k, a).x.sent == Noted(k.x.sent, Accepted(k, a))
    ensures Next(k, a).x.rcvd == Noted(k.x.rcvd, HandedOver(k, a))
  {
    match a
    case Schedule => RunLogs(k);
    case Sync(c) => SyncLogs(k, c);
    case Mailing(c) => MailLogs(k, c);
    case Go(c) => GoLogs(k, c);
    case Irq(c) => HandlerLogs(k, c);
  }

  predicate Quits(a: Step) {
    a.Sync? && a.sc.CallExit?
  }

  /** An exit ends the records of what was sent to the thread. */
  lemma ExitLogs(k: K, s: Pid, r: Pid)
    ensures Log(Exit(k).x.sent, s, r) == if r == k.s.active then [] else Log(k.x.sent, s, r)
    ensures Log(Exit(k).x.rcvd, s, r) == if r == k.s.active then [] else Log(k.x.rcvd, s, r)
  {
  }
}
