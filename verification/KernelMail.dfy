/** Every messaging call keeps the invariant: no message is lost, doubled or
    overtaken on its way from a sender to a receiver. */
module KernelMail {
  import opened KernelTypes
  import opened KernelSpec
  import opened KernelStruct
  import opened KernelInv
  import opened KernelSteps
  import opened KernelThreads

  // ---------------------------------------------------------------- logs and queues

  lemma FromAppend(q: seq<Msg>, m: Msg, s: Pid)
    ensures From(q + [m], s) == From(q, s) + (if m.sender == s then [m] else [])
  {
    assert (q + [m])[..|q|] == q;
  }

  lemma {:induction false} FromHead(q: seq<Msg>, s: Pid)
    requires q != []
    ensures From(q, s) == (if q[0].sender == s then [q[0]] else []) + From(q[1..], s)
  {
    if |q| == 1 {
      assert q == [] + [q[0]];
      FromAppend([], q[0], s);
    } else {
      var i, m := q[..|q| - 1], q[|q| - 1];
      FromHead(i, s);
      assert q == i + [m] && q[1..] == i[1..] + [m];
      FromAppend(i, m, s);
      FromAppend(i[1..], m, s);
    }
  }

  lemma LogAppend(log: map<(Pid, Pid), seq<Msg>>, s: Pid, r: Pid, m: Msg, s': Pid, r': Pid)
    ensures Log(Append(log, s, r, m), s', r') == Log(log, s', r') + (if (s', r') == (s, r) then [m] else [])
  {
  }

  lemma AppendChain(a: seq<Msg>, b: seq<Msg>, c: seq<Msg>, e: seq<Msg>)
    requires a == b + c + []
    ensures a + e == b + (c + e) + []
  {
  }

  /** Nobody waits to send to a thread whose waiter list is empty. */
  lemma NobodyWaits(thr: map<Pid, Thread>, lists: map<ListRef, seq<Pid>>, mem: map<Addr, Msg>, s: Pid, r: Pid)
    requires Lists(thr, lists) && List(lists, MsgWaiters(r)) == []
    ensures Waiting(thr, mem, s, r) == []
  {
    assert s !in List(lists, MsgWaiters(r));
  }

  // ---------------------------------------------------------------- writing buffers

  /** Writing a buffer concerns its owner only: every other thread's call uses its
      own buffers. */
  lemma WriteKeeps(k: K, a: Addr, m: Msg)
    requires Content(k)
    requires a.owner in k.thr ==> !WaitsToSend(k.thr[a.owner]) && Kept(k.x.mem[a := m], a.owner, k.thr[a.owner])
    ensures Content(Write(k, a, m))
  {
    var mem' := k.x.mem[a := m];
    forall t | t in k.thr ensures Kept(mem', t, k.thr[t]) {
      assert Agree(t, k.thr[t]) && Kept(k.x.mem, t, k.thr[t]);
      if t != a.owner { WriteElsewhere(k.x.mem, a, m, t, k.thr[t]); }
    }
    forall s, r ensures Channel(k.thr, mem', k.x.sent, k.x.rcvd, s, r) {
      assert Channel(k.thr, k.x.mem, k.x.sent, k.x.rcvd, s, r);
      if s in k.thr && s != a.owner {
        assert Agree(s, k.thr[s]) && Kept(k.x.mem, s, k.thr[s]);
        WriteElsewhere(k.x.mem, a, m, s, k.thr[s]);
      }
    }
  }

  lemma WriteElsewhere(mem: map<Addr, Msg>, a: Addr, m: Msg, t: Pid, th: Thread)
    requires Agree(t, th) && Kept(mem, t, th) && t != a.owner
    ensures Kept(mem[a := m], t, th)
    ensures WaitsToSend(th) ==> WaitingMsg(mem[a := m], th) == WaitingMsg(mem, th)
  {
  }

  /** The active thread writes one of its own buffers. */
  lemma OwnWriteKeeps(k: K, a: Addr, m: Msg)
    requires Base(k) && Content(k) && k.s.active in k.thr && a.owner == k.s.active
    requires Me(k).on == None && (Me(k).call == User || Me(k).status.ReplyBlocked?)
    ensures Base(Write(k, a, m)) && Content(Write(k, a, m))
  {
    assert Agree(k.s.active, Me(k));
    WriteKeeps(k, a, m);
  }

  lemma StoreKeeps(k: K, a: Addr, m: Msg)
    requires CanCall(k) && a.owner == k.s.active
    ensures Inv(Write(k, a, m))
  {
    ActiveFacts(k);
    OwnWriteKeeps(k, a, m);
    SameReady(k, Write(k, a, m));
  }

  // ---------------------------------------------------------------- a message arrives in a queue

  lemma EnqueueChannel(k: K, t: Pid, m: Msg, th: Thread, s: Pid, r: Pid)
    requires Lists(k.thr, k.w.lists) && t in k.thr && List(k.w.lists, MsgWaiters(t)) == []
    requires Channel(k.thr, k.x.mem, k.x.sent, k.x.rcvd, s, r)
    requires th == k.thr[t].(inbox := k.thr[t].inbox + [m])
    ensures Channel(k.thr[t := th], k.x.mem, Append(k.x.sent, m.sender, t, m), k.x.rcvd, s, r)
  {
    LogAppend(k.x.sent, m.sender, t, m, s, r);
    assert Waiting(k.thr[t := th], k.x.mem, s, r) == Waiting(k.thr, k.x.mem, s, r);
    if r == t {
      FromAppend(k.thr[t].inbox, m, s);
      NobodyWaits(k.thr, k.w.lists, k.x.mem, s, t);
      AppendChain(Log(k.x.sent, s, t), Log(k.x.rcvd, s, t), From(k.thr[t].inbox, s), if m.sender == s then [m] else []);
    }
  }

  lemma EnqueueChannels(k: K, t: Pid, m: Msg, th: Thread)
    requires Base(k) && Content(k) && t in k.thr && List(k.w.lists, MsgWaiters(t)) == []
    requires th == k.thr[t].(inbox := k.thr[t].inbox + [m])
    ensures Channels(k.thr[t := th], k.x.mem, Append(k.x.sent, m.sender, t, m), k.x.rcvd)
  {
    var thr', sent' := k.thr[t := th], Append(k.x.sent, m.sender, t, m);
    forall s, r ensures Channel(thr', k.x.mem, sent', k.x.rcvd, s, r) {
      EnqueueChannel(k, t, m, th, s, r);
    }
  }

  /** The state of queue_msg before the flag is raised. */
  function Enqueue(k: K, t: Pid, m: Msg): K {
    LogSent(Put(k, t, Th(k.thr, t).(inbox := Th(k.thr, t).inbox + [m])), m.sender, t, m)
  }

  lemma EnqueueKeeps(k: K, t: Pid, m: Msg)
    requires Base(k) && Content(k) && t in k.thr && HasRoom(k.thr[t]) && !k.thr[t].status.ReceiveBlocked?
    ensures Base(Enqueue(k, t, m)) && Content(Enqueue(k, t, m))
  {
    OwnFacts(k, t);
    var th := k.thr[t].(inbox := k.thr[t].inbox + [m]);
    assert List(k.w.lists, MsgWaiters(t)) == [];
    PutKeepsBase(k, t, th);
    EnqueueChannels(k, t, m, th);
    MutexesPut(k.thr, k.w.lists, k.l.marked, k.l.holder, t, th);
  }

  lemma RaiseMsgFlagKeeps(k: K, t: Pid)
    requires Base(k) && Content(k) && t in k.thr && k.s.active in k.thr
    ensures Base(RaiseMsgFlag(k, t)) && Content(RaiseMsgFlag(k, t)) && RaisedSched(k, RaiseMsgFlag(k, t), t)
  {
    if k.flagsOn { RaiseFlagsKeeps(k, t, MSG_WAITING); }
  }

  lemma QueueMsgKeeps(k: K, t: Pid, m: Msg)
    requires Base(k) && Content(k) && k.s.active in k.thr
    requires t in k.thr && HasRoom(k.thr[t]) && !k.thr[t].status.ReceiveBlocked?
    ensures Base(QueueMsg(k, t, m)) && Content(QueueMsg(k, t, m)) && RaisedSched(k, QueueMsg(k, t, m), t)
  {
    var k1 := Enqueue(k, t, m);
    EnqueueKeeps(k, t, m);
    RaiseMsgFlagKeeps(k1, t);
    RaisedFrom(k, k1, RaiseMsgFlag(k1, t), t, k.thr[t].(inbox := k.thr[t].inbox + [m]));
  }

  lemma RaisedFrom(k: K, k1: K, k': K, t: Pid, th: Thread)
    requires RaisedSched(k1, k', t) && t in k.thr && k1.thr == k.thr[t := th] && k1.s == k.s
    requires th.prio == k.thr[t].prio && th.status == k.thr[t].status
    ensures RaisedSched(k, k', t)
  {
  }

  // ---------------------------------------------------------------- a message arrives in a waiting buffer

  lemma DeliverChannels(k: K, t: Pid, m: Msg)
    requires Base(k) && Content(k) && t in k.thr && k.thr[t].inbox == [] && List(k.w.lists, MsgWaiters(t)) == []
    ensures Channels(k.thr, k.x.mem, Append(k.x.sent, m.sender, t, m), Append(k.x.rcvd, m.sender, t, m))
  {
    forall s, r ensures Channel(k.thr, k.x.mem, Append(k.x.sent, m.sender, t, m), Append(k.x.rcvd, m.sender, t, m), s, r) {
      assert Channel(k.thr, k.x.mem, k.x.sent, k.x.rcvd, s, r);
      LogAppend(k.x.sent, m.sender, t, m, s, r);
      LogAppend(k.x.rcvd, m.sender, t, m, s, r);
      NobodyWaits(k.thr, k.w.lists, k.x.mem, s, t);
    }
  }

  /** The message is copied to where the blocked thread's call expects it. */
  lemma HandOverWrite(k: K, t: Pid, m: Msg)
    requires Content(k) && t in k.thr && k.thr[t].on == None
    requires k.thr[t].status.ReceiveBlocked? || k.thr[t].status.ReplyBlocked?
    ensures var k1 := CopyOut(k, k.thr[t].wait, m); var th := k.thr[t].(call := Handed(k.thr[t].call, m), status := Pending);
            && Content(k1) && k1 == k.(x := k.x.(mem := k1.x.mem))
            && Agree(t, th) && Kept(k1.x.mem, t, th)
            && (forall m :: Holds(th, m) == Holds(k.thr[t], m))
  {
    OwnFacts(k, t);
    WriteKeeps(k, k.thr[t].wait.addr, m);
  }

  /** A blocked thread is handed the message its call waits for. */
  lemma HandOver(k: K, t: Pid, m: Msg)
    requires Base(k) && Content(k) && t in k.thr && k.thr[t].on == None
    requires k.thr[t].status.ReceiveBlocked? || k.thr[t].status.ReplyBlocked?
    ensures var k1 := CopyOut(k, k.thr[t].wait, m); var th := k.thr[t].(call := Handed(k.thr[t].call, m));
            var k' := SetStatus(Put(k1, t, th), t, Pending);
            && Base(k') && Content(k') && k'.thr == k.thr[t := th.(status := Pending)]
            && k'.s == k.s.(rq := k.s.rq[th.prio := Rq(k.s.rq, th.prio) + [t]])
            && k'.w == k.w && k'.l == k.l && k'.x == k1.x
  {
    HandOverWrite(k, t, m);
    var k1 := CopyOut(k, k.thr[t].wait, m);
    var th := k.thr[t].(call := Handed(k.thr[t].call, m));
    HandOverJoins(k1, t, th);
    assert MailOk(k.thr[t], List(k.w.lists, MsgWaiters(t)));
    PutKeepsContent(k1, t, th.(status := Pending));
  }

  lemma HandOverJoins(k: K, t: Pid, th: Thread)
    requires Base(k) && t in k.thr && !OnRq(k.thr[t].status) && k.thr[t].on == None && th == k.thr[t].(call := th.call)
    ensures var k' := SetStatus(Put(k, t, th), t, Pending);
      && Base(k') && k'.thr == k.thr[t := th.(status := Pending)]
      && k'.s == k.s.(rq := k.s.rq[th.prio := Rq(k.s.rq, th.prio) + [t]]) && k'.w == k.w && k'.l == k.l && k'.x == k.x
  {
    PutKeepsBase(k, t, th);
    JoinKeepsBase(Put(k, t, th), t, Pending);
    JoinFacts(Put(k, t, th), t, Pending);
    assert k.thr[t := th][t := th.(status := Pending)] == k.thr[t := th.(status := Pending)];
  }

  lemma DeliverKeeps(k: K, t: Pid, m: Msg)
    requires Base(k) && Content(k) && t in k.thr && k.thr[t].status.ReceiveBlocked?
    ensures Base(Deliver(k, t, m)) && Content(Deliver(k, t, m))
    ensures Deliver(k, t, m).s.active == k.s.active && Deliver(k, t, m).thr.Keys == k.thr.Keys
  {
    OwnFacts(k, t);
    DeliverChannels(k, t, m);
    HandOver(LogRcvd(LogSent(k, m.sender, t, m), m.sender, t, m), t, m);
  }

  // ---------------------------------------------------------------- a sender waits

  /** Thread `me` starts to wait for `target` with message m. */
  ghost predicate StartsWaiting(k: K, me: Pid, th: Thread, target: Pid, m: Msg) {
    && me in k.thr && target in k.thr && me != target
    && !WaitsToSend(k.thr[me]) && th.on == Some(MsgWaiters(target))
    && WaitingMsg(k.x.mem, th) == m && m.sender == me
    && th.inbox == k.thr[me].inbox && th.cap == k.thr[me].cap && !th.status.ReceiveBlocked?
    && Agree(me, th)
    && (forall n :: Holds(th, n) == Holds(k.thr[me], n))
    && !k.thr[target].status.ReceiveBlocked? && !HasRoom(k.thr[target])
  }

  lemma WaitChannel(k: K, me: Pid, th: Thread, target: Pid, m: Msg, s: Pid, r: Pid)
    requires StartsWaiting(k, me, th, target, m) && Channel(k.thr, k.x.mem, k.x.sent, k.x.rcvd, s, r)
    ensures Channel(k.thr[me := th], k.x.mem, Append(k.x.sent, me, target, m), k.x.rcvd, s, r)
  {
    LogAppend(k.x.sent, me, target, m, s, r);
    if s == me && r == target {
      assert Waiting(k.thr, k.x.mem, s, r) == [];
      assert Waiting(k.thr[me := th], k.x.mem, s, r) == [m];
      assert Log(k.x.sent, s, r) == Log(k.x.rcvd, s, r) + From(Th(k.thr, r).inbox, s);
    } else {
      assert Waiting(k.thr[me := th], k.x.mem, s, r) == Waiting(k.thr, k.x.mem, s, r);
    }
  }

  lemma WaitMail(k: K, me: Pid, th: Thread, target: Pid, m: Msg, q: seq<Pid>)
    requires Content(k) && StartsWaiting(k, me, th, target, m)
    ensures Mail(k.thr[me := th], k.w.lists[MsgWaiters(target) := q])
  {
    var thr', lists' := k.thr[me := th], k.w.lists[MsgWaiters(target) := q];
    forall t | t in thr' ensures MailOk(thr'[t], List(lists', MsgWaiters(t))) {
      assert MailOk(k.thr[t], List(k.w.lists, MsgWaiters(t)));
    }
  }

  lemma WaitKeeps(k: K, k': K, me: Pid, th: Thread, target: Pid, m: Msg)
    requires Content(k) && StartsWaiting(k, me, th, target, m)
    requires k'.thr == k.thr[me := th] && k'.w.lists == k.w.lists[MsgWaiters(target) := List(k'.w.lists, MsgWaiters(target))]
    requires k'.l == k.l && k'.x == k.x.(sent := Append(k.x.sent, me, target, m))
    ensures Content(k')
  {
    WaitMail(k, me, th, target, m, List(k'.w.lists, MsgWaiters(target)));
    MutexesAside(k.thr, k.w.lists, k.l.marked, k.l.holder, me, th, MsgWaiters(target), List(k'.w.lists, MsgWaiters(target)));
    forall s, r ensures Channel(k'.thr, k'.x.mem, k'.x.sent, k'.x.rcvd, s, r) {
      WaitChannel(k, me, th, target, m, s, r);
    }
  }

  /** What _msg_send needs of its target to go send-blocked. */
  ghost predicate Busy(k: K, buf: Addr, target: Pid) {
    && target in k.thr && target != k.s.active
    && !k.thr[target].status.ReceiveBlocked? && !HasRoom(k.thr[target])
    && buf.owner == k.s.active && Read(k.x.mem, buf).sender == k.s.active
  }

  lemma SendWaitingKeeps(k: K, buf: Addr, target: Pid)
    requires Poised(k) && Me(k).call == User && Busy(k, buf, target)
    ensures Inv(SendWaiting(k, buf, target, Read(k.x.mem, buf)))
  {
    ActiveFacts(k);
    var th := Me(k).(wait := Buffer(buf), call := InSend(target));
    var th' := th.(status := SendBlocked, on := Some(MsgWaiters(target)), since := k.w.clock);
    var k2 := AddToList(Block(k, th, SendBlocked), MsgWaiters(target), k.s.active);
    JoinSenders(k, th, target, k2, th');
    SenderStarts(k, buf, target, th');
    WaitEnd(k, k2, k.s.active, th', target, Read(k.x.mem, buf));
  }

  lemma JoinSenders(k: K, th: Thread, target: Pid, k2: K, th': Thread)
    requires Base(k) && AtHead(k) && k.s.active != PID_IDLE && SamePlace(Me(k), th) && target in k.thr
    requires k2 == AddToList(Block(k, th, SendBlocked), MsgWaiters(target), k.s.active)
    requires th' == th.(status := SendBlocked, on := Some(MsgWaiters(target)), since := k.w.clock)
    ensures Base(k2) && k2.thr == k.thr[k.s.active := th'] && k2.s.active == k.s.active && k2.l == k.l && k2.x == k.x
    ensures k2.w.lists == k.w.lists[MsgWaiters(target) := List(k2.w.lists, MsgWaiters(target))]
  {
    BlockFacts(k, th, SendBlocked);
    BlockOnFacts(k, th, SendBlocked, k.l, MsgWaiters(target));
    var k1 := Block(k, th, SendBlocked);
    assert k1.(l := k.l) == k1;
  }

  lemma SenderStarts(k: K, buf: Addr, target: Pid, th: Thread)
    requires Content(k) && k.s.active in k.thr && Busy(k, buf, target) && Me(k).call == User && OnRq(Me(k).status) && Me(k).on == None
    requires th == Me(k).(wait := Buffer(buf), call := InSend(target), status := SendBlocked, on := Some(MsgWaiters(target)), since := k.w.clock)
    ensures StartsWaiting(k, k.s.active, th, target, Read(k.x.mem, buf))
  {
  }

  /** The end of _msg_send for a sender that has joined the list. */
  lemma WaitEnd(k: K, k2: K, me: Pid, th: Thread, target: Pid, m: Msg)
    requires Content(k) && Base(k2) && StartsWaiting(k, me, th, target, m)
    requires k2.thr == k.thr[me := th] && k2.w.lists == k.w.lists[MsgWaiters(target) := List(k2.w.lists, MsgWaiters(target))]
    requires k2.l == k.l && k2.x == k.x && k2.s.active in k2.thr
    ensures Inv(Pend(RaiseMsgFlag(LogSent(k2, me, target, m), target)))
  {
    var k3 := LogSent(k2, me, target, m);
    WaitKeeps(k, k3, me, th, target, m);
    RaiseMsgFlagKeeps(k3, target);
  }

  /** The caller of msg_send_receive waits in the list without changing its status. */
  lemma RequestWaitingKeeps(k: K, buf: Addr, target: Pid)
    requires Base(k) && Content(k) && k.s.active in k.thr && Busy(k, buf, target)
    requires Me(k).status.ReplyBlocked? && Me(k).on == None
    requires Me(k).call == InSendReceive(buf, target, None)
    ensures Inv(SendWaiting(k, buf, target, Read(k.x.mem, buf)))
  {
    OwnFacts(k, k.s.active);
    var me, m := k.s.active, Read(k.x.mem, buf);
    var th := Me(k).(wait := Buffer(buf));
    assert th == Me(k);
    var k1 := Block(k, th, ReplyBlocked);
    assert k1.thr == k.thr;
    assert forall p: nat :: Rq(k1.s.rq, p) == Rq(k.s.rq, p);
    QueuesSame(k.thr, k.s.rq, k1.s.rq);
    AddKeepsBase(k1, MsgWaiters(target), me);
    AddFacts(k1, MsgWaiters(target), me);
    var k2 := AddToList(k1, MsgWaiters(target), me);
    WaitEnd(k, k2, me, th.(on := Some(MsgWaiters(target)), since := k.w.clock), target, m);
  }

  // ---------------------------------------------------------------- msg_send

  lemma SendQueuedKeeps(k: K, target: Pid, m: Msg)
    requires Base(k) && Content(k) && k.s.active in k.thr
    requires target in k.thr && HasRoom(k.thr[target]) && !k.thr[target].status.ReceiveBlocked?
    requires Me(k).status.ReplyBlocked? || Ready(k)
    ensures Inv(SendQueued(k, target, m))
  {
    QueueMsgKeeps(k, target, m);
    var k1 := QueueMsg(k, target, m);
    if !Me(k).status.ReplyBlocked? {
      if OnRq(Th(k1.thr, target).status) && !OnRq(Th(k.thr, target).status) {
        LaxReady(k, k1, target);
      } else {
        SameReady(k, k1);
      }
    }
  }

  /** _msg_send after the sender was stamped, from a running thread. */
  lemma SendStampedKeeps(k: K, buf: Addr, target: Pid, block: bool)
    requires CanCall(k) && target != k.s.active
    requires buf.owner == k.s.active && Read(k.x.mem, buf).sender == k.s.active
    ensures Inv(SendStamped(k, buf, target, block))
  {
    if target in k.thr {
      ActiveFacts(k);
      if k.thr[target].status.ReceiveBlocked? {
        DeliverKeeps(k, target, Read(k.x.mem, buf));
      } else if HasRoom(k.thr[target]) {
        SendQueuedKeeps(k, target, Read(k.x.mem, buf));
      } else if block {
        SendWaitingKeeps(k, buf, target);
      }
    }
  }

  lemma SendKeeps(k: K, buf: Addr, target: Pid, block: bool)
    requires CanCall(k) && buf.owner == k.s.active
    ensures Inv(Send(k, buf, target, block))
  {
    ActiveFacts(k);
    StoreKeeps(k, buf, Read(k.x.mem, buf).(sender := k.s.active));
    var k1 := Stamp(k, buf);
    if target != k.s.active {
      SendStampedKeeps(k1, buf, target, block);
    } else if HasRoom(Me(k)) {
      QueueMsgKeeps(k1, k.s.active, Read(k1.x.mem, buf));
      SameReady(k1, QueueMsg(k1, k.s.active, Read(k1.x.mem, buf)));
    }
  }

  // ---------------------------------------------------------------- msg_send_receive and msg_reply

  lemma AwaitReplyKeeps(k: K, m: Msg, reply: Addr, target: Pid)
    requires CanCall(k) && reply.owner == k.s.active
    ensures var k' := AwaitReply(k, m, reply, target);
      && Base(k') && Content(k') && k'.s.active == k.s.active && k'.thr.Keys == k.thr.Keys
      && Me(k').status.ReplyBlocked? && Me(k').on == None && Me(k').call == InSendReceive(reply, target, None)
      && (forall t :: t in k.thr && t != k.s.active ==> k'.thr[t] == k.thr[t])
  {
    ActiveFacts(k);
    var th := Me(k).(wait := Buffer(reply), call := InSendReceive(reply, target, None));
    BlockFacts(k, th, ReplyBlocked);
    PutKeepsContent(k, k.s.active, th.(status := ReplyBlocked));
    OwnWriteKeeps(Block(k, th, ReplyBlocked), reply, m);
  }

  /** A request to an existing thread, whichever way it travels. */
  lemma SendReceiveKeeps(k: K, m: Msg, reply: Addr, target: Pid)
    requires CanCall(k) && reply.owner == k.s.active && target in k.thr && target != k.s.active
    ensures Inv(SendReceive(k, m, reply, target))
  {
    AwaitReplyKeeps(k, m, reply, target);
    var k1 := AwaitReply(k, m, reply, target);
    OwnWriteKeeps(k1, reply, Read(k1.x.mem, reply).(sender := k1.s.active));
    var k2 := Stamp(k1, reply);
    if k2.thr[target].status.ReceiveBlocked? {
      DeliverKeeps(k2, target, Read(k2.x.mem, reply));
    } else if HasRoom(k2.thr[target]) {
      SendQueuedKeeps(k2, target, Read(k2.x.mem, reply));
    } else {
      RequestWaitingKeeps(k2, reply, target);
    }
  }

  /** A reply is legal when the request it answers has been received. */
  predicate MayReply(k: K, t: Pid) {
    t in k.thr && k.thr[t].status.ReplyBlocked? ==> k.thr[t].on == None
  }

  lemma ReplyKeeps(k: K, t: Pid, m: Msg)
    requires Inv(k) && MayReply(k, t)
    ensures Inv(Reply(k, t, m))
  {
    if AwaitsReply(k, t) {
      HandOver(k, t, m);
      JoinGrows(k.s.rq, k.thr[t].prio, t);
      SwitchKeeps(k, ReplyTo(k, t, m), k.thr[t].prio);
    }
  }

  // ---------------------------------------------------------------- interrupt handlers

  lemma IsrEndKeeps(k: K)
    requires Base(k) && Content(k) && k.s.active in k.thr && (k.s.request || Ready(k))
    ensures Inv(IsrEnd(k))
  {
  }

  lemma SendIntKeeps(k: K, m: Msg, target: Pid)
    requires Inv(k)
    ensures Inv(IsrEnd(SendInt(k, m, target)))
  {
    var m' := m.(sender := PID_ISR);
    if target in k.thr {
      if k.thr[target].status.ReceiveBlocked? {
        DeliverKeeps(k, target, m');
      } else if HasRoom(k.thr[target]) {
        QueueMsgKeeps(k, target, m');
        if !QueueMsg(k, target, m').s.request { SameReady(k, QueueMsg(k, target, m')); }
      }
    }
    IsrEndKeeps(SendInt(k, m, target));
  }

  lemma ReplyIntKeeps(k: K, t: Pid, m: Msg)
    requires Inv(k) && MayReply(k, t)
    ensures Inv(IsrEnd(ReplyInt(k, t, m)))
  {
    if AwaitsReply(k, t) {
      HandOver(k, t, m);
    }
    IsrEndKeeps(ReplyInt(k, t, m));
  }
}
