/** Where the kernel relies on its callers, exactly: for each of these calls the
    invariant survives if and only if the stated condition held before it. */
module KernelLimits {
  import opened KernelTypes
  import opened KernelSpec
  import opened KernelStruct
  import opened KernelInv
  import opened KernelSteps
  import opened KernelThreads
  import opened KernelMail
  import opened KernelReceive
  import opened KernelRuns
  import opened KernelTheorems

  /** msg_send_receive has already left the run queue when it finds no target, and
      then returns without yielding. */
  lemma SendReceiveExact(k: K, m: Msg, reply: Addr, target: Pid)
    requires CanCall(k) && reply.owner == k.s.active && target != k.s.active
    ensures Inv(SendReceive(k, m, reply, target)) <==> target in k.thr
  {
    if target in k.thr {
      SendReceiveKeeps(k, m, reply, target);
    } else {
      AwaitReplyKeeps(k, m, reply, target);
      var k1 := AwaitReply(k, m, reply, target);
      var k' := SendReceive(k, m, reply, target);
      assert k' == Stamp(k1, reply);
      if AtHead(k') { HeadFacts(k', Me(k').prio); }
      ActiveFacts(k);
      BlockFacts(k, Me(k).(wait := Buffer(reply), call := InSendReceive(reply, target, None)), ReplyBlocked);
      assert !k'.s.pend;
    }
  }

  /** A reply to a request that still waits in a list would put one link field on two
      lists. */
  lemma ReplyExact(k: K, t: Pid, m: Msg)
    requires Inv(k)
    ensures Inv(Reply(k, t, m)) <==> MayReply(k, t)
  {
    if MayReply(k, t) {
      ReplyKeeps(k, t, m);
    } else {
      var k' := Reply(k, t, m);
      assert k'.thr[t].on.Some? && OnRq(k'.thr[t].status);
    }
  }

  /** Setting up a queue drops what is queued, and a queue with room contradicts
      senders that already wait. */
  lemma InitQueueExact(k: K, n: nat)
    requires CanCall(k)
    ensures Inv(InitQueue(k, n)) <==> Me(k).inbox == [] && (List(k.w.lists, MsgWaiters(k.s.active)) == [] || n == 0)
  {
    ActiveFacts(k);
    var me := k.s.active;
    var k' := InitQueue(k, n);
    var th := Me(k).(inbox := [], cap := n);
    assert k'.thr[me] == th;
    if Me(k).inbox != [] {
      var s := Me(k).inbox[0].sender;
      FromHead(Me(k).inbox, s);
      assert Channel(k.thr, k.x.mem, k.x.sent, k.x.rcvd, s, me);
      assert Waiting(k'.thr, k'.x.mem, s, me) == Waiting(k.thr, k.x.mem, s, me);
      assert !Channel(k'.thr, k'.x.mem, k'.x.sent, k'.x.rcvd, s, me);
    } else if List(k.w.lists, MsgWaiters(me)) == [] {
      InitQueueKeeps(k, n);
    } else if n == 0 {
      assert th == Me(k) && k'.thr == k.thr;
    } else {
      assert !MailOk(k'.thr[me], List(k'.w.lists, MsgWaiters(me)));
    }
  }
}
