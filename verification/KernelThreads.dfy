/** Thread flags, thread creation and exit, and the return from a call keep the
    invariant. */
module KernelThreads {
  import opened KernelTypes
  import opened KernelSpec
  import opened KernelStruct
  import opened KernelInv
  import opened KernelSteps

  // ---------------------------------------------------------------- thread flags

  /** Raising flags never leaves a thread blocked that has what it waits for. */
  lemma AgreeRaised(t: Pid, th: Thread, mask: Flags)
    requires Agree(t, th)
    ensures var th' := th.(flags := th.flags + mask);
      if FlagsReady(th') then
        && Agree(t, th'.(status := Pending)) && !OnRq(th.status) && th.on == None
        && !th.status.ReceiveBlocked? && !th.call.InLock?
      else Agree(t, th')
  {
  }

  /** What raising flags leaves of the scheduler's state: nothing changes, or the
      thread joins its queue and a switch is requested. */
  ghost predicate RaisedSched(k: K, k': K, t: Pid) {
    && k'.thr.Keys == k.thr.Keys && Me(k').prio == Me(k).prio && Th(k'.thr, t).prio == Th(k.thr, t).prio
    && (if OnRq(Th(k'.thr, t).status) == OnRq(Th(k.thr, t).status) then k'.s == k.s
        else var p := Th(k.thr, t).prio;
          !OnRq(Th(k.thr, t).status) && k'.s == k.s.(request := true, rq := k.s.rq[p := Rq(k.s.rq, p) + [t]]))
  }

  lemma RaiseFlagsKeeps(k: K, t: Pid, mask: Flags)
    requires Base(k) && Content(k) && t in k.thr && k.s.active in k.thr
    ensures Base(RaiseFlags(k, t, mask)) && Content(RaiseFlags(k, t, mask))
    ensures RaisedSched(k, RaiseFlags(k, t, mask), t)
  {
    OwnFacts(k, t);
    AgreeRaised(t, k.thr[t], mask);
    var th := k.thr[t].(flags := k.thr[t].flags + mask);
    if FlagsReady(th) {
      WakeFlagged(k, t, th);
    } else {
      KeepFlagged(k, t, th);
    }
  }

  lemma KeepFlagged(k: K, t: Pid, th: Thread)
    requires Base(k) && Content(k) && t in k.thr
    requires Agree(t, th) && th == k.thr[t].(flags := th.flags)
    ensures Base(Put(k, t, th)) && Content(Put(k, t, th))
  {
    OwnFacts(k, t);
    PutKeepsBase(k, t, th);
    PutKeepsContent(k, t, th);
  }

  lemma WakeFlagged(k: K, t: Pid, th: Thread)
    requires Base(k) && Content(k) && t in k.thr && k.s.active in k.thr
    requires SamePlace(k.thr[t], th) && !OnRq(th.status) && th.on == None && Agree(t, th.(status := Pending))
    requires th == k.thr[t].(flags := th.flags) && !th.status.ReceiveBlocked? && !th.call.InLock?
    ensures var k' := SetStatus(Put(k, t, th), t, Pending);
      && Base(k') && Content(k')
      && k'.s == k.s.(rq := k.s.rq[th.prio := Rq(k.s.rq, th.prio) + [t]])
      && k'.thr == k.thr[t := th.(status := Pending)]
  {
    OwnFacts(k, t);
    PutKeepsBase(k, t, th);
    var k1 := Put(k, t, th);
    JoinKeepsBase(k1, t, Pending);
    JoinFacts(k1, t, Pending);
    assert k1.thr[t := th.(status := Pending)] == k.thr[t := th.(status := Pending)];
    PutKeepsContent(k, t, th.(status := Pending));
  }

  lemma FlagsSetKeeps(k: K, t: Pid, mask: Flags)
    requires Inv(k)
    ensures Inv(FlagsSet(k, t, mask))
  {
    if t in k.thr {
      RaiseFlagsKeeps(k, t, mask);
    }
  }

  /** The test that decides whether a flag wait returns at once. */
  predicate Enough(flags: Flags, mask: Flags, kind: FlagWait) {
    if kind == WaitAll then flags * mask == mask else flags * mask != {}
  }

  lemma FlagsGoOn(k: K, mask: Flags, kind: FlagWait)
    requires CanCall(k) && Enough(Me(k).flags, mask, kind)
    ensures Inv(Put(k, k.s.active, Me(k).(call := InFlags(mask, kind))))
  {
    ActiveFacts(k);
    var th := Me(k).(call := InFlags(mask, kind));
    assert kind == WaitAll ==> mask <= th.flags;
    PutKeepsBase(k, k.s.active, th);
    PutKeepsContent(k, k.s.active, th);
  }

  lemma FlagsBlock(k: K, mask: Flags, kind: FlagWait, s: Status)
    requires CanCall(k) && !Enough(Me(k).flags, mask, kind)
    requires s == if kind == WaitAll then FlagBlockedAll else FlagBlockedAny
    ensures Inv(Pend(Block(k, Me(k).(call := InFlags(mask, kind), wait := FlagMask(mask)), s)))
  {
    ActiveFacts(k);
    var th := Me(k).(call := InFlags(mask, kind), wait := FlagMask(mask));
    BlockFacts(k, th, s);
    assert mask <= th.flags ==> th.flags * mask == mask;
    PutKeepsContent(k, k.s.active, th.(status := s));
  }

  lemma FlagsWaitKeeps(k: K, mask: Flags, kind: FlagWait)
    requires CanCall(k)
    ensures Inv(FlagsWait(k, mask, kind))
  {
    if Enough(Me(k).flags, mask, kind) {
      FlagsGoOn(k, mask, kind);
    } else {
      FlagsBlock(k, mask, kind, if kind == WaitAll then FlagBlockedAll else FlagBlockedAny);
    }
  }

  lemma {:induction false} LowestFacts(w: Flags, from: nat)
    requires from <= 16 && forall b :: b in w ==> from <= b
    ensures Lowest(w, from) <= w
    ensures w != {} ==> |Lowest(w, from)| == 1
    ensures forall b, l :: b in w && l in Lowest(w, from) ==> l <= b
    decreases 16 - from
  {
    if from < 16 && from !in w {
      LowestFacts(w, from + 1);
    }
  }

  lemma FlagsPickKeeps(k: K)
    requires CanGoOn(k) && Me(k).call.InFlags? && Me(k).call.kind == WaitOne
    ensures Inv(FlagsPick(k))
  {
    ActiveFacts(k);
    var w := Me(k).flags * Me(k).call.mask;
    LowestFacts(w, 0);
    var th := Me(k).(call := InFlagsPicked(Me(k).call.mask, Lowest(w, 0)));
    PutKeepsBase(k, k.s.active, th);
    PutKeepsContent(k, k.s.active, th);
  }

  lemma FlagsTakeKeeps(k: K)
    requires CanGoOn(k) && (Me(k).call.InFlags? || Me(k).call.InFlagsPicked?)
    ensures Inv(FlagsTake(k))
  {
    ActiveFacts(k);
    var th := Me(k).(flags := Me(k).flags - FlagsResult(k), call := User);
    PutKeepsBase(k, k.s.active, th);
    PutKeepsContent(k, k.s.active, th);
  }

  lemma FlagsClearKeeps(k: K, mask: Flags)
    requires CanCall(k)
    ensures Inv(FlagsClear(k, mask))
  {
    ActiveFacts(k);
    var th := Me(k).(flags := Me(k).flags - mask);
    PutKeepsBase(k, k.s.active, th);
    PutKeepsContent(k, k.s.active, th);
  }

  // ---------------------------------------------------------------- returning

  /** Calls that return without another step. */
  predicate Returns(c: Call) {
    c.InSleep? || c.InLock? || c.InReceive? || c.InSend? || c.InSendReceive?
  }

  lemma ReturnKeeps(k: K)
    requires CanGoOn(k) && Returns(Me(k).call)
    ensures Inv(Return(k))
  {
    ActiveFacts(k);
    var th := match Me(k).call
              case InLock(m) => Me(k).(call := User, has := Me(k).has + {m})
              case _ => Me(k).(call := User);
    PutKeepsBase(k, k.s.active, th);
    PutKeepsContent(k, k.s.active, th);
  }

  // ---------------------------------------------------------------- creation

  lemma NewThreadBase(k: K, t: Pid, th: Thread)
    requires Base(k) && t !in k.thr && PID_FIRST <= t <= PID_LAST
    requires th.prio < PRIO_LEVELS && !OnRq(th.status) && th.on == None
    ensures Base(Put(k, t, th))
  {
    var k' := Put(k, t, th);
    forall p: nat, x ensures x in Rq(k'.s.rq, p) <==> x in k'.thr && k'.thr[x].prio == p && OnRq(k'.thr[x].status) {
      assert x in Rq(k.s.rq, p) <==> x in k.thr && k.thr[x].prio == p && OnRq(k.thr[x].status);
    }
    forall r, x ensures x in List(k'.w.lists, r) <==> x in k'.thr && k'.thr[x].on == Some(r) {
      assert x in List(k.w.lists, r) <==> x in k.thr && k.thr[x].on == Some(r);
    }
    forall r ensures Sorted(k'.thr, List(k'.w.lists, r)) {
      assert Sorted(k.thr, List(k.w.lists, r));
      assert t !in List(k.w.lists, r);
      SortedFrame(k.thr, k'.thr, List(k.w.lists, r));
    }
  }

  /** A new thread owns nothing, waits for nothing and has received nothing. */
  lemma NewThreadContent(k: K, t: Pid, th: Thread)
    requires Base(k) && Content(k) && t !in k.thr
    requires Agree(t, th) && th.on == None && th.call == User && th.has == {} && th.inbox == []
    ensures Content(Put(k, t, th))
  {
    var thr' := k.thr[t := th];
    assert List(k.w.lists, MsgWaiters(t)) == [];
    forall s, r ensures Channel(thr', k.x.mem, k.x.sent, k.x.rcvd, s, r) {
      assert Channel(k.thr, k.x.mem, k.x.sent, k.x.rcvd, s, r);
    }
    forall x, m | x in thr' && Holds(thr'[x], m) ensures m in k.l.holder && k.l.holder[m] == x {
      assert Holds(k.thr[x], m);
    }
  }

  lemma CreateKeeps(k: K, prio: nat, asleep: bool, noYield: bool, flags: Flags)
    requires Inv(k)
    ensures Inv(Create(k, prio, asleep, noYield, flags))
  {
    var t := FreePid(k.thr, PID_FIRST);
    if prio < PRIO_LEVELS && t != 0 {
      var th := Thread(prio, Stopped, flags, NoData, [], 0, User, None, 0, {});
      NewThreadBase(k, t, th);
      var k1 := Put(k, t, th);
      if asleep {
        CreateAsleep(k, t, th);
      } else {
        CreateAwake(k, t, th);
        var k2 := SetStatus(k1, t, Pending);
        if noYield {
          LaxReady(k, k2, t);
        } else {
          SwitchKeeps(k, k2, prio);
        }
      }
    }
  }

  lemma CreateAsleep(k: K, t: Pid, th: Thread)
    requires Inv(k) && t !in k.thr && Base(Put(k, t, th))
    requires th.status.Stopped? && th.on == None && th.call == User && th.has == {} && th.inbox == [] && th.prio < PRIO_LEVELS
    ensures Inv(SetStatus(Put(k, t, th), t, Sleeping))
  {
    AsleepFacts(Put(k, t, th), t, th);
    var k' := SetStatus(Put(k, t, th), t, Sleeping);
    assert k'.thr == k.thr[t := th.(status := Sleeping)];
    NewThreadContent(k, t, th.(status := Sleeping));
  }

  lemma AsleepFacts(k: K, t: Pid, th: Thread)
    requires Base(k) && t in k.thr && k.thr[t] == th && th.status.Stopped? && th.on == None
    ensures var k' := SetStatus(k, t, Sleeping);
      && Base(k') && k' == Put(k, t, th.(status := Sleeping)).(s := k'.s) && k'.s == k.s.(rq := k'.s.rq)
      && (forall p: nat :: Rq(k'.s.rq, p) == Rq(k.s.rq, p))
  {
    PutKeepsBase(k, t, th.(status := Sleeping));
    var k' := SetStatus(k, t, Sleeping);
    assert forall p: nat :: Rq(k'.s.rq, p) == Rq(k.s.rq, p);
    QueuesSame(k'.thr, k.s.rq, k'.s.rq);
  }

  lemma QueuesSame(thr: map<Pid, Thread>, rq: map<nat, seq<Pid>>, rq': map<nat, seq<Pid>>)
    requires Queues(thr, rq) && forall p: nat :: Rq(rq', p) == Rq(rq, p)
    ensures Queues(thr, rq')
  {
    forall p: nat, t ensures t in Rq(rq', p) <==> t in thr && thr[t].prio == p && OnRq(thr[t].status) {
      assert Rq(rq', p) == Rq(rq, p);
    }
    forall p: nat ensures Distinct(Rq(rq', p)) {
      assert Rq(rq', p) == Rq(rq, p);
    }
  }

  lemma CreateAwake(k: K, t: Pid, th: Thread)
    requires Inv(k) && t !in k.thr && Base(Put(k, t, th))
    requires th.status.Stopped? && th.on == None && th.call == User && th.has == {} && th.inbox == [] && th.prio < PRIO_LEVELS
    ensures var k2 := SetStatus(Put(k, t, th), t, Pending);
      && Base(k2) && Content(k2)
      && k2.s == k.s.(rq := k.s.rq[th.prio := Rq(k.s.rq, th.prio) + [t]]) && Grown(k.s.rq, k2.s.rq, th.prio)
      && k.s.active in k2.thr && k2.thr[k.s.active].prio == k.thr[k.s.active].prio
  {
    var k1 := Put(k, t, th);
    JoinKeepsBase(k1, t, Pending);
    JoinFacts(k1, t, Pending);
    JoinGrows(k.s.rq, th.prio, t);
    assert k1.thr[t := th.(status := Pending)] == k.thr[t := th.(status := Pending)];
    NewThreadContent(k, t, th.(status := Pending));
  }

  /** A wake-up without a yield is exactly what `lax` records. */
  lemma LaxReady(k: K, k': K, t: Pid)
    requires Ready(k) && t in k'.thr
    requires k.s.active in k'.thr && k'.thr[k.s.active].prio == k.thr[k.s.active].prio
    requires var p := k'.thr[t].prio; k'.s.rq == k.s.rq[p := Rq(k.s.rq, p) + [t]]
    requires k'.s.active == k.s.active && k'.s.pend == k.s.pend && k'.s.lax == k.s.lax
    ensures Ready(NoteLax(k', k'.thr[t].prio))
  {
    var p := k'.thr[t].prio;
    if !k.s.pend {
      assert Rq(k'.s.rq, p) != [];
      forall q: nat ensures Rq(k.s.rq, q) <= Rq(k'.s.rq, q) && (q != p ==> Rq(k'.s.rq, q) == Rq(k.s.rq, q)) {
      }
      if k.s.lax {
        var q: nat :| q < Me(k).prio && Rq(k.s.rq, q) != [];
        assert Rq(k'.s.rq, q) != [];
      }
    }
  }

  // ---------------------------------------------------------------- exit

  lemma GoneQueues(thr: map<Pid, Thread>, rq: map<nat, seq<Pid>>, t: Pid)
    requires Table(thr) && Queues(thr, rq) && t in thr && t != PID_IDLE && !OnRq(thr[t].status)
    ensures Table(thr - {t}) && Queues(thr - {t}, rq)
  {
    var thr' := thr - {t};
    forall p: nat, x ensures x in Rq(rq, p) <==> x in thr' && thr'[x].prio == p && OnRq(thr'[x].status) {
      assert x in Rq(rq, p) <==> x in thr && thr[x].prio == p && OnRq(thr[x].status);
    }
  }

  lemma GoneLists(thr: map<Pid, Thread>, lists: map<ListRef, seq<Pid>>, clock: nat, t: Pid)
    requires Lists(thr, lists) && Order(thr, lists, clock) && t in thr && thr[t].on == None
    requires List(lists, MsgWaiters(t)) == []
    ensures Lists(thr - {t}, lists) && Order(thr - {t}, lists, clock)
  {
    var thr' := thr - {t};
    forall r, x ensures x in List(lists, r) <==> x in thr' && thr'[x].on == Some(r) {
      assert x in List(lists, r) <==> x in thr && thr[x].on == Some(r);
    }
    GoneOrder(thr, lists, clock, t);
  }

  lemma GoneOrder(thr: map<Pid, Thread>, lists: map<ListRef, seq<Pid>>, clock: nat, t: Pid)
    requires Order(thr, lists, clock) && forall r :: t !in List(lists, r)
    ensures Order(thr - {t}, lists, clock)
  {
    var thr' := thr - {t};
    forall r ensures Sorted(thr', List(lists, r)) {
      assert Sorted(thr, List(lists, r));
      SortedFrame(thr, thr', List(lists, r));
    }
  }

  lemma ForgetLog(log: map<(Pid, Pid), seq<Msg>>, t: Pid, s: Pid, r: Pid)
    ensures Log(Forget(log, t), s, r) == if r == t then [] else Log(log, s, r)
  {
  }

  lemma GoneChannels(k: K, t: Pid)
    requires Base(k) && Content(k) && t in k.thr && k.thr[t].on == None && List(k.w.lists, MsgWaiters(t)) == []
    ensures Channels(k.thr - {t}, k.x.mem, Forget(k.x.sent, t), Forget(k.x.rcvd, t))
  {
    var thr' := k.thr - {t};
    forall s, r ensures Channel(thr', k.x.mem, Forget(k.x.sent, t), Forget(k.x.rcvd, t), s, r) {
      assert Channel(k.thr, k.x.mem, k.x.sent, k.x.rcvd, s, r);
      ForgetLog(k.x.sent, t, s, r);
      ForgetLog(k.x.rcvd, t, s, r);
      assert s !in List(k.w.lists, MsgWaiters(t));
    }
  }

  lemma GoneMutexes(k: K, t: Pid)
    requires Content(k) && t in k.thr && forall m :: !Holds(k.thr[t], m)
    ensures Mutexes(k.thr - {t}, k.w.lists, k.l.marked, k.l.holder)
  {
    forall x, m | x in k.thr - {t} && Holds((k.thr - {t})[x], m) ensures m in k.l.holder && k.l.holder[m] == x {
      assert Holds(k.thr[x], m);
    }
  }

  /** The state in which sched_task_exit calls the scheduler. */
  function Gone(k: K): K {
    var k1 := SetStatus(k, k.s.active, Stopped);
    k1.(thr := k1.thr - {k.s.active}, x := k1.x.(sent := Forget(k1.x.sent, k.s.active), rcvd := Forget(k1.x.rcvd, k.s.active)))
  }

  /** A thread that holds no mutex and for which no sender waits may exit. */
  lemma GoneKeeps(k: K)
    requires CanCall(k) && Me(k).has == {} && List(k.w.lists, MsgWaiters(k.s.active)) == []
    ensures Base(Gone(k)) && Content(Gone(k)) && Gone(k).thr == k.thr - {k.s.active} && Exit(k) == SchedRun(Gone(k))
  {
    ActiveFacts(k);
    var me := k.s.active;
    var k1 := SetStatus(k, me, Stopped);
    LeaveKeepsBase(k, me, Stopped);
    GoneQueues(k1.thr, k1.s.rq, me);
    GoneLists(k1.thr, k1.w.lists, k1.w.clock, me);
    GoneChannels(k, me);
    GoneMutexes(k, me);
    assert k1.thr - {me} == k.thr - {me};
  }

  lemma ExitKeeps(k: K)
    requires CanCall(k) && Me(k).has == {} && List(k.w.lists, MsgWaiters(k.s.active)) == []
    ensures Inv(Exit(k))
  {
    GoneKeeps(k);
    SchedRunKeeps(Gone(k));
  }
}
