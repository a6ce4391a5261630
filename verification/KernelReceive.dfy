/** msg_receive and msg_try_receive keep the invariant on every path: from the queue,
    from the queue with a refill, straight from a waiting sender, and blocking. */
module KernelReceive {
  import opened KernelTypes
  import opened KernelSpec
  import opened KernelStruct
  import opened KernelInv
  import opened KernelSteps
  import opened KernelThreads
  import opened KernelMail

  /** The invariant without the rule that waiting senders mean a full queue. */
  ghost predicate Letters(k: K) {
    && Agrees(k.thr)
    && Buffers(k.thr, k.x.mem)
    && Channels(k.thr, k.x.mem, k.x.sent, k.x.rcvd)
    && Mutexes(k.thr, k.w.lists, k.l.marked, k.l.holder)
  }

  // ---------------------------------------------------------------- taking from the queue

  lemma ShiftChain(a: seq<Msg>, b: seq<Msg>, e: seq<Msg>, c: seq<Msg>, d: seq<Msg>)
    requires a == b + (e + c) + d
    ensures a == (b + e) + c + d
  {
  }

  lemma TakeChannel(k: K, t: Pid, th: Thread, s: Pid, r: Pid)
    requires t in k.thr && k.thr[t].inbox != [] && Channel(k.thr, k.x.mem, k.x.sent, k.x.rcvd, s, r)
    requires th.inbox == k.thr[t].inbox[1..] && th.on == k.thr[t].on && th.wait == k.thr[t].wait
    ensures var m := k.thr[t].inbox[0];
            Channel(k.thr[t := th], k.x.mem, k.x.sent, Append(k.x.rcvd, m.sender, t, m), s, r)
  {
    var m := k.thr[t].inbox[0];
    LogAppend(k.x.rcvd, m.sender, t, m, s, r);
    assert Waiting(k.thr[t := th], k.x.mem, s, r) == Waiting(k.thr, k.x.mem, s, r);
    if r == t {
      FromHead(k.thr[t].inbox, s);
      ShiftChain(Log(k.x.sent, s, t), Log(k.x.rcvd, s, t), if m.sender == s then [m] else [],
                 From(th.inbox, s), Waiting(k.thr, k.x.mem, s, t));
    }
  }

  /** What is known of the active thread once it has its message. */
  ghost predicate Taken(k: K, k': K, buf: Addr) {
    && k'.s == k.s && k'.w == k.w && k'.l == k.l && k.s.active in k'.thr
    && Me(k').status == Me(k).status && Me(k').prio == Me(k).prio && Me(k').on == None && Me(k').cap == Me(k).cap
    && Me(k').call.InReceive? && Me(k').call.buf == buf && Me(k').call.got.Some?
    && (forall t :: t in k.thr && t != k.s.active ==> t in k'.thr && k'.thr[t] == k.thr[t])
    && k'.thr.Keys == k.thr.Keys
  }

  lemma TakeQueuedKeeps(k: K, buf: Addr)
    requires Poised(k) && Me(k).call == User && buf.owner == k.s.active && Me(k).inbox != []
    ensures Base(TakeQueued(k, buf)) && Letters(TakeQueued(k, buf)) && Taken(k, TakeQueued(k, buf), buf)
    ensures Me(TakeQueued(k, buf)).inbox == Me(k).inbox[1..]
  {
    ActiveFacts(k);
    TakeQueuedBase(k, buf);
    TakeQueuedLetters(k, buf, Me(k).inbox[0], Me(k).(inbox := Me(k).inbox[1..], call := InReceive(buf, Some(Me(k).inbox[0]))));
  }

  lemma TakeQueuedBase(k: K, buf: Addr)
    requires Base(k) && k.s.active in k.thr && Me(k).on == None && Me(k).inbox != []
    ensures Base(TakeQueued(k, buf)) && Taken(k, TakeQueued(k, buf), buf)
  {
    var m := Me(k).inbox[0];
    PutKeepsBase(Write(k, buf, m), k.s.active, Me(k).(inbox := Me(k).inbox[1..], call := InReceive(buf, Some(m))));
  }

  lemma TakeQueuedLetters(k: K, buf: Addr, m: Msg, th: Thread)
    requires Poised(k) && k.s.active in k.thr && OnRq(Me(k).status) && Me(k).on == None && Me(k).call == User
    requires buf.owner == k.s.active && Me(k).inbox != [] && m == Me(k).inbox[0]
    requires th == Me(k).(inbox := Me(k).inbox[1..], call := InReceive(buf, Some(m)))
    ensures Letters(TakeQueued(k, buf))
  {
    var me, k1 := k.s.active, Write(k, buf, m);
    OwnWriteKeeps(k, buf, m);
    MutexesPut(k.thr, k.w.lists, k.l.marked, k.l.holder, me, th);
    TakeChannels(k1, me, th, m);
  }

  lemma TakeChannels(k: K, t: Pid, th: Thread, m: Msg)
    requires Channels(k.thr, k.x.mem, k.x.sent, k.x.rcvd) && t in k.thr && k.thr[t].inbox != [] && m == k.thr[t].inbox[0]
    requires th.inbox == k.thr[t].inbox[1..] && th.on == k.thr[t].on && th.wait == k.thr[t].wait
    ensures Channels(k.thr[t := th], k.x.mem, k.x.sent, Append(k.x.rcvd, m.sender, t, m))
  {
    var thr', rcvd' := k.thr[t := th], Append(k.x.rcvd, m.sender, t, m);
    forall s, r ensures Channel(thr', k.x.mem, k.x.sent, rcvd', s, r) {
      assert Channel(k.thr, k.x.mem, k.x.sent, k.x.rcvd, s, r);
      TakeChannel(k, t, th, s, r);
    }
  }

  lemma TakeQueuedAlone(k: K, buf: Addr)
    requires CanCall(k) && buf.owner == k.s.active && Me(k).inbox != []
    requires List(k.w.lists, MsgWaiters(k.s.active)) == []
    ensures Inv(TakeQueued(k, buf))
  {
    ActiveFacts(k);
    TakeQueuedKeeps(k, buf);
    var k' := TakeQueued(k, buf);
    forall t | t in k'.thr ensures MailOk(k'.thr[t], List(k'.w.lists, MsgWaiters(t))) {
      assert MailOk(k.thr[t], List(k.w.lists, MsgWaiters(t)));
    }
    SameReady(k, k');
  }

  // ---------------------------------------------------------------- a waiting sender leaves

  /** The first waiting sender s of thread t and the message it waits with. */
  ghost predicate FirstWaiter(k: K, t: Pid, s: Pid, w: Msg) {
    && t in k.thr && s in k.thr && s != t
    && k.thr[s].on == Some(MsgWaiters(t))
    && w == WaitingMsg(k.x.mem, k.thr[s]) && w.sender == s
  }

  lemma FirstWaiterFacts(k: K, t: Pid)
    requires Base(k) && Agrees(k.thr) && Buffers(k.thr, k.x.mem) && t in k.thr && k.thr[t].on == None
    requires List(k.w.lists, MsgWaiters(t)) != []
    ensures var s := List(k.w.lists, MsgWaiters(t))[0];
      && FirstWaiter(k, t, s, WaitingMsg(k.x.mem, Th(k.thr, s))) && !OnRq(k.thr[s].status)
      && (k.thr[s].status.SendBlocked? || k.thr[s].status.ReplyBlocked?)
  {
    var s := List(k.w.lists, MsgWaiters(t))[0];
    assert s in List(k.w.lists, MsgWaiters(t));
    assert Agree(s, k.thr[s]) && Kept(k.x.mem, s, k.thr[s]);
  }

  lemma MoveChain(a: seq<Msg>, b: seq<Msg>, c: seq<Msg>, w: Msg)
    requires a == b + c + [w]
    ensures a == b + (c + [w]) + []
  {
  }

  /** The channel whose message moved from the sender's buffer into the queue. */
  lemma RefillMoved(k: K, t: Pid, th: Thread, s0: Pid, sh: Thread, w: Msg)
    requires FirstWaiter(k, t, s0, w) && Channel(k.thr, k.x.mem, k.x.sent, k.x.rcvd, s0, t)
    requires th == k.thr[t].(inbox := k.thr[t].inbox + [w]) && sh.on == None
    ensures Channel(k.thr[t := th][s0 := sh], k.x.mem, k.x.sent, k.x.rcvd, s0, t)
  {
    var thr', q := k.thr[t := th][s0 := sh], k.thr[t].inbox;
    assert Waiting(k.thr, k.x.mem, s0, t) == [w] && Waiting(thr', k.x.mem, s0, t) == [];
    assert Th(thr', t).inbox == q + [w];
    FromAppend(q, w, s0);
    MoveChain(Log(k.x.sent, s0, t), Log(k.x.rcvd, s0, t), From(q, s0), w);
  }

  lemma RefillOther(k: K, t: Pid, th: Thread, s0: Pid, sh: Thread, w: Msg, s: Pid, r: Pid)
    requires FirstWaiter(k, t, s0, w) && Channel(k.thr, k.x.mem, k.x.sent, k.x.rcvd, s, r) && !(s == s0 && r == t)
    requires th == k.thr[t].(inbox := k.thr[t].inbox + [w]) && sh.on == None && sh.inbox == k.thr[s0].inbox
    ensures Channel(k.thr[t := th][s0 := sh], k.x.mem, k.x.sent, k.x.rcvd, s, r)
  {
    var thr', q := k.thr[t := th][s0 := sh], k.thr[t].inbox;
    assert Waiting(thr', k.x.mem, s, r) == Waiting(k.thr, k.x.mem, s, r);
    if r == t { FromAppend(q, w, s); }
    assert From(Th(thr', r).inbox, s) == From(Th(k.thr, r).inbox, s);
  }

  lemma RefillChannel(k: K, t: Pid, th: Thread, s0: Pid, sh: Thread, w: Msg, s: Pid, r: Pid)
    requires FirstWaiter(k, t, s0, w) && Channel(k.thr, k.x.mem, k.x.sent, k.x.rcvd, s, r)
    requires th == k.thr[t].(inbox := k.thr[t].inbox + [w]) && sh.on == None && sh.inbox == k.thr[s0].inbox
    ensures Channel(k.thr[t := th][s0 := sh], k.x.mem, k.x.sent, k.x.rcvd, s, r)
  {
    if s == s0 && r == t {
      RefillMoved(k, t, th, s0, sh, w);
    } else {
      RefillOther(k, t, th, s0, sh, w, s, r);
    }
  }

  lemma DirectChannel(k: K, t: Pid, s0: Pid, sh: Thread, w: Msg, s: Pid, r: Pid)
    requires FirstWaiter(k, t, s0, w) && Channel(k.thr, k.x.mem, k.x.sent, k.x.rcvd, s, r)
    requires k.thr[t].inbox == [] && sh.on == None && sh.inbox == k.thr[s0].inbox
    ensures Channel(k.thr[s0 := sh], k.x.mem, k.x.sent, Append(k.x.rcvd, s0, t, w), s, r)
  {
    var thr' := k.thr[s0 := sh];
    LogAppend(k.x.rcvd, s0, t, w, s, r);
    if s != s0 {
      assert Waiting(thr', k.x.mem, s, r) == Waiting(k.thr, k.x.mem, s, r);
    } else if r == t {
      assert Waiting(k.thr, k.x.mem, s, r) == [w] && Waiting(thr', k.x.mem, s, r) == [];
      assert From(Th(thr', r).inbox, s) == [];
    } else {
      assert Waiting(k.thr, k.x.mem, s, r) == [] && Waiting(thr', k.x.mem, s, r) == [];
    }
  }

  /** The sender as _msg_receive leaves it: runnable, or still waiting for a reply. */
  function Freed(sh: Thread): Thread {
    if sh.status.ReplyBlocked? then sh.(on := None) else sh.(on := None, wait := NoData, status := Pending)
  }

  lemma FreedFacts(s: Pid, sh: Thread, mem: map<Addr, Msg>)
    requires Agree(s, sh) && (sh.status.SendBlocked? || sh.status.ReplyBlocked?)
    ensures Agree(s, Freed(sh)) && Kept(mem, s, Freed(sh))
    ensures forall m :: Holds(Freed(sh), m) == Holds(sh, m)
  {
  }

  lemma FreeSenderFacts(k: K, s: Pid)
    requires Base(k) && s in k.thr && !OnRq(k.thr[s].status) && k.thr[s].on == None
    ensures var k' := FreeSender(k, s);
      && Base(k') && k'.thr == k.thr[s := k.thr[s].(wait := NoData, status := Pending)]
      && k'.w == k.w && k'.l == k.l && k'.x == k.x
      && k'.s == k.s.(rq := k'.s.rq) && Grown(k.s.rq, k'.s.rq, k.thr[s].prio)
  {
    var th := k.thr[s].(wait := NoData);
    PutKeepsBase(k, s, th);
    JoinKeepsBase(Put(k, s, th), s, Pending);
    JoinFacts(Put(k, s, th), s, Pending);
    JoinGrows(k.s.rq, th.prio, s);
  }

  /** Releasing a sender that had been taken off its list. */
  lemma ReleaseSenderFacts(k: K, s: Pid)
    requires Base(k) && AtHead(k) && s in k.thr && s != k.s.active && !OnRq(k.thr[s].status) && k.thr[s].on == None
    ensures var k' := ReleaseSender(k, s);
      && Base(k') && k'.thr == k.thr[s := Freed(k.thr[s])]
      && k'.w == k.w && k'.l == k.l && k'.x == k.x && (Ready(k) ==> Ready(k'))
      && k'.s.active == k.s.active
  {
    HeadFacts(k, Me(k).prio);
    if k.thr[s].status.ReplyBlocked? {
      assert k.thr[s := Freed(k.thr[s])] == k.thr;
    } else {
      FreeSenderFacts(k, s);
      if Ready(k) { GrownReady(k, FreeSender(k, s), k.thr[s].prio); }
    }
  }

  /** What removing and releasing the first waiter does to the structure. */
  lemma ReleaseFacts(k: K, t: Pid)
    requires Base(k) && AtHead(k) && t == k.s.active && List(k.w.lists, MsgWaiters(t)) != []
    requires var s := List(k.w.lists, MsgWaiters(t))[0]; s in k.thr && s != t && !OnRq(k.thr[s].status)
    ensures var ws := List(k.w.lists, MsgWaiters(t)); var s := ws[0];
      var k' := ReleaseSender(RemoveHead(k, MsgWaiters(t)), s);
      && Base(k') && k'.thr == k.thr[s := Freed(k.thr[s])] && k'.w.lists == k.w.lists[MsgWaiters(t) := ws[1..]]
      && k'.l == k.l && k'.x == k.x && (Ready(k) ==> Ready(k'))
  {
    var s, k1 := List(k.w.lists, MsgWaiters(t))[0], RemoveHead(k, MsgWaiters(t));
    RemovedFacts(k, t, s, k1);
    ReleaseSenderFacts(k1, s);
    FreedTwice(k.thr, s, k.thr[s].(on := None));
  }

  lemma FreedTwice(thr: map<Pid, Thread>, s: Pid, th: Thread)
    requires s in thr && th == thr[s].(on := None)
    ensures thr[s := th][s := Freed(th)] == thr[s := Freed(thr[s])]
  {
  }

  lemma RemovedFacts(k: K, t: Pid, s: Pid, k1: K)
    requires Base(k) && AtHead(k) && t == k.s.active && List(k.w.lists, MsgWaiters(t)) != []
    requires s == List(k.w.lists, MsgWaiters(t))[0] && s in k.thr && s != t && k1 == RemoveHead(k, MsgWaiters(t))
    ensures Base(k1) && AtHead(k1) && (Ready(k) ==> Ready(k1)) && k1.s == k.s && k1.l == k.l && k1.x == k.x
    ensures k1.thr == k.thr[s := k.thr[s].(on := None)] && k1.w.lists == k.w.lists[MsgWaiters(t) := List(k.w.lists, MsgWaiters(t))[1..]]
  {
    RemoveKeepsBase(k, MsgWaiters(t));
    if Ready(k) { SameReady(k, k1); }
  }

  /** A freed slot is refilled, so `cib_put` cannot fail there. */
  lemma RefillMail(k: K, k1: K, th: Thread, sh: Thread, q: seq<Pid>)
    requires Mail(k.thr, k.w.lists) && k1.w == k.w && k1.s.active == k.s.active
    requires k.s.active in k.thr && k1.thr.Keys == k.thr.Keys
    requires forall t :: t in k.thr && t != k.s.active ==> k1.thr[t] == k.thr[t]
    requires List(k.w.lists, MsgWaiters(k.s.active)) != []
    requires |th.inbox| == |Me(k).inbox| && th.cap == Me(k).cap && !th.status.ReceiveBlocked?
    requires var s := List(k.w.lists, MsgWaiters(k.s.active))[0];
      s in k.thr && s != k.s.active && sh.inbox == k.thr[s].inbox && sh.cap == k.thr[s].cap && !sh.status.ReceiveBlocked?
    ensures var s := List(k.w.lists, MsgWaiters(k.s.active))[0];
      Mail(k1.thr[k.s.active := th][s := sh], k.w.lists[MsgWaiters(k.s.active) := q])
  {
    var s := List(k.w.lists, MsgWaiters(k.s.active))[0];
    var thr', lists' := k1.thr[k.s.active := th][s := sh], k.w.lists[MsgWaiters(k.s.active) := q];
    forall t | t in thr' ensures MailOk(thr'[t], List(lists', MsgWaiters(t))) {
      assert MailOk(k.thr[t], List(k.w.lists, MsgWaiters(t)));
    }
  }

  // ---------------------------------------------------------------- the receive paths

  /** From the queue, with the first waiting sender moving up into it. */
  lemma RefillKeeps(k: K, k1: K)
    requires Mail(k.thr, k.w.lists) && Ready(k) && Me(k).inbox != []
    requires Base(k1) && Letters(k1) && AtHead(k1) && Ready(k1) && k1.w == k.w && k1.s == k.s && k1.thr.Keys == k.thr.Keys
    requires forall t :: t in k.thr && t != k.s.active ==> k1.thr[t] == k.thr[t]
    requires Me(k1).inbox == Me(k).inbox[1..] && Me(k1).cap == Me(k).cap && Me(k1).on == None && OnRq(Me(k1).status)
    requires List(k.w.lists, MsgWaiters(k.s.active)) != []
    ensures Inv(Refill(k1))
  {
    var t := k1.s.active;
    FirstWaiterFacts(k1, t);
    var s := List(k1.w.lists, MsgWaiters(t))[0];
    var w := WaitingMsg(k1.x.mem, Th(k1.thr, s));
    var th := Me(k1).(inbox := Me(k1).inbox + [w]);
    var sh := Freed(k1.thr[s]);
    PutKeepsBase(k1, t, th);
    ReleaseFacts(Put(k1, t, th), t);
    FreedFacts(s, k1.thr[s], k1.x.mem);
    RefillMail(k, k1, th, sh, List(k1.w.lists, MsgWaiters(t))[1..]);
    RefillLetters(k1, t, th, s, sh, w, List(k1.w.lists, MsgWaiters(t))[1..]);
    SameReady(k1, Put(k1, t, th));
  }

  lemma RefillLetters(k: K, t: Pid, th: Thread, s: Pid, sh: Thread, w: Msg, q: seq<Pid>)
    requires Letters(k) && FirstWaiter(k, t, s, w)
    requires th == k.thr[t].(inbox := k.thr[t].inbox + [w])
    requires sh.on == None && sh.inbox == k.thr[s].inbox && Agree(s, sh) && Kept(k.x.mem, s, sh)
    requires forall m :: Holds(sh, m) == Holds(k.thr[s], m)
    ensures var thr' := k.thr[t := th][s := sh];
      && Agrees(thr') && Buffers(thr', k.x.mem) && Channels(thr', k.x.mem, k.x.sent, k.x.rcvd)
      && Mutexes(thr', k.w.lists[MsgWaiters(t) := q], k.l.marked, k.l.holder)
  {
    var thr' := k.thr[t := th][s := sh];
    assert Agree(t, k.thr[t]) && Kept(k.x.mem, t, k.thr[t]);
    MutexesPut(k.thr, k.w.lists, k.l.marked, k.l.holder, t, th);
    MutexesAside(k.thr[t := th], k.w.lists, k.l.marked, k.l.holder, s, sh, MsgWaiters(t), q);
    forall x, r ensures Channel(thr', k.x.mem, k.x.sent, k.x.rcvd, x, r) {
      RefillChannel(k, t, th, s, sh, w, x, r);
    }
  }

  /** The state in which the receiver has copied the first waiter's message. */
  lemma CopyWaiting(k: K, buf: Addr, w: Msg)
    requires Poised(k) && Me(k).call == User && buf.owner == k.s.active
    ensures var k1 := Write(Put(k, k.s.active, Me(k).(wait := Buffer(buf), call := InReceive(buf, Some(w)))), buf, w);
      Base(k1) && Content(k1) && AtHead(k1)
  {
    ActiveFacts(k);
    var th := Me(k).(wait := Buffer(buf), call := InReceive(buf, Some(w)));
    OwnWriteKeeps(k, buf, w);
    PutKeepsBase(Write(k, buf, w), k.s.active, th);
    PutKeepsContent(Write(k, buf, w), k.s.active, th);
  }

  lemma DirectLetters(k: K, t: Pid, s: Pid, sh: Thread, w: Msg, q: seq<Pid>)
    requires Content(k) && FirstWaiter(k, t, s, w) && k.thr[t].inbox == []
    requires sh.on == None && sh.inbox == k.thr[s].inbox && Agree(s, sh) && Kept(k.x.mem, s, sh)
    requires forall m :: Holds(sh, m) == Holds(k.thr[s], m)
    ensures var thr' := k.thr[s := sh];
      && Agrees(thr') && Buffers(thr', k.x.mem) && Channels(thr', k.x.mem, k.x.sent, Append(k.x.rcvd, s, t, w))
      && Mutexes(thr', k.w.lists[MsgWaiters(t) := q], k.l.marked, k.l.holder)
  {
    var thr', rcvd' := k.thr[s := sh], Append(k.x.rcvd, s, t, w);
    MutexesAside(k.thr, k.w.lists, k.l.marked, k.l.holder, s, sh, MsgWaiters(t), q);
    forall x, r ensures Channel(thr', k.x.mem, k.x.sent, rcvd', x, r) {
      DirectChannel(k, t, s, sh, w, x, r);
    }
  }

  /** A thread whose queue stays full or that has no queue; one waiter fewer. */
  lemma DirectMail(k: K, t: Pid, s: Pid, sh: Thread)
    requires Mail(k.thr, k.w.lists) && t in k.thr && s in k.thr
    requires List(k.w.lists, MsgWaiters(t)) != []
    requires sh.inbox == k.thr[s].inbox && sh.cap == k.thr[s].cap && !sh.status.ReceiveBlocked?
    ensures Mail(k.thr[s := sh], k.w.lists[MsgWaiters(t) := List(k.w.lists, MsgWaiters(t))[1..]])
  {
    var thr', lists' := k.thr[s := sh], k.w.lists[MsgWaiters(t) := List(k.w.lists, MsgWaiters(t))[1..]];
    forall x | x in thr' ensures MailOk(thr'[x], List(lists', MsgWaiters(x))) {
      assert MailOk(k.thr[x], List(k.w.lists, MsgWaiters(x)));
    }
  }

  lemma TakeWaitingKeeps(k: K, buf: Addr)
    requires CanCall(k) && buf.owner == k.s.active && Me(k).inbox == []
    requires List(k.w.lists, MsgWaiters(k.s.active)) != []
    ensures Inv(TakeWaiting(k, buf))
  {
    ActiveFacts(k);
    var t := k.s.active;
    FirstWaiterFacts(k, t);
    var s := List(k.w.lists, MsgWaiters(t))[0];
    var w := WaitingMsg(k.x.mem, Th(k.thr, s));
    CopyWaiting(k, buf, w);
    var k1 := Write(Put(k, t, Me(k).(wait := Buffer(buf), call := InReceive(buf, Some(w)))), buf, w);
    SameReady(k, k1);
    OwnFacts(k, s);
    WriteElsewhere(k.x.mem, buf, w, s, k.thr[s]);
    DirectKeeps(k1, s, w);
  }

  /** The first waiter, whose message has been copied, goes off the list. */
  lemma DirectKeeps(k: K, s: Pid, w: Msg)
    requires Base(k) && Content(k) && AtHead(k) && Ready(k) && Me(k).inbox == []
    requires List(k.w.lists, MsgWaiters(k.s.active)) != [] && s == List(k.w.lists, MsgWaiters(k.s.active))[0]
    requires FirstWaiter(k, k.s.active, s, w)
    ensures Inv(ReleaseSender(RemoveHead(LogRcvd(k, s, k.s.active, w), MsgWaiters(k.s.active)), s))
  {
    var t := k.s.active;
    OwnFacts(k, s);
    var sh := Freed(k.thr[s]);
    FreedFacts(s, k.thr[s], k.x.mem);
    DirectLetters(k, t, s, sh, w, List(k.w.lists, MsgWaiters(t))[1..]);
    DirectMail(k, t, s, sh);
    ReleaseFacts(LogRcvd(k, s, t, w), t);
  }

  lemma WaitForMsgKeeps(k: K, buf: Addr)
    requires CanCall(k) && buf.owner == k.s.active && Me(k).inbox == []
    requires List(k.w.lists, MsgWaiters(k.s.active)) == []
    ensures Inv(WaitForMsg(k, buf))
  {
    ActiveFacts(k);
    var th := Me(k).(wait := Buffer(buf), call := InReceive(buf, None));
    BlockFacts(k, th, ReceiveBlocked);
    PutKeepsContent(k, k.s.active, th.(status := ReceiveBlocked));
  }

  lemma ReceiveKeeps(k: K, buf: Addr, block: bool)
    requires CanCall(k) && buf.owner == k.s.active
    ensures Inv(Receive(k, buf, block))
  {
    ActiveFacts(k);
    if Me(k).inbox != [] {
      if List(k.w.lists, MsgWaiters(k.s.active)) != [] {
        TakeQueuedKeeps(k, buf);
        SameReady(k, TakeQueued(k, buf));
        RefillKeeps(k, TakeQueued(k, buf));
      } else {
        TakeQueuedAlone(k, buf);
      }
    } else if List(k.w.lists, MsgWaiters(k.s.active)) != [] {
      TakeWaitingKeeps(k, buf);
    } else if block {
      WaitForMsgKeeps(k, buf);
    }
  }

  /** A queue may be set up while nothing is queued and no sender waits. */
  lemma InitQueueKeeps(k: K, n: nat)
    requires CanCall(k) && Me(k).inbox == [] && List(k.w.lists, MsgWaiters(k.s.active)) == []
    ensures Inv(InitQueue(k, n))
  {
    ActiveFacts(k);
    var th := Me(k).(inbox := [], cap := n);
    PutKeepsBase(k, k.s.active, th);
    PutKeepsContent(k, k.s.active, th);
    SameReady(k, InitQueue(k, n));
  }
}
