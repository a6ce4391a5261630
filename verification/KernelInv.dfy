/** What every reachable kernel state satisfies, beyond the structure of its lists. */
module KernelInv {
  import opened KernelTypes
  import opened KernelSpec
  import opened KernelStruct

  /** A thread's status, its place, its `wait_data` and the call it is in fit together.
      In particular a flag-blocked thread lacks the flags it waits for, and a thread
      that can run again has already been given what its call returns. */
  ghost predicate Agree(t: Pid, th: Thread) {
    match th.status
    case Sleeping => th.on == None && (th.call.InSleep? || th.call.User?)
    case MutexBlocked => th.call.InLock? && th.on == Some(MutexQ(th.call.m))
    case CondBlocked => th.call.InCond? && th.on == Some(CondQ(th.call.c))
    case ReceiveBlocked =>
      && th.on == None && th.call.InReceive? && th.call.got == None
      && th.wait == Buffer(th.call.buf) && th.call.buf.owner == t
    case SendBlocked =>
      && th.call.InSend? && th.on == Some(MsgWaiters(th.call.target))
      && th.wait.Buffer? && th.wait.addr.owner == t
    case ReplyBlocked =>
      && th.call.InSendReceive? && th.call.got == None
      && th.wait == Buffer(th.call.buf) && th.call.buf.owner == t
      && (th.on == None || th.on == Some(MsgWaiters(th.call.target)))
    case FlagBlockedAny =>
      && th.on == None && th.call.InFlags? && !th.call.kind.WaitAll?
      && th.wait == FlagMask(th.call.mask) && th.flags * th.call.mask == {}
    case FlagBlockedAll =>
      && th.on == None && th.call.InFlags? && th.call.kind.WaitAll?
      && th.wait == FlagMask(th.call.mask) && !(th.call.mask <= th.flags)
    case Running => th.on == None && Served(t, th)
    case Pending => th.on == None && Served(t, th)
    case _ => false
  }

  /** What a runnable thread's call has to show. */
  ghost predicate Served(t: Pid, th: Thread) {
    match th.call
    case InReceive(buf, got) => got.Some? && buf.owner == t
    case InSendReceive(buf, _, got) => got.Some? && buf.owner == t
    case InFlags(mask, WaitAll) => mask <= th.flags
    case InFlags(mask, _) => th.flags * mask != {}
    case InFlagsPicked(mask, pick) => pick <= th.flags && pick <= mask && |pick| == 1
    case _ => true
  }

  ghost predicate Agrees(thr: map<Pid, Thread>) {
    forall t :: t in thr ==> Agree(t, thr[t])
  }

  predicate WaitsToSend(th: Thread) {
    th.on.Some? && th.on.value.MsgWaiters?
  }

  predicate SameSending(a: Thread, b: Thread) {
    (a.on == b.on && a.wait == b.wait) || (!WaitsToSend(a) && !WaitsToSend(b))
  }

  /** Message buffers hold what the kernel put there until the call returns, and a
      waiting sender's buffer names it as the sender. */
  ghost predicate Kept(mem: map<Addr, Msg>, t: Pid, th: Thread) {
    && (th.call.InReceive? && th.call.got.Some? ==> Read(mem, th.call.buf) == th.call.got.value)
    && (th.call.InSendReceive? && th.call.got.Some? ==> Read(mem, th.call.buf) == th.call.got.value)
    && (WaitsToSend(th) ==> WaitingMsg(mem, th).sender == t)
  }

  ghost predicate Buffers(thr: map<Pid, Thread>, mem: map<Addr, Msg>) {
    forall t :: t in thr ==> Kept(mem, t, thr[t])
  }

  /** A receive-blocked thread has nothing to receive, and senders only wait for a
      thread whose queue is full (a thread without a queue has capacity 0). */
  ghost predicate MailOk(th: Thread, waiters: seq<Pid>) {
    && |th.inbox| <= th.cap
    && (th.status.ReceiveBlocked? ==> th.inbox == [] && waiters == [])
    && (waiters != [] ==> |th.inbox| == th.cap)
  }

  ghost predicate Mail(thr: map<Pid, Thread>, lists: map<ListRef, seq<Pid>>) {
    forall t :: t in thr ==> MailOk(thr[t], List(lists, MsgWaiters(t)))
  }

  /** The thread's lock call on m has returned, or will as soon as the thread runs. */
  predicate Holds(th: Thread, m: MutexId) {
    m in th.has || (OnRq(th.status) && th.call == InLock(m))
  }

  /** NULL, MUTEX_LOCKED and a list of waiters mean free, held, and held with waiters;
      the recorded holder is the only thread that holds the mutex. */
  ghost predicate Mutexes(thr: map<Pid, Thread>, lists: map<ListRef, seq<Pid>>, marked: set<MutexId>, holder: map<MutexId, Pid>) {
    && (forall m :: m in marked ==> List(lists, MutexQ(m)) == [])
    && (forall m :: m in holder <==> m in marked || List(lists, MutexQ(m)) != [])
    && (forall m :: m in holder ==> holder[m] in thr && Holds(thr[holder[m]], m))
    && (forall t, m :: t in thr && Holds(thr[t], m) ==> m in holder && holder[m] == t)
  }

  /** The messages of q that s sent, in order. */
  function From(q: seq<Msg>, s: Pid): seq<Msg> {
    if q == [] then []
    else if q[|q| - 1].sender == s then From(q[..|q| - 1], s) + [q[|q| - 1]]
    else From(q[..|q| - 1], s)
  }

  /** The message with which s waits for r, if it does. */
  function Waiting(thr: map<Pid, Thread>, mem: map<Addr, Msg>, s: Pid, r: Pid): seq<Msg> {
    if Th(thr, s).on == Some(MsgWaiters(r)) then [WaitingMsg(mem, Th(thr, s))] else []
  }

  /** What s has sent to r is what r has received from s, then what is queued, then
      what s is still blocked with: nothing is lost, doubled or reordered. */
  ghost predicate Channel(thr: map<Pid, Thread>, mem: map<Addr, Msg>,
                          sent: map<(Pid, Pid), seq<Msg>>, rcvd: map<(Pid, Pid), seq<Msg>>, s: Pid, r: Pid) {
    && Log(sent, s, r) == Log(rcvd, s, r) + From(Th(thr, r).inbox, s) + Waiting(thr, mem, s, r)
    && (r !in thr ==> Log(sent, s, r) == [] && Log(rcvd, s, r) == [])
  }

  ghost predicate Channels(thr: map<Pid, Thread>, mem: map<Addr, Msg>,
                           sent: map<(Pid, Pid), seq<Msg>>, rcvd: map<(Pid, Pid), seq<Msg>>) {
    forall s, r :: Channel(thr, mem, sent, rcvd, s, r)
  }

  /** Unless a yield is pending, the active thread heads its run queue, and no better
      queue has a thread exactly when no wake-up went without its yield. */
  ghost predicate Ready(k: K) {
    && k.s.active in k.thr
    && (!k.s.pend ==> AtHead(k))
    && (!k.s.pend ==> (k.s.lax <==> exists p: nat :: p < Me(k).prio && Rq(k.s.rq, p) != []))
  }

  ghost predicate Threads(k: K) {
    && Agrees(k.thr)
    && Buffers(k.thr, k.x.mem)
    && Mail(k.thr, k.w.lists)
    && Channels(k.thr, k.x.mem, k.x.sent, k.x.rcvd)
  }

  ghost predicate Content(k: K) {
    && Threads(k)
    && Mutexes(k.thr, k.w.lists, k.l.marked, k.l.holder)
  }

  ghost predicate Inv(k: K) {
    Base(k) && Ready(k) && Content(k)
  }

  // ---------------------------------------------------------------- frames

  lemma MutexesPut(thr: map<Pid, Thread>, lists: map<ListRef, seq<Pid>>, marked: set<MutexId>, holder: map<MutexId, Pid>,
                   t: Pid, th: Thread)
    requires Mutexes(thr, lists, marked, holder) && t in thr
    requires forall m :: Holds(th, m) == Holds(thr[t], m)
    ensures Mutexes(thr[t := th], lists, marked, holder)
  {
    var thr' := thr[t := th];
    forall x, m | x in thr' && Holds(thr'[x], m) ensures m in holder && holder[m] == x {
      assert Holds(thr[x], m);
    }
  }

  lemma ChannelsPut(thr: map<Pid, Thread>, mem: map<Addr, Msg>,
                    sent: map<(Pid, Pid), seq<Msg>>, rcvd: map<(Pid, Pid), seq<Msg>>, t: Pid, th: Thread)
    requires Channels(thr, mem, sent, rcvd) && t in thr
    requires th.inbox == thr[t].inbox
    requires SameSending(thr[t], th)
    ensures Channels(thr[t := th], mem, sent, rcvd)
  {
    var thr' := thr[t := th];
    forall s, r ensures Channel(thr', mem, sent, rcvd, s, r) {
      assert Channel(thr, mem, sent, rcvd, s, r);
      assert Waiting(thr', mem, s, r) == Waiting(thr, mem, s, r);
    }
  }

  /** One thread changes, neither a sender that starts nor one that stops waiting. */
  lemma ThreadsStep(k: K, k': K, t: Pid, th: Thread)
    requires Threads(k) && t in k.thr
    requires k'.thr == k.thr[t := th] && k'.x == k.x
    requires forall x :: List(k'.w.lists, MsgWaiters(x)) == List(k.w.lists, MsgWaiters(x))
    requires Agree(t, th) && Kept(k.x.mem, t, th) && MailOk(th, List(k.w.lists, MsgWaiters(t)))
    requires th.inbox == k.thr[t].inbox
    requires SameSending(k.thr[t], th)
    ensures Threads(k')
  {
    ChannelsPut(k.thr, k.x.mem, k.x.sent, k.x.rcvd, t, th);
  }

  /** A thread may change in any way its own part of the invariant allows, as long as
      its inbox, its mutexes and the message it waits with stay. */
  lemma PutKeepsContent(k: K, t: Pid, th: Thread)
    requires Content(k) && t in k.thr
    requires Agree(t, th) && Kept(k.x.mem, t, th) && MailOk(th, List(k.w.lists, MsgWaiters(t)))
    requires forall m :: Holds(th, m) == Holds(k.thr[t], m)
    requires th.inbox == k.thr[t].inbox
    requires SameSending(k.thr[t], th)
    ensures Content(Put(k, t, th))
  {
    MutexesPut(k.thr, k.w.lists, k.l.marked, k.l.holder, t, th);
    ThreadsStep(k, Put(k, t, th), t, th);
  }

  // ---------------------------------------------------------------- sched_run

  lemma HeadFacts(k: K, p: nat)
    requires Queues(k.thr, k.s.rq) && Rq(k.s.rq, p) != []
    ensures var t := Rq(k.s.rq, p)[0]; t in k.thr && k.thr[t].prio == p && OnRq(k.thr[t].status)
  {
    assert Rq(k.s.rq, p)[0] in Rq(k.s.rq, p);
  }

  lemma BestExists(k: K)
    requires Base(k)
    ensures Best(k.s.rq, PRIO_TOP) < PRIO_LEVELS
  {
    assert PID_IDLE in Rq(k.s.rq, PRIO_IDLE);
  }

  lemma AgreeRelabel(t: Pid, th: Thread, s: Status)
    requires Agree(t, th) && OnRq(th.status) && OnRq(s)
    ensures Agree(t, th.(status := s))
  {
  }

  /** A runnable thread may change between RUNNING and PENDING. */
  lemma RelabelKeeps(k: K, t: Pid, s: Status)
    requires Base(k) && Content(k)
    requires t in k.thr && OnRq(k.thr[t].status) && OnRq(s)
    ensures Base(Relabel(k, t, s)) && Content(Relabel(k, t, s))
  {
    var th := k.thr[t].(status := s);
    assert Agree(t, k.thr[t]) && Kept(k.x.mem, t, k.thr[t]) && MailOk(k.thr[t], List(k.w.lists, MsgWaiters(t)));
    AgreeRelabel(t, k.thr[t], s);
    PutKeepsBase(k, t, th);
    PutKeepsContent(k, t, th);
  }

  lemma DispatchKeeps(k: K, next: Pid)
    requires Base(k) && Content(k)
    requires next in k.thr && OnRq(k.thr[next].status) && next != k.s.active
    ensures Base(Dispatch(k, next)) && Content(Dispatch(k, next))
    ensures var k' := Dispatch(k, next);
            && k'.s == k.s.(active := next)
            && next in k'.thr && k'.thr[next].prio == k.thr[next].prio
  {
    if k.s.active in k.thr && Me(k).status.Running? {
      RelabelKeeps(k, k.s.active, Pending);
      RelabelKeeps(Relabel(k, k.s.active, Pending), next, Running);
    } else {
      RelabelKeeps(k, next, Running);
    }
  }

  /** After sched_run the active thread is the head of the best queue. */
  lemma SchedRunKeeps(k: K)
    requires Base(k) && Content(k)
    ensures Inv(SchedRun(k))
    ensures !SchedRun(k).s.pend && !SchedRun(k).s.lax
  {
    BestExists(k);
    HeadFacts(k, Best(k.s.rq, PRIO_TOP));
    if NextThread(k) != k.s.active {
      DispatchKeeps(Settle(k), NextThread(k));
    }
  }
}
