/** The kernel as an object that its calls update in place. The queues are the linked
    structures of `Links`; `k` is the state of the step machine, and every method is
    proved to take the step that the machine takes. */
module KernelObject {
  import opened KernelTypes
  import opened KernelSpec
  import opened KernelStruct
  import opened KernelInv
  import opened KernelSteps
  import opened KernelThreads
  import KernelRuns
  import KernelCalls
  import opened LinkFields
  import opened ThreadLinks
  import Mailboxes
  import Cib

  ghost predicate SameRqs(a: RunQueues, b: RunQueues) {
    forall p: nat :: Rq(a, p) == Rq(b, p)
  }

  ghost predicate SameLists(a: WaitLists, b: WaitLists) {
    forall r :: List(a, r) == List(b, r)
  }

  /** Only threads that are runnable or on a wait list use their link field. */
  ghost predicate Homed(thr: map<Pid, Thread>, home: map<Pid, Place>) {
    forall t :: t in home ==> t in thr && (OnRq(thr[t].status) || thr[t].on.Some?)
  }

  ghost predicate InBounds(thr: map<Pid, Thread>) {
    forall t :: t in thr ==> PID_FIRST <= t <= PID_LAST && thr[t].prio < PRIO_LEVELS
  }

  /** The queues of the step machine's state are the ones the links hold. */
  ghost predicate Mirrors(k: K, rq: RunQueues, lists: WaitLists, marked: set<MutexId>, home: map<Pid, Place>) {
    forall u {:trigger Compared(u)} :: Compared(u) ==> Agreeing(k, rq, lists, marked, home)
  }

  ghost predicate Agreeing(k: K, rq: RunQueues, lists: WaitLists, marked: set<MutexId>, home: map<Pid, Place>) {
    SameRqs(k.s.rq, rq) && SameLists(k.w.lists, lists) && k.l.marked == marked && Homed(k.thr, home) && InBounds(k.thr)
  }

  /** Always true; see `Asked`. */
  predicate Compared(u: int) {
    true
  }

  lemma MirrorsList(k: K, rq: RunQueues, lists: WaitLists, marked: set<MutexId>, home: map<Pid, Place>, r: ListRef)
    requires Mirrors(k, rq, lists, marked, home)
    ensures List(k.w.lists, r) == List(lists, r) && k.l.marked == marked
  {
    assert Compared(0);
  }

  lemma MirrorsRq(k: K, rq: RunQueues, lists: WaitLists, marked: set<MutexId>, home: map<Pid, Place>)
    requires Mirrors(k, rq, lists, marked, home)
    ensures SameRqs(k.s.rq, rq)
  {
    assert Compared(0);
  }

  lemma MirrorsBounds(k: K, rq: RunQueues, lists: WaitLists, marked: set<MutexId>, home: map<Pid, Place>)
    requires Mirrors(k, rq, lists, marked, home)
    ensures InBounds(k.thr)
  {
    assert Compared(0);
  }

  lemma MarkMirrors(k: K, k': K, rq: RunQueues, lists: WaitLists, marked: set<MutexId>, home: map<Pid, Place>, m: MutexId, l: Locks)
    requires Mirrors(k, rq, lists, marked, home) && List(k.w.lists, MutexQ(m)) == [] && k' == k.(l := l)
    ensures List(lists, MutexQ(m)) == [] && k.l.marked == marked && Mirrors(k', rq, lists, l.marked, home)
  {
    assert Compared(0);
    assert List(k.w.lists, MutexQ(m)) == List(lists, MutexQ(m));
  }

  lemma JoinMirrors(k: K, rq: RunQueues, lists: WaitLists, marked: set<MutexId>, home: map<Pid, Place>, t: Pid, s: Status, p: nat)
    requires Mirrors(k, rq, lists, marked, home) && t in k.thr && !OnRq(k.thr[t].status) && k.thr[t].on == None && OnRq(s)
    requires p == k.thr[t].prio
    ensures t !in home && p < PRIO_LEVELS && PID_FIRST <= t <= PID_LAST
    ensures KernelSpec.SetStatus(k, t, s).thr == k.thr[t := k.thr[t].(status := s)]
    ensures Mirrors(KernelSpec.SetStatus(k, t, s), rq[p := Rq(rq, p) + [t]], lists, marked, home[t := RunQ(p)])
  {
    assert Compared(0);
    assert Rq(k.s.rq, p) == Rq(rq, p);
    var k', rq' := KernelSpec.SetStatus(k, t, s), rq[p := Rq(rq, p) + [t]];
    forall i: nat ensures Rq(k'.s.rq, i) == Rq(rq', i) {
      assert Rq(k.s.rq, i) == Rq(rq, i);
    }
  }

  lemma LeaveMirrors(k: K, rq: RunQueues, lists: WaitLists, marked: set<MutexId>, home: map<Pid, Place>, t: Pid, s: Status, p: nat)
    requires Mirrors(k, rq, lists, marked, home) && t in k.thr && OnRq(k.thr[t].status) && !OnRq(s)
    requires p == k.thr[t].prio && Rq(k.s.rq, p) != [] && Rq(k.s.rq, p)[0] == t
    ensures p < PRIO_LEVELS && Rq(rq, p) != [] && Rq(rq, p)[0] == t
    ensures KernelSpec.SetStatus(k, t, s).thr == k.thr[t := k.thr[t].(status := s)]
    ensures Mirrors(KernelSpec.SetStatus(k, t, s), rq[p := Rq(rq, p)[1..]], lists, marked, home - {t})
  {
    assert Compared(0);
    assert Rq(k.s.rq, p) == Rq(rq, p);
    var k', rq' := KernelSpec.SetStatus(k, t, s), rq[p := Rq(rq, p)[1..]];
    forall i: nat ensures Rq(k'.s.rq, i) == Rq(rq', i) {
      assert Rq(k.s.rq, i) == Rq(rq, i);
    }
  }

  lemma AddMirrors(k: K, rq: RunQueues, lists: WaitLists, marked: set<MutexId>, home: map<Pid, Place>, r: ListRef, t: Pid, q: seq<Pid>)
    requires Mirrors(k, rq, lists, marked, home) && t in k.thr && !OnRq(k.thr[t].status) && k.thr[t].on == None
    requires var q0 := List(lists, r); var i := InsertPos(k.thr, q0, Th(k.thr, t).prio); q == q0[..i] + [t] + q0[i..]
    ensures t !in home && PID_FIRST <= t <= PID_LAST && k.l.marked == marked
    ensures KernelSpec.AddToList(k, r, t).thr == k.thr[t := k.thr[t].(on := Some(r), since := k.w.clock)]
    ensures Mirrors(KernelSpec.AddToList(k, r, t), rq, lists[r := q], marked, home[t := WaitL(r)])
  {
    assert Compared(0);
    assert List(k.w.lists, r) == List(lists, r);
    var k', lists' := KernelSpec.AddToList(k, r, t), lists[r := q];
    forall i ensures List(k'.w.lists, i) == List(lists', i) {
      assert List(k.w.lists, i) == List(lists, i);
    }
  }

  lemma FirstMirrors(k: K, rq: RunQueues, lists: WaitLists, marked: set<MutexId>, home: map<Pid, Place>, m: MutexId, t: Pid, l: Locks)
    requires Mirrors(k, rq, lists, marked, home) && t in k.thr && !OnRq(k.thr[t].status) && k.thr[t].on == None
    requires List(k.w.lists, MutexQ(m)) == [] && l == k.l.(marked := k.l.marked - {m})
    ensures t !in home && PID_FIRST <= t <= PID_LAST && List(lists, MutexQ(m)) == []
    ensures Mirrors(KernelSpec.AddToList(k.(l := l), MutexQ(m), t), rq, lists[MutexQ(m) := [t]], marked - {m}, home[t := WaitL(MutexQ(m))])
  {
    assert Compared(0);
    assert List(k.w.lists, MutexQ(m)) == List(lists, MutexQ(m));
    var k', lists' := KernelSpec.AddToList(k.(l := l), MutexQ(m), t), lists[MutexQ(m) := [t]];
    assert [] + [t] + [] == [t];
    forall i ensures List(k'.w.lists, i) == List(lists', i) {
      assert List(k.w.lists, i) == List(lists, i);
    }
  }

  lemma RemoveMirrors(k: K, rq: RunQueues, lists: WaitLists, marked: set<MutexId>, home: map<Pid, Place>, r: ListRef, t: Pid)
    requires Mirrors(k, rq, lists, marked, home) && List(k.w.lists, r) != [] && t == List(k.w.lists, r)[0] && t in k.thr
    ensures List(lists, r) != [] && t == List(lists, r)[0] && k.l.marked == marked
    ensures Mirrors(KernelSpec.RemoveHead(k, r), rq, lists[r := List(lists, r)[1..]], marked, home - {t})
  {
    assert Compared(0);
    assert List(k.w.lists, r) == List(lists, r);
    var k', lists' := KernelSpec.RemoveHead(k, r), lists[r := List(lists, r)[1..]];
    forall i ensures List(k'.w.lists, i) == List(lists', i) {
      assert List(k.w.lists, i) == List(lists, i);
    }
  }

  /** The first thread of run queue p goes to its end. */
  function Turned(k: K, p: nat): K {
    var q := Rq(k.s.rq, p);
    if q == [] then k else k.(s := k.s.(rq := k.s.rq[p := q[1..] + [q[0]]]))
  }

  lemma TurnMirrors(k: K, k': K, rq: RunQueues, lists: WaitLists, marked: set<MutexId>, home: map<Pid, Place>, p: nat)
    requires Mirrors(k, rq, lists, marked, home) && k' == Turned(k, p)
    ensures Mirrors(k', if Rq(rq, p) == [] then rq else rq[p := Rq(rq, p)[1..] + [Rq(rq, p)[0]]], lists, marked, home)
  {
    assert Compared(0);
    assert Rq(k.s.rq, p) == Rq(rq, p);
    var rq' := if Rq(rq, p) == [] then rq else rq[p := Rq(rq, p)[1..] + [Rq(rq, p)[0]]];
    forall i: nat ensures Rq(k'.s.rq, i) == Rq(rq', i) {
      assert Rq(k.s.rq, i) == Rq(rq, i);
    }
  }

  lemma StayMirrors(k: K, rq: RunQueues, lists: WaitLists, marked: set<MutexId>, home: map<Pid, Place>, t: Pid, s: Status)
    requires Mirrors(k, rq, lists, marked, home) && t in k.thr && !OnRq(k.thr[t].status) && !OnRq(s)
    ensures KernelSpec.SetStatus(k, t, s).thr == k.thr[t := k.thr[t].(status := s)]
    ensures Mirrors(KernelSpec.SetStatus(k, t, s), rq, lists, marked, home)
  {
    assert Compared(0);
    var k' := KernelSpec.SetStatus(k, t, s);
    forall i: nat ensures Rq(k'.s.rq, i) == Rq(rq, i) {
      assert Rq(k.s.rq, i) == Rq(rq, i);
    }
  }

  lemma NewMirrors(k: K, rq: RunQueues, lists: WaitLists, marked: set<MutexId>, home: map<Pid, Place>, t: Pid, th: Thread)
    requires Mirrors(k, rq, lists, marked, home) && t !in k.thr && PID_FIRST <= t <= PID_LAST && th.prio < PRIO_LEVELS
    ensures Mirrors(Put(k, t, th), rq, lists, marked, home)
  {
    assert Compared(0);
  }

  lemma GoneMirrors(k: K, rq: RunQueues, lists: WaitLists, marked: set<MutexId>, home: map<Pid, Place>, k': K)
    requires Mirrors(k, rq, lists, marked, home) && k.s.active in k.thr && !OnRq(Me(k).status) && Me(k).on == None
    requires k'.thr == k.thr - {k.s.active} && k'.s == k.s && k'.w == k.w && k'.l == k.l
    ensures Mirrors(k', rq, lists, marked, home)
  {
    assert Compared(0);
  }

  lemma GoneBase(k: K)
    requires Base(k) && AtHead(k) && k.s.active != PID_IDLE && List(k.w.lists, MsgWaiters(k.s.active)) == []
    ensures Base(Gone(k))
  {
    var k1 := KernelSpec.SetStatus(k, k.s.active, Stopped);
    LeaveKeepsBase(k, k.s.active, Stopped);
    GoneQueues(k1.thr, k1.s.rq, k.s.active);
    GoneLists(k1.thr, k1.w.lists, k1.w.clock, k.s.active);
  }

  lemma UpdateMirrors(k: K, rq: RunQueues, lists: WaitLists, marked: set<MutexId>, home: map<Pid, Place>, t: Pid, th: Thread)
    requires Mirrors(k, rq, lists, marked, home) && t in k.thr && SamePlace(k.thr[t], th)
    ensures Mirrors(Put(k, t, th), rq, lists, marked, home)
  {
    assert Compared(0);
  }

  /** A mutex marked as locked has no waiters. */
  ghost predicate Marks(k: K) {
    forall m :: m in k.l.marked ==> List(k.w.lists, MutexQ(m)) == []
  }

  /** The first thread of a wait list exists and is blocked. */
  ghost predicate Fronts(k: K) {
    forall r :: List(k.w.lists, r) != [] ==> Blocked(k, List(k.w.lists, r)[0])
  }

  predicate Blocked(k: K, t: Pid) {
    t in k.thr && !OnRq(k.thr[t].status)
  }

  /** The active thread is runnable, first of its queue and on no wait list. */
  ghost predicate Poise(k: K) {
    AtHead(k) && OnRq(Me(k).status) && Me(k).on == None
  }

  /** All threads of a wait list exist and are blocked, each once. */
  ghost predicate AllBlocked(k: K, r: ListRef) {
    Distinct(List(k.w.lists, r)) && forall t :: t in List(k.w.lists, r) ==> Blocked(k, t)
  }

  lemma ListsBlocked(k: K)
    requires Lists(k.thr, k.w.lists)
    ensures Fronts(k) && forall c :: AllBlocked(k, CondQ(c))
  {
    forall r | List(k.w.lists, r) != [] ensures Blocked(k, List(k.w.lists, r)[0]) {
      assert List(k.w.lists, r)[0] in List(k.w.lists, r);
    }
    forall c ensures AllBlocked(k, CondQ(c)) {
      assert Distinct(List(k.w.lists, CondQ(c)));
      forall t | t in List(k.w.lists, CondQ(c)) ensures Blocked(k, t) {
        assert k.thr[t].on == Some(CondQ(c));
      }
    }
  }

  /** Inside a legal call all of this holds. */
  lemma InvFacts(k: K)
    requires Inv(k)
    ensures Marks(k) && Fronts(k) && Agrees(k.thr) && k.s.active in k.thr && forall c :: AllBlocked(k, CondQ(c))
    ensures !k.s.pend ==> Poise(k)
  {
    if !k.s.pend { ActiveFacts(k); }
    ListsBlocked(k);
  }

  /** A thread to which a message can be handed is on no list if it waits for one. */
  predicate Reachable(th: Thread) {
    FlagBlocked(th.status) || th.status.ReceiveBlocked? ==> th.on == None
  }

  predicate FlagBlocked(s: Status) {
    s.FlagBlockedAny? || s.FlagBlockedAll?
  }

  /** Always true; see `Asked`. */
  predicate Opened(u: int) {
    true
  }

  /** Each thread's queue holds its inbox and has its capacity. */
  ghost predicate Boxed(thr: map<Pid, Thread>, inboxes: map<Pid, seq<Msg>>, caps: map<Pid, nat>) {
    forall t {:trigger BoxOf(thr, inboxes, caps, t)} :: BoxOf(thr, inboxes, caps, t)
  }

  predicate BoxOf(thr: map<Pid, Thread>, inboxes: map<Pid, seq<Msg>>, caps: map<Pid, nat>, t: Pid) {
    t in thr ==> t in inboxes && t in caps && inboxes[t] == thr[t].inbox && caps[t] == thr[t].cap
  }

  /** A change of one control block together with its queue. */
  lemma BoxedChange(thr: map<Pid, Thread>, inboxes: map<Pid, seq<Msg>>, caps: map<Pid, nat>, t: Pid, th: Thread,
                    inboxes': map<Pid, seq<Msg>>, caps': map<Pid, nat>)
    requires Boxed(thr, inboxes, caps)
    requires inboxes' == inboxes[t := th.inbox] && t in caps' && caps'[t] == th.cap && (caps' == caps || caps' == caps[t := th.cap])
    ensures Boxed(thr[t := th], inboxes', caps')
  {
    var thr' := thr[t := th];
    forall x ensures BoxOf(thr', inboxes', caps', x) {
      assert BoxOf(thr, inboxes, caps, x);
    }
  }

  /** A change of one control block that leaves its queue alone. */
  lemma BoxedSame(thr: map<Pid, Thread>, inboxes: map<Pid, seq<Msg>>, caps: map<Pid, nat>, t: Pid, th: Thread)
    requires Boxed(thr, inboxes, caps) && t in thr && th.inbox == thr[t].inbox && th.cap == thr[t].cap
    ensures Boxed(thr[t := th], inboxes, caps)
  {
    var thr' := thr[t := th];
    forall x ensures BoxOf(thr', inboxes, caps, x) {
      assert BoxOf(thr, inboxes, caps, x);
    }
  }

  lemma BoxedWithout(thr: map<Pid, Thread>, inboxes: map<Pid, seq<Msg>>, caps: map<Pid, nat>, t: Pid)
    requires Boxed(thr, inboxes, caps)
    ensures Boxed(thr - {t}, inboxes - {t}, caps - {t})
  {
    var thr', inboxes', caps' := thr - {t}, inboxes - {t}, caps - {t};
    forall x ensures BoxOf(thr', inboxes', caps', x) {
      assert BoxOf(thr, inboxes, caps, x);
    }
  }

  class Kernel {
    const flagsOn: bool
    const links: Links
    /** the message queues; `inbox` and `cap` in the control blocks repeat their state */
    const mail: Mailboxes.Boxes
    /** sched_threads, with the control blocks */
    var thr: map<Pid, Thread>
    /** sched_active_pid */
    var active: Pid
    /** the pending yield, and sched_context_switch_request */
    var pend: bool
    var request: bool
    /** message buffers */
    var mem: map<Addr, Msg>
    /** stamps insertions into wait lists */
    var clock: nat

    ghost var k: K

    ghost predicate Valid()
      reads this, links, links.next, links.tails, mail, mail.repr
    {
      && k.flagsOn == flagsOn && k.thr == thr && k.x.mem == mem && k.w.clock == clock
      && k.s.active == active && k.s.pend == pend && k.s.request == request
      && forall u {:trigger Opened(u)} :: Opened(u) ==> Parts()
    }

    /** The linked queues and the message queues are those of k. */
    ghost predicate Parts()
      reads this, links, links.next, links.tails, mail, mail.repr
    {
      && links.Valid() && Mirrors(k, links.rq, links.lists, links.marked, links.home)
      && mail.Valid() && Boxed(k.thr, mail.inboxes, mail.caps)
      && Apart()
    }

    /** kernel_init up to the first switch: the idle and the main thread, both runnable.
        `Run` completes it. */
    constructor (flagsOn: bool, f1: Flags, f2: Flags)
      ensures Valid() && k == KernelRuns.CreateBoth(flagsOn, f1, f2)
      ensures fresh(links) && fresh(links.next) && fresh(links.tails) && fresh(mail) && fresh(mail.repr)
    {
      var l := BootLinks();
      var mb := BootMail();
      ghost var k' := KernelRuns.CreateBoth(flagsOn, f1, f2);
      BootMirrors(k', flagsOn, f1, f2, l.rq, l.home);
      this.flagsOn, links, mail := flagsOn, l, mb;
      thr := map[PID_IDLE := KernelRuns.Fresh(PRIO_IDLE, f1), PID_MAIN := KernelRuns.Fresh(PRIO_MAIN, f2)];
      active, pend, request, mem, clock := 0, false, false, map[], 0;
      k := k';
      new;
      BootBoxed(k.thr, f1, f2);
      assert Parts();
    }

    ghost predicate Apart()
      reads this, mail
    {
      this !in mail.repr && links !in mail.repr && links.next !in mail.repr && links.tails !in mail.repr
    }

    /** New control blocks, buffers and clock, for queues that already are those of k'. */
    method Commit(thr': map<Pid, Thread>, mem': map<Addr, Msg>, clock': nat, ghost k': K)
      requires links.Valid() && Mirrors(k', links.rq, links.lists, links.marked, links.home)
      requires mail.Valid() && Boxed(k'.thr, mail.inboxes, mail.caps) && Apart()
      requires k'.thr == thr' && k'.x.mem == mem' && k'.w.clock == clock'
      requires k'.flagsOn == flagsOn && k'.s.active == active && k'.s.pend == pend && k'.s.request == request
      modifies `thr, `mem, `clock, `k
      ensures Valid() && k == k'
    {
      thr, mem, clock, k := thr', mem', clock', k';
      assert Parts();
    }

    /** sched_set_status, joining a run queue. */
    method Join(t: Pid, s: Status)
      requires Valid() && t in thr && !OnRq(thr[t].status) && thr[t].on == None && OnRq(s)
      modifies this, links, links.next, links.tails
      ensures Valid() && k == KernelSpec.SetStatus(old(k), t, s)
    {
      assert Opened(0);
      var p, th := thr[t].prio, thr[t].(status := s);
      ghost var k' := KernelSpec.SetStatus(k, t, s);
      JoinMirrors(k, links.rq, links.lists, links.marked, links.home, t, s, p);
      BoxedSame(thr, mail.inboxes, mail.caps, t, th);
      links.Enqueue(p, t);
      assert mail.Valid();
      Commit(thr[t := th], mem, clock, k');
    }

    /** sched_set_status, leaving the run queue: the active thread is at its head. */
    method Leave(s: Status)
      requires Valid() && AtHead(k) && OnRq(thr[active].status) && !OnRq(s)
      modifies this, links, links.next, links.tails
      ensures Valid() && k == KernelSpec.SetStatus(old(k), old(active), s)
    {
      assert Opened(0);
      var p, th := thr[active].prio, thr[active].(status := s);
      ghost var k' := KernelSpec.SetStatus(k, active, s);
      LeaveMirrors(k, links.rq, links.lists, links.marked, links.home, active, s, p);
      BoxedSame(thr, mail.inboxes, mail.caps, active, th);
      links.Dequeue(p);
      assert mail.Valid();
      Commit(thr[active := th], mem, clock, k');
    }

    /** sched_set_status between two blocked states. */
    method Stay(t: Pid, s: Status)
      requires Valid() && t in thr && !OnRq(thr[t].status) && !OnRq(s)
      modifies `thr, `k
      ensures Valid() && k == KernelSpec.SetStatus(old(k), t, s)
    {
      assert Opened(0);
      StayMirrors(k, links.rq, links.lists, links.marked, links.home, t, s);
      BoxedSame(thr, mail.inboxes, mail.caps, t, thr[t].(status := s));
      thr := thr[t := thr[t].(status := s)];
      k := KernelSpec.SetStatus(k, t, s);
      assert Parts();
    }

    /** A change of a control block that leaves the thread where it is. */
    method Update(t: Pid, th: Thread)
      requires Valid() && t in thr && SamePlace(thr[t], th) && th.inbox == thr[t].inbox && th.cap == thr[t].cap
      modifies `thr, `k
      ensures Valid() && k == Put(old(k), t, th)
    {
      assert Opened(0);
      UpdateMirrors(k, links.rq, links.lists, links.marked, links.home, t, th);
      BoxedSame(thr, mail.inboxes, mail.caps, t, th);
      thr := thr[t := th];
      k := Put(k, t, th);
      assert Parts();
    }

    /** The active thread leaves the run queue, after recording what it waits for. */
    method BlockAs(th: Thread, s: Status)
      requires Valid() && AtHead(k) && OnRq(thr[active].status) && SamePlace(thr[active], th) && !OnRq(s)
      requires th.inbox == thr[active].inbox && th.cap == thr[active].cap
      modifies this, links, links.next, links.tails
      ensures Valid() && k == Block(old(k), th, s)
      ensures thr == old(thr)[old(active) := th.(status := s)] && active == old(active) && k.w == old(k).w && k.l == old(k).l
    {
      Update(active, th);
      Leave(s);
    }

    /** thread_add_to_list */
    method AddToList(r: ListRef, t: Pid)
      requires Valid() && t in thr && !OnRq(thr[t].status) && thr[t].on == None && !(r.MutexQ? && r.m in k.l.marked)
      modifies this, links, links.next
      ensures Valid() && k == KernelSpec.AddToList(old(k), r, t)
    {
      assert Opened(0);
      ghost var q0 := List(links.lists, r);
      ghost var i := InsertPos(thr, q0, Th(thr, t).prio);
      var th := thr[t].(on := Some(r), since := clock);
      ghost var k' := KernelSpec.AddToList(k, r, t);
      AddMirrors(k, links.rq, links.lists, links.marked, links.home, r, t, q0[..i] + [t] + q0[i..]);
      BoxedSame(thr, mail.inboxes, mail.caps, t, th);
      links.AddToList(r, t, thr);
      assert mail.Valid();
      Commit(thr[t := th], mem, clock + 1, k');
    }

    /** list_remove_head of a list with entries. */
    method RemoveHead(r: ListRef) returns (t: Pid)
      requires Valid() && List(k.w.lists, r) != [] && List(k.w.lists, r)[0] in thr && !(r.MutexQ? && r.m in k.l.marked)
      modifies this, links
      ensures Valid() && t == List(old(k).w.lists, r)[0] && k == KernelSpec.RemoveHead(old(k), r)
    {
      assert Opened(0);
      ghost var x := List(k.w.lists, r)[0];
      ghost var th, k' := thr[x].(on := None), KernelSpec.RemoveHead(k, r);
      RemoveMirrors(k, links.rq, links.lists, links.marked, links.home, r, x);
      BoxedSame(thr, mail.inboxes, mail.caps, x, th);
      t := links.RemoveHead(r);
      assert mail.Valid();
      Commit(thr[t := thr[t].(on := None)], mem, clock, k');
    }

    method Wake(r: ListRef) returns (t: Pid)
      requires Valid() && List(k.w.lists, r) != [] && !(r.MutexQ? && r.m in k.l.marked)
      requires List(k.w.lists, r)[0] in thr && !OnRq(thr[List(k.w.lists, r)[0]].status)
      modifies this, links, links.next, links.tails
      ensures Valid() && t == List(old(k).w.lists, r)[0] && k == WakeHead(old(k), r)
    {
      t := RemoveHead(r);
      Join(t, Pending);
    }

    // -------------------------------------------------------------- scheduler

    method YieldHigher()
      requires Valid()
      modifies `pend, `k
      ensures Valid() && k == Pend(old(k))
    {
      assert Opened(0);
      pend := true;
      k := Pend(k);
      assert Parts();
    }

    /** sched_switch */
    method Switch(prio: nat)
      requires Valid() && active in thr
      modifies `pend, `k
      ensures Valid() && k == SchedSwitch(old(k), prio)
    {
      if !OnRq(thr[active].status) || thr[active].prio > prio {
        YieldHigher();
      }
    }

    method Quiet()
      requires Valid()
      modifies `pend, `request, `k
      ensures Valid() && k == Settle(old(k))
    {
      assert Opened(0);
      pend, request := false, false;
      k := Settle(k);
      assert Parts();
    }

    /** The thread that sched_run selects: bit cache, queue tail, first entry. */
    method PickNext() returns (t: Pid)
      requires Valid() && Base(k)
      ensures t == NextThread(k) && t in thr && OnRq(thr[t].status)
    {
      assert Opened(0);
      BestExists(k);
      HeadFacts(k, Best(k.s.rq, PRIO_TOP));
      MirrorsRq(k, links.rq, links.lists, links.marked, links.home);
      SameBest(k.s.rq, links.rq, PRIO_TOP);
      assert Rq(k.s.rq, Best(k.s.rq, PRIO_TOP)) == Rq(links.rq, Best(k.s.rq, PRIO_TOP));
      t := links.BestThread();
    }

    /** The last part of sched_run. */
    method Dispatch(next: Pid)
      requires Valid() && next in thr && OnRq(thr[next].status)
      modifies this
      ensures Valid() && k == KernelSpec.Dispatch(old(k), next)
    {
      if active in thr && thr[active].status.Running? {
        Update(active, thr[active].(status := Pending));
      }
      Update(next, thr[next].(status := Running));
      Activate(next);
    }

    method Activate(next: Pid)
      requires Valid()
      modifies `active, `k
      ensures Valid() && k == old(k).(s := old(k).s.(active := next))
    {
      assert Opened(0);
      active := next;
      k := k.(s := k.s.(active := next));
      assert Parts();
    }

    /** sched_run */
    method Run()
      requires Valid() && Base(k)
      modifies this
      ensures Valid() && k == SchedRun(old(k))
    {
      var next := PickNext();
      Quiet();
      if next != active {
        Dispatch(next);
      }
    }

    /** thread_yield */
    method Yield()
      requires Valid() && active in thr
      modifies this, links, links.tails
      ensures Valid() && k == KernelSpec.Yield(old(k))
    {
      if OnRq(thr[active].status) {
        assert Opened(0);
        MirrorsBounds(k, links.rq, links.lists, links.marked, links.home);
        Turn(thr[active].prio);
      }
      YieldHigher();
    }

    /** clist_lpoprpush on run queue p. */
    method Turn(p: nat)
      requires Valid() && p < PRIO_LEVELS
      modifies this, links, links.tails
      ensures Valid() && k == Turned(old(k), p)
    {
      assert Opened(0);
      ghost var k' := Turned(k, p);
      TurnMirrors(k, k', links.rq, links.lists, links.marked, links.home, p);
      links.Rotate(p);
      assert mail.Valid();
      Commit(thr, mem, clock, k');
    }

    /** thread_sleep */
    method Sleep()
      requires Valid() && Poise(k)
      modifies this, links, links.next, links.tails
      ensures Valid() && k == KernelSpec.Sleep(old(k))
    {
      Update(active, thr[active].(call := InSleep));
      Leave(Sleeping);
      YieldHigher();
    }

    /** thread_wakeup */
    method Wakeup(t: Pid) returns (found: bool)
      requires Valid() && Agrees(k.thr) && active in thr
      modifies this, links, links.next, links.tails
      ensures Valid() && k == KernelSpec.Wakeup(old(k), t)
      ensures found <==> t in old(k).thr && old(k).thr[t].status.Sleeping?
    {
      if t !in thr || !thr[t].status.Sleeping? {
        return false;
      }
      assert Agree(t, k.thr[t]);
      var prio := thr[t].prio;
      Join(t, Running);
      Switch(prio);
      return true;
    }

    // -------------------------------------------------------------- threads

    /** The search of thread_create for a free process id; 0 if there is none. */
    method FindPid() returns (t: Pid)
      ensures t == FreePid(thr, PID_FIRST)
    {
      var i := PID_FIRST;
      while i <= PID_LAST
        invariant PID_FIRST <= i <= PID_LAST + 1 && FreePid(thr, PID_FIRST) == FreePid(thr, i)
      {
        if i !in thr {
          return i;
        }
        i := i + 1;
      }
      return 0;
    }

    method NewThread(t: Pid, th: Thread)
      requires Valid() && t !in thr && PID_FIRST <= t <= PID_LAST && th.prio < PRIO_LEVELS && th.inbox == [] && th.cap == 0
      modifies `thr, `k, mail
      ensures Valid() && k == Put(old(k), t, th) && fresh(mail.repr - old(mail.repr))
    {
      assert Opened(0);
      NewMirrors(k, links.rq, links.lists, links.marked, links.home, t, th);
      BoxedChange(thr, mail.inboxes, mail.caps, t, th, mail.inboxes[t := []], mail.caps[t := 0]);
      mail.Init(t, 0);
      thr := thr[t := th];
      k := Put(k, t, th);
      assert Parts();
    }

    ghost method Lax(prio: nat)
      requires Valid()
      modifies `k
      ensures Valid() && k == NoteLax(old(k), prio)
    {
      assert Opened(0);
      k := NoteLax(k, prio);
      assert Parts();
    }

    /** thread_create: the new process id, -EINVAL or -EOVERFLOW. */
    method Create(prio: nat, asleep: bool, noYield: bool, flags: Flags) returns (t: int)
      requires Valid() && active in thr
      modifies this, links, links.next, links.tails, mail
      ensures fresh(mail.repr - old(mail.repr))
      ensures Valid() && k == KernelSpec.Create(old(k), prio, asleep, noYield, flags)
      ensures var free := FreePid(old(k).thr, PID_FIRST); t == (if prio >= PRIO_LEVELS then -22 else if free == 0 then -75 else free)
    {
      if prio >= PRIO_LEVELS {
        return -22;
      }
      t := FindPid();
      if t == 0 {
        return -75;
      }
      NewThread(t, Thread(prio, Stopped, flags, NoData, [], 0, User, None, 0, {}));
      if asleep {
        Stay(t, Sleeping);
      } else {
        Join(t, Pending);
        if noYield {
          Lax(prio);
        } else {
          Switch(prio);
        }
      }
    }

    method Forget()
      requires Valid() && active in thr && !OnRq(thr[active].status) && thr[active].on == None
      modifies `thr, `k, mail
      ensures mail.repr == old(mail.repr)
      ensures Valid() && k == old(k).(thr := old(k).thr - {active},
        x := old(k).x.(sent := KernelSpec.Forget(old(k).x.sent, active), rcvd := KernelSpec.Forget(old(k).x.rcvd, active)))
    {
      assert Opened(0);
      ghost var k' := k.(thr := k.thr - {active},
                         x := k.x.(sent := KernelSpec.Forget(k.x.sent, active), rcvd := KernelSpec.Forget(k.x.rcvd, active)));
      GoneMirrors(k, links.rq, links.lists, links.marked, links.home, k');
      BoxedWithout(thr, mail.inboxes, mail.caps, active);
      mail.Drop(active);
      thr := thr - {active};
      k := k';
      assert Parts();
    }

    /** sched_task_exit, with the switch that ends it. */
    method Exit()
      requires Valid() && Poise(k) && Base(k) && active != PID_IDLE && List(k.w.lists, MsgWaiters(active)) == []
      modifies this, links, links.next, links.tails, mail
      ensures mail.repr == old(mail.repr)
      ensures Valid() && k == KernelSpec.Exit(old(k))
    {
      GoneBase(k);
      Leave(Stopped);
      Forget();
      Run();
    }

    // -------------------------------------------------------------- thread flags

    /** Raising flags and thread_flags_wake: was the thread woken? */
    method RaiseFlags(t: Pid, mask: Flags) returns (woken: bool)
      requires Valid() && t in thr && (FlagBlocked(thr[t].status) ==> thr[t].on == None)
      modifies this, links, links.next, links.tails
      ensures Valid() && k == KernelSpec.RaiseFlags(old(k), t, mask)
      ensures woken <==> FlagsReady(old(k).thr[t].(flags := old(k).thr[t].flags + mask))
    {
      var th := thr[t].(flags := thr[t].flags + mask);
      Update(t, th);
      woken := FlagsReady(th);
      if woken {
        Join(t, Pending);
        SetRequest();
      }
    }

    method SetRequest()
      requires Valid()
      modifies `request, `k
      ensures Valid() && k == Request(old(k))
    {
      assert Opened(0);
      request := true;
      k := Request(k);
      assert Parts();
    }

    /** thread_flags_set */
    method FlagsSet(t: Pid, mask: Flags)
      requires Valid() && Agrees(k.thr)
      modifies this, links, links.next, links.tails
      ensures Valid() && k == KernelSpec.FlagsSet(old(k), t, mask)
    {
      if t in thr {
        assert Agree(t, k.thr[t]);
        var woken := RaiseFlags(t, mask);
        if woken {
          YieldHigher();
        }
      }
    }

    /** The waiting half of thread_flags_wait_any, _one and _all. */
    method FlagsWait(mask: Flags, kind: FlagWait)
      requires Valid() && Poise(k)
      modifies this, links, links.next, links.tails
      ensures Valid() && k == KernelSpec.FlagsWait(old(k), mask, kind)
      ensures KernelCalls.FlagsAwaited(old(k), k, mask, kind)
    {
      KernelCalls.FlagsWaitWaits(k, mask, kind);
      var me := thr[active];
      var enough := if kind == WaitAll then me.flags * mask == mask else me.flags * mask != {};
      if enough {
        Update(active, me.(call := InFlags(mask, kind)));
      } else {
        BlockAs(me.(call := InFlags(mask, kind), wait := FlagMask(mask)), if kind == WaitAll then FlagBlockedAll else FlagBlockedAny);
        YieldHigher();
      }
    }

    /** _thread_flags_clear_atomic at the end of a wait: the flags it returns. */
    method FlagsTake() returns (taken: Flags)
      requires Valid() && active in thr
      modifies `thr, `k
      ensures Valid() && k == KernelSpec.FlagsTake(old(k)) && taken == FlagsResult(old(k))
    {
      var me := thr[active];
      match me.call {
        case InFlags(mask, _) => taken := mask * me.flags;
        case InFlagsPicked(_, pick) => taken := pick * me.flags;
        case _ => taken := {};
      }
      Update(active, me.(flags := me.flags - taken, call := User));
    }

    /** The lowest waited flag that is set, read by thread_flags_wait_one. */
    method FlagsPick()
      requires Valid() && active in thr
      modifies `thr, `k
      ensures Valid() && k == KernelSpec.FlagsPick(old(k))
    {
      var me := thr[active];
      match me.call {
        case InFlags(mask, WaitOne) => Update(active, me.(call := InFlagsPicked(mask, Lowest(me.flags * mask, 0))));
        case _ =>
      }
    }

    /** thread_flags_clear */
    method FlagsClear(mask: Flags)
      requires Valid() && active in thr
      modifies `thr, `k
      ensures Valid() && k == KernelSpec.FlagsClear(old(k), mask)
    {
      Update(active, thr[active].(flags := thr[active].flags - mask));
    }

    /** The return to the caller. */
    method Return()
      requires Valid() && active in thr
      modifies `thr, `k
      ensures Valid() && k == KernelSpec.Return(old(k))
    {
      var me := thr[active];
      match me.call {
        case InLock(m) => Update(active, me.(call := User, has := me.has + {m}));
        case _ => Update(active, me.(call := User));
      }
    }

    // -------------------------------------------------------------- messages

    method WriteMem(a: Addr, m: Msg)
      requires Valid()
      modifies `mem, `k
      ensures Valid() && k == Write(old(k), a, m)
    {
      assert Opened(0);
      mem := mem[a := m];
      k := Write(k, a, m);
      assert Parts();
    }

    /** Copying through a `wait_data` pointer. */
    method CopyOut(wait: WaitData, m: Msg)
      requires Valid()
      modifies `mem, `k
      ensures Valid() && k == KernelSpec.CopyOut(old(k), wait, m)
    {
      match wait
      case Buffer(a) => WriteMem(a, m);
      case _ =>
    }

    ghost method NoteSent(s: Pid, r: Pid, m: Msg)
      requires Valid()
      modifies `k
      ensures Valid() && k == LogSent(old(k), s, r, m)
    {
      assert Opened(0);
      k := LogSent(k, s, r, m);
      assert Parts();
    }

    ghost method NoteRcvd(s: Pid, r: Pid, m: Msg)
      requires Valid()
      modifies `k
      ensures Valid() && k == LogRcvd(old(k), s, r, m)
    {
      assert Opened(0);
      k := LogRcvd(k, s, r, m);
      assert Parts();
    }

    method RaiseMsgFlag(t: Pid) returns (woken: bool)
      requires Valid() && t in thr && (FlagBlocked(thr[t].status) ==> thr[t].on == None)
      modifies this, links, links.next, links.tails
      ensures Valid() && k == KernelSpec.RaiseMsgFlag(old(k), t)
      ensures woken <==> OnRq(Th(k.thr, t).status) && !OnRq(old(k).thr[t].status)
    {
      woken := false;
      if flagsOn {
        woken := RaiseFlags(t, MSG_WAITING);
      }
    }

    /** cib_put, and the store to msg_array. */
    method PutMsg(t: Pid, m: Msg) returns (ok: bool)
      requires Valid() && t in thr
      modifies `thr, `mem, `clock, `k, mail, mail.repr
      ensures Valid() && mail.repr == old(mail.repr) && (ok <==> HasRoom(old(k).thr[t]))
      ensures k == if ok then Put(old(k), t, old(k).thr[t].(inbox := old(k).thr[t].inbox + [m])) else old(k)
    {
      assert Opened(0);
      var th := thr[t].(inbox := thr[t].inbox + [m]);
      ghost var k', inboxes, caps := Put(k, t, th), mail.inboxes, mail.caps;
      UpdateMirrors(k, links.rq, links.lists, links.marked, links.home, t, th);
      assert BoxOf(thr, inboxes, caps, t);
      ok := mail.Put(t, m);
      assert links.Valid();
      if ok {
        BoxedChange(thr, inboxes, caps, t, th, mail.inboxes, mail.caps);
        Commit(thr[t := th], mem, clock, k');
      } else {
        assert Parts();
      }
    }

    /** queue_msg: was there room, and was the target woken by its flag? */
    method QueueMsg(t: Pid, m: Msg) returns (queued: bool, woken: bool)
      requires Valid() && t in thr && (FlagBlocked(thr[t].status) ==> thr[t].on == None)
      modifies this, links, links.next, links.tails, mail, mail.repr
      ensures Valid() && mail.repr == old(mail.repr) && (queued <==> HasRoom(old(k).thr[t]))
      ensures k == if queued then KernelSpec.QueueMsg(old(k), t, m) else old(k)
      ensures woken <==> OnRq(Th(k.thr, t).status) && !OnRq(old(k).thr[t].status)
    {
      woken := false;
      queued := PutMsg(t, m);
      if queued {
        NoteSent(m.sender, t, m);
        woken := RaiseMsgFlag(t);
      }
    }

    /** Copying a message to a thread that waits for one. */
    method Deliver(t: Pid, m: Msg)
      requires Valid() && t in thr && !OnRq(thr[t].status) && thr[t].on == None
      modifies this, links, links.next, links.tails
      ensures Valid() && k == KernelSpec.Deliver(old(k), t, m)
    {
      CopyOut(thr[t].wait, m);
      Update(t, thr[t].(call := Handed(thr[t].call, m)));
      NoteSent(m.sender, t, m);
      NoteRcvd(m.sender, t, m);
      Join(t, Pending);
    }

    /** The part of _msg_send that queues the message, if there is room. */
    method SendQueued(target: Pid, m: Msg) returns (queued: bool)
      requires Valid() && target in thr && Reachable(thr[target]) && active in thr
      modifies this, links, links.next, links.tails, mail, mail.repr
      ensures Valid() && mail.repr == old(mail.repr) && (queued <==> HasRoom(old(k).thr[target]))
      ensures k == if queued then KernelSpec.SendQueued(old(k), target, m) else old(k)
    {
      var reply := thr[active].status.ReplyBlocked?;
      var woken;
      queued, woken := QueueMsg(target, m);
      if queued {
        if reply {
          YieldHigher();
        } else if woken {
          Lax(thr[target].prio);
        }
      }
    }

    /** The part of _msg_send that blocks the sender. */
    method SendWaiting(buf: Addr, target: Pid, ghost m: Msg)
      requires Valid() && target in thr && target != active && Reachable(thr[target])
      requires active in thr && thr[active].on == None && (Poise(k) || thr[active].status.ReplyBlocked?)
      modifies this, links, links.next, links.tails
      ensures Valid() && k == KernelSpec.SendWaiting(old(k), buf, target, m)
    {
      var me := thr[active];
      BlockToSend(buf, target);
      AddToList(MsgWaiters(target), active);
      NoteSent(active, target, m);
      var _ := RaiseMsgFlag(target);
      YieldHigher();
    }

    method BlockToSend(buf: Addr, target: Pid)
      requires Valid() && active in thr && thr[active].on == None && (Poise(k) || thr[active].status.ReplyBlocked?)
      modifies this, links, links.next, links.tails
      ensures Valid() && k == Block(old(k), Me(old(k)).(wait := Buffer(buf), call := if Me(old(k)).status.ReplyBlocked? then Me(old(k)).call else InSend(target)),
                                    if Me(old(k)).status.ReplyBlocked? then ReplyBlocked else SendBlocked)
      ensures k.s.active == old(k).s.active && k.w == old(k).w && k.l == old(k).l && k.flagsOn == old(k).flagsOn
      ensures k.thr.Keys == old(k).thr.Keys && !OnRq(Me(k).status) && Me(k).on == None
      ensures forall t :: t != old(k).s.active && t in k.thr ==> k.thr[t] == old(k).thr[t]
    {
      var me := thr[active];
      if me.status.ReplyBlocked? {
        Update(active, me.(wait := Buffer(buf)));
        Stay(active, ReplyBlocked);
      } else {
        BlockAs(me.(wait := Buffer(buf), call := InSend(target)), SendBlocked);
      }
    }

    /** _msg_send behind the stamp: -1 without a target, 0 if a message that must not
        block found no room, 1 otherwise. */
    method SendStamped(buf: Addr, target: Pid, block: bool) returns (r: int)
      requires Valid() && target != active && (target in thr ==> Reachable(thr[target]))
      requires active in thr && thr[active].on == None && (Poise(k) || thr[active].status.ReplyBlocked?)
      modifies this, links, links.next, links.tails, mail, mail.repr
      ensures mail.repr == old(mail.repr)
      ensures Valid() && k == KernelSpec.SendStamped(old(k), buf, target, block)
      ensures r == SendResult(old(k), target, block)
    {
      if target !in thr {
        return -1;
      }
      var m := Read(mem, buf);
      if thr[target].status.ReceiveBlocked? {
        Deliver(target, m);
        YieldHigher();
        return 1;
      }
      var queued := SendQueued(target, m);
      if queued {
        return 1;
      }
      if !block {
        return 0;
      }
      SendWaiting(buf, target, m);
      return 1;
    }

    /** `m->sender_pid = sched_active_pid` */
    method Stamp(buf: Addr)
      requires Valid()
      modifies `mem, `k
      ensures Valid() && k == KernelSpec.Stamp(old(k), buf)
    {
      WriteMem(buf, Read(mem, buf).(sender := active));
    }

    /** msg_send and msg_try_send */
    method Send(buf: Addr, target: Pid, block: bool) returns (r: int)
      requires Valid() && Poise(k) && Agrees(k.thr)
      modifies this, links, links.next, links.tails, mail, mail.repr
      ensures mail.repr == old(mail.repr)
      ensures Valid() && k == KernelSpec.Send(old(k), buf, target, block)
      ensures r == SendReturns(old(k), target, block)
    {
      assert target in k.thr ==> Agree(target, k.thr[target]);
      Stamp(buf);
      if target == active {
        r := QueueToSelf(buf);
      } else {
        r := SendStamped(buf, target, block);
      }
    }

    /** msg_send_to_self behind the stamp. */
    method QueueToSelf(buf: Addr) returns (r: int)
      requires Valid() && active in thr && Reachable(thr[active])
      modifies this, links, links.next, links.tails, mail, mail.repr
      ensures Valid() && mail.repr == old(mail.repr)
      ensures k == if HasRoom(Me(old(k))) then KernelSpec.QueueMsg(old(k), old(k).s.active, Read(old(k).x.mem, buf)) else old(k)
      ensures r == if HasRoom(Me(old(k))) then 1 else 0
    {
      var queued, _ := QueueMsg(active, Read(mem, buf));
      return if queued then 1 else 0;
    }

    /** msg_send_receive */
    method SendReceive(m: Msg, reply: Addr, target: Pid) returns (r: int)
      requires Valid() && Poise(k) && Agrees(k.thr) && target != active
      modifies this, links, links.next, links.tails, mail, mail.repr
      ensures mail.repr == old(mail.repr)
      ensures Valid() && k == KernelSpec.SendReceive(old(k), m, reply, target)
      ensures r == if target in old(k).thr then 1 else -1
    {
      assert target in k.thr ==> Agree(target, k.thr[target]);
      BlockAs(thr[active].(wait := Buffer(reply), call := InSendReceive(reply, target, None)), ReplyBlocked);
      WriteMem(reply, m);
      Stamp(reply);
      r := SendStamped(reply, target, true);
    }

    /** Handing a reply to a thread that waits for one. */
    method ReplyTo(t: Pid, m: Msg)
      requires Valid() && t in thr && !OnRq(thr[t].status) && thr[t].on == None
      modifies this, links, links.next, links.tails
      ensures Valid() && k == KernelSpec.ReplyTo(old(k), t, m)
    {
      CopyOut(thr[t].wait, m);
      Update(t, thr[t].(call := Handed(thr[t].call, m)));
      Join(t, Pending);
    }

    /** msg_reply */
    method Reply(t: Pid, m: Msg) returns (r: int)
      requires Valid() && active in thr && (AwaitsReply(k, t) ==> thr[t].on == None)
      modifies this, links, links.next, links.tails
      ensures Valid() && k == KernelSpec.Reply(old(k), t, m) && r == if AwaitsReply(old(k), t) then 1 else -1
    {
      if t !in thr || !thr[t].status.ReplyBlocked? {
        return -1;
      }
      var prio := thr[t].prio;
      ReplyTo(t, m);
      Switch(prio);
      return 1;
    }

    /** The sender part of _msg_receive. */
    method ReleaseSender(s: Pid)
      requires Valid() && s in thr && !OnRq(thr[s].status) && thr[s].on == None && active in thr
      modifies this, links, links.next, links.tails
      ensures Valid() && k == KernelSpec.ReleaseSender(old(k), s)
    {
      if !thr[s].status.ReplyBlocked? {
        var prio := thr[s].prio;
        Update(s, thr[s].(wait := NoData));
        Join(s, Pending);
        if prio < PRIO_IDLE {
          Switch(prio);
        }
      }
    }

    /** _msg_receive with a queued message: cib_get and the copy. */
    method TakeQueued(buf: Addr) returns (got: bool)
      requires Valid() && active in thr
      modifies this, mail, mail.repr
      ensures Valid() && mail.repr == old(mail.repr) && (got <==> Me(old(k)).inbox != [])
      ensures k == if got then KernelSpec.TakeQueued(old(k), buf) else old(k)
    {
      assert Opened(0);
      assert BoxOf(thr, mail.inboxes, mail.caps, active);
      ghost var inboxes, caps := mail.inboxes, mail.caps;
      var m := mail.Get(active);
      assert links.Valid();
      if m == None {
        assert Parts();
        return false;
      }
      var th := thr[active].(inbox := thr[active].inbox[1..], call := InReceive(buf, m));
      ghost var k' := KernelSpec.TakeQueued(k, buf);
      TakeMirrors(k, k', links.rq, links.lists, links.marked, links.home, buf, th);
      BoxedChange(thr, inboxes, caps, active, th, mail.inboxes, mail.caps);
      Commit(thr[active := th], mem[buf := m.value], clock, k');
      return true;
    }

    /** The first waiting sender's message goes to the place that became free. */
    method Refill()
      requires Valid() && active in thr && List(k.w.lists, MsgWaiters(active)) != [] && Blocked(k, List(k.w.lists, MsgWaiters(active))[0])
      requires OnRq(thr[active].status) && HasRoom(thr[active])
      modifies this, links, links.next, links.tails, mail, mail.repr
      ensures Valid() && mail.repr == old(mail.repr) && k == KernelSpec.Refill(old(k))
    {
      var r := MsgWaiters(active);
      var s := FirstOf(r);
      var _ := PutMsg(active, WaitingMsg(mem, thr[s]));
      var _ := RemoveHead(r);
      ReleaseSender(s);
    }

    /** The first entry of a wait list of senders. */
    method FirstOf(r: ListRef) returns (t: Pid)
      requires Valid() && r.MsgWaiters? && List(k.w.lists, r) != []
      ensures t == List(k.w.lists, r)[0]
    {
      assert Opened(0);
      MirrorsList(k, links.rq, links.lists, links.marked, links.home, r);
      t := links.HeadWord(r);
    }

    /** _msg_receive with an empty queue and a waiting sender. */
    method TakeWaiting(buf: Addr)
      requires Valid() && active in thr && List(k.w.lists, MsgWaiters(active)) != [] && Blocked(k, List(k.w.lists, MsgWaiters(active))[0])
      requires OnRq(thr[active].status)
      modifies this, links, links.next, links.tails
      ensures Valid() && k == KernelSpec.TakeWaiting(old(k), buf)
    {
      var r := MsgWaiters(active);
      var s := FirstOf(r);
      var m := WaitingMsg(mem, thr[s]);
      Update(active, thr[active].(wait := Buffer(buf), call := InReceive(buf, Some(m))));
      WriteMem(buf, m);
      NoteRcvd(m.sender, active, m);
      var _ := RemoveHead(r);
      ReleaseSender(s);
    }

    /** _msg_receive: false if there was nothing to receive and it must not block. */
    method Receive(buf: Addr, block: bool) returns (r: bool)
      requires Valid() && Poise(k) && Fronts(k) && |Me(k).inbox| <= Me(k).cap
      modifies this, links, links.next, links.tails, mail, mail.repr
      ensures Valid() && mail.repr == old(mail.repr) && k == KernelSpec.Receive(old(k), buf, block)
      ensures KernelCalls.Received(old(k), k, buf, block)
      ensures !r <==> Me(old(k)).inbox == [] && List(old(k).w.lists, MsgWaiters(old(k).s.active)) == [] && !block
    {
      KernelCalls.ReceiveTakesOrWaits(k, buf, block);
      var none := IsEmpty(MsgWaiters(active));
      assert !none ==> Blocked(k, List(k.w.lists, MsgWaiters(active))[0]);
      var got := TakeQueued(buf);
      if got {
        if !none {
          Refill();
        }
      } else if !none {
        TakeWaiting(buf);
      } else if block {
        BlockAs(thr[active].(wait := Buffer(buf), call := InReceive(buf, None)), ReceiveBlocked);
        YieldHigher();
      } else {
        return false;
      }
      return true;
    }

    /** msg_init_queue */
    method InitQueue(n: nat)
      requires Valid() && active in thr && Cib.Sound(n)
      modifies `thr, `k, mail
      ensures Valid() && fresh(mail.repr - old(mail.repr)) && k == KernelSpec.InitQueue(old(k), n)
    {
      assert Opened(0);
      Cib.SoundBound(n);
      ghost var th := thr[active].(inbox := [], cap := n);
      UpdateMirrors(k, links.rq, links.lists, links.marked, links.home, active, th);
      BoxedChange(thr, mail.inboxes, mail.caps, active, th, mail.inboxes[active := []], mail.caps[active := n]);
      mail.Init(active, n);
      thr := thr[active := thr[active].(inbox := [], cap := n)];
      k := Put(k, active, th);
      assert Parts();
    }

    // -------------------------------------------------------------- interrupt handlers

    /** The end of a handler. */
    method IsrEnd()
      requires Valid()
      modifies `pend, `k
      ensures Valid() && k == KernelSpec.IsrEnd(old(k))
    {
      if request {
        YieldHigher();
      }
    }

    /** msg_send_int */
    method SendInt(m: Msg, target: Pid) returns (r: int)
      requires Valid() && (target in thr ==> Reachable(thr[target]))
      modifies this, links, links.next, links.tails, mail, mail.repr
      ensures mail.repr == old(mail.repr)
      ensures Valid() && k == KernelSpec.SendInt(old(k), m, target) && r == SendResult(old(k), target, false)
    {
      if target !in thr {
        return -1;
      }
      var m' := m.(sender := PID_ISR);
      if thr[target].status.ReceiveBlocked? {
        Deliver(target, m');
        SetRequest();
        return 1;
      }
      var queued, _ := QueueMsg(target, m');
      return if queued then 1 else 0;
    }

    /** msg_reply_int */
    method ReplyInt(t: Pid, m: Msg) returns (r: int)
      requires Valid() && (AwaitsReply(k, t) ==> thr[t].on == None)
      modifies this, links, links.next, links.tails
      ensures Valid() && k == KernelSpec.ReplyInt(old(k), t, m) && r == if AwaitsReply(old(k), t) then 1 else -1
    {
      if t !in thr || !thr[t].status.ReplyBlocked? {
        return -1;
      }
      ReplyTo(t, m);
      SetRequest();
      return 1;
    }

    // -------------------------------------------------------------- mutexes

    /** `mutex->queue.next = MUTEX_LOCKED` or `= NULL`, and the recorded holder. */
    method SetMutex(m: MutexId, locked: bool, ghost l: Locks)
      requires Valid() && List(k.w.lists, MutexQ(m)) == [] && l.marked == (if locked then k.l.marked + {m} else k.l.marked - {m})
      modifies links, `k
      ensures Valid() && k == old(k).(l := l)
    {
      assert Opened(0);
      ghost var k' := k.(l := l);
      MarkMirrors(k, k', links.rq, links.lists, links.marked, links.home, m, l);
      links.Mark(m, locked);
      assert mail.Valid();
      k := k';
      assert Parts();
    }

    /** What `queue.next` says: NULL for a free mutex, MUTEX_LOCKED for one without
        waiters. */
    method MutexWord(m: MutexId) returns (w: Pid)
      requires Valid() && Marks(k)
      ensures w == 0 <==> IsFree(k, m)
      ensures w == LOCKED <==> m in k.l.marked
    {
      assert Opened(0);
      MirrorsList(k, links.rq, links.lists, links.marked, links.home, MutexQ(m));
      w := links.HeadWord(MutexQ(m));
    }

    /** _mutex_lock */
    method Lock(m: MutexId, blocking: bool) returns (r: bool)
      requires Valid() && Marks(k) && Poise(k)
      modifies this, links, links.next, links.tails
      ensures Valid() && k == KernelSpec.Lock(old(k), m, blocking)
      ensures KernelCalls.Locked(old(k), k, m, blocking)
      ensures r <==> IsFree(old(k), m) || blocking
    {
      KernelCalls.LockLocks(k, m, blocking);
      var w := MutexWord(m);
      if w == 0 {
        Acquire(m);
        return true;
      }
      if !blocking {
        return false;
      }
      WaitForMutex(m, w);
      return true;
    }

    method Acquire(m: MutexId)
      requires Valid() && IsFree(k, m) && active in thr
      modifies this, links
      ensures Valid() && k == KernelSpec.Acquire(old(k), m)
    {
      ghost var l := Locks(k.l.marked + {m}, k.l.holder[m := active]);
      Update(active, thr[active].(has := thr[active].has + {m}, call := User));
      SetMutex(m, true, l);
    }

    /** The first waiter of a locked mutex takes the place of the mark. */
    method AddFirst(m: MutexId, t: Pid, ghost l: Locks)
      requires Valid() && t in thr && !OnRq(thr[t].status) && thr[t].on == None && List(k.w.lists, MutexQ(m)) == []
      requires l == k.l.(marked := k.l.marked - {m})
      modifies this, links, links.next
      ensures Valid() && k == KernelSpec.AddToList(old(k).(l := l), MutexQ(m), t)
    {
      assert Opened(0);
      var th := thr[t].(on := Some(MutexQ(m)), since := clock);
      ghost var k' := KernelSpec.AddToList(k.(l := l), MutexQ(m), t);
      FirstMirrors(k, links.rq, links.lists, links.marked, links.home, m, t, l);
      BoxedSame(thr, mail.inboxes, mail.caps, t, th);
      links.FirstWaiter(m, t);
      assert mail.Valid();
      Commit(thr[t := th], mem, clock + 1, k');
    }

    method WaitForMutex(m: MutexId, w: Pid)
      requires Valid() && Marks(k) && Poise(k)
      requires w == LOCKED <==> m in k.l.marked
      modifies this, links, links.next, links.tails
      ensures Valid() && k == KernelSpec.WaitForMutex(old(k), m)
    {
      BlockAs(thr[active].(call := InLock(m)), MutexBlocked);
      if w == LOCKED {
        AddFirst(m, active, k.l.(marked := k.l.marked - {m}));
      } else {
        assert k.l.marked - {m} == k.l.marked;
        AddToList(MutexQ(m), active);
      }
      YieldHigher();
    }

    method SetHolder(ghost l: Locks)
      requires Valid() && l.marked == k.l.marked
      modifies `k
      ensures Valid() && k == old(k).(l := l)
    {
      assert Opened(0);
      k := k.(l := l);
      assert Parts();
    }

    /** mutex_unlock without waiters. */
    method FreeMutex(m: MutexId)
      requires Valid() && List(k.w.lists, MutexQ(m)) == [] && active in thr
      modifies this, links
      ensures Valid() && k == KernelSpec.FreeMutex(old(k), m)
    {
      ghost var l := Locks(k.l.marked - {m}, k.l.holder - {m});
      Update(active, thr[active].(has := thr[active].has - {m}));
      SetMutex(m, false, l);
    }

    /** mutex_unlock with waiters. */
    method HandOff(m: MutexId) returns (t: Pid)
      requires Valid() && m !in k.l.marked && active in thr && OnRq(thr[active].status)
      requires List(k.w.lists, MutexQ(m)) != [] && Blocked(k, List(k.w.lists, MutexQ(m))[0])
      modifies this, links, links.next, links.tails
      ensures Valid() && k == KernelSpec.HandOff(old(k), m) && t == List(old(k).w.lists, MutexQ(m))[0]
    {
      ghost var q := List(k.w.lists, MutexQ(m));
      ghost var l := Locks(if |q| == 1 then k.l.marked + {m} else k.l.marked, k.l.holder[m := q[0]]);
      Update(active, thr[active].(has := thr[active].has - {m}));
      t := Wake(MutexQ(m));
      assert List(k.w.lists, MutexQ(m)) == q[1..];
      var empty := IsEmpty(MutexQ(m));
      if empty {
        SetMutex(m, true, l);
      } else {
        SetHolder(l);
      }
    }

    /** Is the list's head pointer NULL? */
    method IsEmpty(r: ListRef) returns (empty: bool)
      requires Valid() && !(r.MutexQ? && r.m in k.l.marked)
      ensures empty <==> List(k.w.lists, r) == []
    {
      assert Opened(0);
      MirrorsList(k, links.rq, links.lists, links.marked, links.home, r);
      var w := links.HeadWord(r);
      return w == 0;
    }

    /** The part that mutex_unlock and mutex_unlock_and_sleep share; t is the thread that
        was woken, or 0. */
    method Release(m: MutexId) returns (t: Pid)
      requires Valid() && Marks(k) && Fronts(k) && active in thr && OnRq(thr[active].status)
      modifies this, links, links.next, links.tails
      ensures Valid() && k == KernelSpec.Release(old(k), m)
      ensures var q := List(old(k).w.lists, MutexQ(m)); t == (if m in old(k).l.marked || q == [] then 0 else q[0])
    {
      t := 0;
      var w := MutexWord(m);
      if w == LOCKED {
        FreeMutex(m);
      } else if w != 0 {
        t := HandOff(m);
      }
    }

    /** mutex_unlock */
    method Unlock(m: MutexId)
      requires Valid() && Marks(k) && Fronts(k) && active in thr && OnRq(thr[active].status)
      modifies this, links, links.next, links.tails
      ensures Valid() && k == KernelSpec.Unlock(old(k), m)
    {
      ghost var q := List(k.w.lists, MutexQ(m));
      assert q != [] ==> Blocked(k, q[0]);
      assert Opened(0);
      MirrorsBounds(k, links.rq, links.lists, links.marked, links.home);
      var t := Release(m);
      if t != 0 {
        Switch(thr[t].prio);
      }
    }

    /** mutex_unlock_and_sleep */
    method UnlockAndSleep(m: MutexId)
      requires Valid() && Marks(k) && Fronts(k) && Poise(k)
      modifies this, links, links.next, links.tails
      ensures Valid() && k == KernelSpec.UnlockAndSleep(old(k), m)
    {
      ReleasePoise(k, m);
      var _ := Release(m);
      Sleep();
    }

    // -------------------------------------------------------------- condition variables

    /** The first section of cond_wait. */
    method CondWait(c: CondId, m: MutexId)
      requires Valid() && Marks(k) && Fronts(k) && Poise(k)
      modifies this, links, links.next, links.tails
      ensures Valid() && k == KernelSpec.CondWait(old(k), c, m)
      ensures KernelCalls.CondWaited(old(k), k, c, m)
    {
      KernelCalls.CondWaitStarts(k, c, m);
      UnlockPoise(k, m);
      Unlock(m);
      BlockAs(thr[active].(call := InCond(c, m)), CondBlocked);
      AddToList(CondQ(c), active);
      YieldHigher();
    }

    /** The second section of cond_wait: mutex_lock. */
    method Relock()
      requires Valid() && Marks(k) && Poise(k)
      modifies this, links, links.next, links.tails
      ensures Valid() && k == KernelSpec.Relock(old(k))
    {
      match thr[active].call
      case InCond(_, m) => var _ := Lock(m, true);
      case _ =>
    }

    /** One round of the loop in _cond_signal. */
    method WakeOne(c: CondId, least0: nat, ghost k0: K, ghost q: seq<Pid>, ghost n: nat) returns (least: nat)
      requires Valid() && Woken(k0, k, c, q, n, least0) && List(k.w.lists, CondQ(c)) != []
      modifies this, links, links.next, links.tails
      ensures Valid() && n < |q| && Woken(k0, k, c, q, n + 1, least) && k == WakeHead(old(k), CondQ(c)) && k.s.active == old(k).s.active
    {
      WokenStep(k0, k, c, q, n, least0);
      var t := Wake(CondQ(c));
      least := if thr[t].prio < least0 then thr[t].prio else least0;
    }

    /** The loop of _cond_signal; least is min_prio. */
    method WakeWaiters(c: CondId, broadcast: bool) returns (least: nat)
      requires Valid() && AllBlocked(k, CondQ(c)) && active in thr
      modifies this, links, links.next, links.tails
      ensures Valid() && active == old(active) && active in thr && Signalled(old(k), k, c, broadcast, least)
    {
      ghost var k0, q, n := k, List(k.w.lists, CondQ(c)), 0;
      least := PRIO_MIN + 1;
      WokenStart(k, c);
      while true
        invariant Valid() && Woken(k0, k, c, q, n, least) && k.s.active == k0.s.active
        invariant (n > 0 ==> broadcast) && (n == 0 ==> k == k0)
        decreases |q| - n
      {
        var empty := IsEmpty(CondQ(c));
        if empty {
          WokenEnd(k0, k, c, q, n, least, broadcast);
          return;
        }
        least := WakeOne(c, least, k0, q, n);
        n := n + 1;
        if !broadcast {
          WokenOne(k0, k, c, q, n, least);
          return;
        }
      }
    }

    /** _cond_signal */
    method Signal(c: CondId, broadcast: bool)
      requires Valid() && AllBlocked(k, CondQ(c)) && active in thr
      modifies this, links, links.next, links.tails
      ensures Valid() && k == KernelSpec.Signal(old(k), c, broadcast)
    {
      assert Opened(0);
      MirrorsBounds(k, links.rq, links.lists, links.marked, links.home);
      LeastPrio(k.thr, List(k.w.lists, CondQ(c)));
      var least := WakeWaiters(c, broadcast);
      if least <= PRIO_MIN {
        Switch(least);
      }
    }
  }

  /** The loop of _cond_signal after n wake-ups from the list q. */
  ghost predicate Woken(k0: K, k: K, c: CondId, q: seq<Pid>, n: nat, least: nat) {
    && n <= |q| && List(k.w.lists, CondQ(c)) == q[n..] && WakeAll(k, c) == WakeAll(k0, c)
    && Distinct(q) && (forall j :: n <= j < |q| ==> Blocked(k, q[j]))
    && SamePrios(k0.thr, k.thr) && least == MinPrio(k0.thr, q[..n]) && k0.s.active in k.thr
  }

  lemma WokenStart(k: K, c: CondId)
    requires AllBlocked(k, CondQ(c)) && k.s.active in k.thr
    ensures Woken(k, k, c, List(k.w.lists, CondQ(c)), 0, PRIO_MIN + 1)
  {
    var q := List(k.w.lists, CondQ(c));
    forall j | 0 <= j < |q| ensures Blocked(k, q[j]) {
      assert q[j] in q;
    }
  }

  lemma WokenStep(k0: K, k: K, c: CondId, q: seq<Pid>, n: nat, least: nat)
    requires Woken(k0, k, c, q, n, least) && List(k.w.lists, CondQ(c)) != []
    ensures n < |q| && Blocked(k, q[n]) && List(k.w.lists, CondQ(c))[0] == q[n]
    ensures var k' := WakeHead(k, CondQ(c)); var prio := Th(k'.thr, q[n]).prio;
      && q[n] in k'.thr && k'.s.active == k.s.active
      && Woken(k0, k', c, q, n + 1, if prio < least then prio else least)
  {
    var k' := WakeHead(k, CondQ(c));
    assert q[..n + 1][..n] == q[..n] && q[n..][1..] == q[n + 1..];
    forall j | n + 1 <= j < |q| ensures Blocked(k', q[j]) {
      assert q[j] != q[n] && Blocked(k, q[j]);
    }
    forall t ensures Th(k0.thr, t).prio == Th(k'.thr, t).prio {
      assert Th(k0.thr, t).prio == Th(k.thr, t).prio;
    }
  }

  /** What the loop has done at its end: the wake-ups, and their best priority. */
  ghost predicate Signalled(k0: K, k: K, c: CondId, broadcast: bool, least: nat) {
    var q := List(k0.w.lists, CondQ(c));
    && k == (if q == [] then k0 else if broadcast then WakeAll(k0, c) else WakeHead(k0, CondQ(c)))
    && least == MinPrio(k0.thr, if broadcast || q == [] then q else q[..1])
  }

  lemma WokenEnd(k0: K, k: K, c: CondId, q: seq<Pid>, n: nat, least: nat, broadcast: bool)
    requires Woken(k0, k, c, q, n, least) && q == List(k0.w.lists, CondQ(c)) && List(k.w.lists, CondQ(c)) == []
    requires (n > 0 ==> broadcast) && (n == 0 ==> k == k0)
    ensures Signalled(k0, k, c, broadcast, least)
  {
    assert n == |q| && q[..n] == q;
  }

  lemma WokenOne(k0: K, k: K, c: CondId, q: seq<Pid>, n: nat, least: nat)
    requires Woken(k0, k, c, q, n, least) && q == List(k0.w.lists, CondQ(c)) && n == 1 && k == WakeHead(k0, CondQ(c))
    ensures Signalled(k0, k, c, false, least)
  {
  }

  /** min_prio is in range as soon as a thread was woken. */
  lemma LeastPrio(thr: map<Pid, Thread>, q: seq<Pid>)
    requires InBounds(thr) && forall t :: t in q ==> t in thr
    ensures q == [] ==> MinPrio(thr, q) == PRIO_MIN + 1
    ensures q != [] ==> MinPrio(thr, q) <= PRIO_MIN && MinPrio(thr, q[..1]) <= PRIO_MIN
  {
    if q != [] {
      assert q[0] in q && q[0] in q[..1];
    }
  }

  ghost predicate SamePrios(thr: map<Pid, Thread>, thr': map<Pid, Thread>) {
    forall t :: Th(thr, t).prio == Th(thr', t).prio
  }

  lemma UnlockPoise(k: K, m: MutexId)
    requires Fronts(k) && Poise(k)
    ensures Poise(KernelSpec.Unlock(k, m)) && KernelSpec.Unlock(k, m).s.active == k.s.active
  {
    var q := List(k.w.lists, MutexQ(m));
    assert q != [] ==> Blocked(k, q[0]);
  }

  lemma ReleasePoise(k: K, m: MutexId)
    requires Fronts(k) && Poise(k)
    ensures Poise(KernelSpec.Release(k, m)) && KernelSpec.Release(k, m).s.active == k.s.active
  {
    var q := List(k.w.lists, MutexQ(m));
    assert q != [] ==> Blocked(k, q[0]);
  }

  lemma {:induction false} SameBest(a: RunQueues, b: RunQueues, from: nat)
    requires SameRqs(a, b) && from <= PRIO_LEVELS
    ensures Best(a, from) == Best(b, from)
    decreases PRIO_LEVELS - from
  {
    assert Rq(a, from) == Rq(b, from);
    if from < PRIO_LEVELS { SameBest(a, b, from + 1); }
  }

  /** The empty queues of the two threads that kernel_init creates. */
  method BootMail() returns (m: Mailboxes.Boxes)
    ensures m.Valid() && fresh(m) && fresh(m.repr)
    ensures m.inboxes == map[PID_IDLE := [], PID_MAIN := []] && m.caps == map[PID_IDLE := 0, PID_MAIN := 0]
  {
    m := new Mailboxes.Boxes();
    m.Init(PID_IDLE, 0);
    m.Init(PID_MAIN, 0);
  }

  /** The run queues with the two threads that kernel_init creates. */
  method BootLinks() returns (l: Links)
    ensures l.Valid() && fresh(l) && fresh(l.next) && fresh(l.tails) && l.lists == map[] && l.marked == {}
    ensures var rq1 := map[][PRIO_IDLE := Rq(map[], PRIO_IDLE) + [PID_IDLE]]; l.rq == rq1[PRIO_MAIN := Rq(rq1, PRIO_MAIN) + [PID_MAIN]]
    ensures l.home == map[][PID_IDLE := RunQ(PRIO_IDLE)][PID_MAIN := RunQ(PRIO_MAIN)]
  {
    l := new Links();
    l.Enqueue(PRIO_IDLE, PID_IDLE);
    l.Enqueue(PRIO_MAIN, PID_MAIN);
  }

  /** Taking a queued message changes one control block and the buffer. */
  lemma TakeMirrors(k: K, k': K, rq: RunQueues, lists: WaitLists, marked: set<MutexId>, home: map<Pid, Place>, buf: Addr, th: Thread)
    requires Mirrors(k, rq, lists, marked, home) && k.s.active in k.thr && Me(k).inbox != [] && k' == KernelSpec.TakeQueued(k, buf)
    requires th == Me(k).(inbox := Me(k).inbox[1..], call := InReceive(buf, Some(Me(k).inbox[0])))
    ensures Mirrors(k', rq, lists, marked, home)
    ensures k'.thr == k.thr[k.s.active := th] && k'.x.mem == k.x.mem[buf := Me(k).inbox[0]]
    ensures k'.s == k.s && k'.w == k.w && k'.flagsOn == k.flagsOn
  {
    assert Compared(0);
  }

  lemma BootBoxed(thr: map<Pid, Thread>, f1: Flags, f2: Flags)
    requires thr == map[PID_IDLE := KernelRuns.Fresh(PRIO_IDLE, f1), PID_MAIN := KernelRuns.Fresh(PRIO_MAIN, f2)]
    ensures Boxed(thr, map[PID_IDLE := [], PID_MAIN := []], map[PID_IDLE := 0, PID_MAIN := 0])
  {
  }

  lemma BootMirrors(k: K, flagsOn: bool, f1: Flags, f2: Flags, rq: RunQueues, home: map<Pid, Place>)
    requires k == KernelRuns.CreateBoth(flagsOn, f1, f2)
    requires var rq1 := map[][PRIO_IDLE := Rq(map[], PRIO_IDLE) + [PID_IDLE]]; rq == rq1[PRIO_MAIN := Rq(rq1, PRIO_MAIN) + [PID_MAIN]]
    requires home == map[][PID_IDLE := RunQ(PRIO_IDLE)][PID_MAIN := RunQ(PRIO_MAIN)]
    ensures Mirrors(k, rq, map[], {}, home) && k.flagsOn == flagsOn
    ensures k.thr == map[PID_IDLE := KernelRuns.Fresh(PRIO_IDLE, f1), PID_MAIN := KernelRuns.Fresh(PRIO_MAIN, f2)]
    ensures k.s.active == 0 && !k.s.pend && !k.s.request && k.x.mem == map[] && k.w.clock == 0
  {
    assert Compared(0);
    KernelRuns.BootTables(flagsOn, f1, f2);
    assert rq == map[PRIO_IDLE := [PID_IDLE], PRIO_MAIN := [PID_MAIN]];
  }
}
