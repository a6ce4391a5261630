/** The kernel as a step machine. Each function below is one section of code that
    runs with interrupts disabled, or a helper such a section calls; the lists are
    sequences and every queue operation is the operation the source performs. */
module KernelSpec {
  import opened KernelTypes

  /** The scheduler's globals. `pend` is the pending yield: it is taken as `SchedRun`
      before the active thread executes anything else. `request` is
      `sched_context_switch_request`. `lax` is bookkeeping: since the last scheduler
      run a better thread was woken without a yield. */
  datatype Sched = Sched(rq: map<nat, seq<Pid>>, active: Pid, pend: bool, request: bool, lax: bool)

  /** All wait lists, and a clock that stamps every insertion. */
  datatype Waits = Waits(lists: map<ListRef, seq<Pid>>, clock: nat)

  /** The mutexes whose `queue.next` is MUTEX_LOCKED, and the recorded holders. */
  datatype Locks = Locks(marked: set<MutexId>, holder: map<MutexId, Pid>)

  /** Message buffers, and for each sender and receiver what was sent and received. */
  datatype Mails = Mails(mem: map<Addr, Msg>, sent: map<(Pid, Pid), seq<Msg>>, rcvd: map<(Pid, Pid), seq<Msg>>)

  datatype K = K(flagsOn: bool, thr: map<Pid, Thread>, s: Sched, w: Waits, l: Locks, x: Mails)

  const NO_THREAD := Thread(PRIO_IDLE, Stopped, {}, NoData, [], 0, User, None, 0, {})

  // Lookups; the second case of each is never met in a reachable state.

  function Th(thr: map<Pid, Thread>, t: Pid): Thread {
    if t in thr then thr[t] else NO_THREAD
  }

  function Rq(rq: map<nat, seq<Pid>>, p: nat): seq<Pid> {
    if p in rq then rq[p] else []
  }

  function List(lists: map<ListRef, seq<Pid>>, r: ListRef): seq<Pid> {
    if r in lists then lists[r] else []
  }

  function Read(mem: map<Addr, Msg>, a: Addr): Msg {
    if a in mem then mem[a] else ZERO_MSG
  }

  function Log(log: map<(Pid, Pid), seq<Msg>>, s: Pid, r: Pid): seq<Msg> {
    if (s, r) in log then log[(s, r)] else []
  }

  function Append(log: map<(Pid, Pid), seq<Msg>>, s: Pid, r: Pid, m: Msg): map<(Pid, Pid), seq<Msg>> {
    log[(s, r) := Log(log, s, r) + [m]]
  }

  function Put(k: K, t: Pid, th: Thread): K {
    k.(thr := k.thr[t := th])
  }

  function Write(k: K, a: Addr, m: Msg): K {
    k.(x := k.x.(mem := k.x.mem[a := m]))
  }

  function LogSent(k: K, s: Pid, r: Pid, m: Msg): K {
    k.(x := k.x.(sent := Append(k.x.sent, s, r, m)))
  }

  function LogRcvd(k: K, s: Pid, r: Pid, m: Msg): K {
    k.(x := k.x.(rcvd := Append(k.x.rcvd, s, r, m)))
  }

  /** thread_yield_higher */
  function Pend(k: K): K {
    k.(s := k.s.(pend := true))
  }

  function Request(k: K): K {
    k.(s := k.s.(request := true))
  }

  /** Record that thread t was woken and no yield follows. */
  function NoteLax(k: K, prio: nat): K {
    k.(s := k.s.(lax := k.s.lax || prio < Me(k).prio))
  }

  function Me(k: K): Thread {
    Th(k.thr, k.s.active)
  }

  // ---------------------------------------------------------------- scheduler

  function Tail(q: seq<Pid>): seq<Pid> {
    if q == [] then [] else q[1..]
  }

  /** sched_set_status: joining the run queue appends; leaving it pops the HEAD of
      the thread's queue, whichever thread that is. */
  function SetStatus(k: K, t: Pid, s: Status): K {
    var th := Th(k.thr, t);
    var q := Rq(k.s.rq, th.prio);
    var q' := if OnRq(s) == OnRq(th.status) then q
              else if OnRq(s) then q + [t]
              else Tail(q);
    k.(thr := k.thr[t := th.(status := s)], s := k.s.(rq := k.s.rq[th.prio := q']))
  }

  /** The active thread leaves the run queue, after `th` recorded what it waits for. */
  function Block(k: K, th: Thread, s: Status): K {
    SetStatus(Put(k, k.s.active, th), k.s.active, s)
  }

  /** sched_switch. In an interrupt handler the yield is requested and happens when
      the handler ends, which is again before the active thread goes on. */
  function SchedSwitch(k: K, prio: nat): K {
    if !OnRq(Me(k).status) || Me(k).prio > prio then Pend(k) else k
  }

  /** The lowest non-empty run queue from `from` on; PRIO_LEVELS if there is none. */
  function Best(rq: map<nat, seq<Pid>>, from: nat): (p: nat)
    requires from <= PRIO_LEVELS
    ensures from <= p <= PRIO_LEVELS
    ensures p < PRIO_LEVELS ==> Rq(rq, p) != []
    ensures forall i: nat :: from <= i < p ==> Rq(rq, i) == []
    decreases PRIO_LEVELS - from
  {
    if from == PRIO_LEVELS || Rq(rq, from) != [] then from else Best(rq, from + 1)
  }

  function Relabel(k: K, t: Pid, s: Status): K {
    Put(k, t, Th(k.thr, t).(status := s))
  }

  /** The last part of sched_run: the thread that was running goes pending, the next
      one runs. The old thread may have left the table. */
  function Dispatch(k: K, next: Pid): K {
    var k1 := if k.s.active in k.thr && Me(k).status.Running? then Relabel(k, k.s.active, Pending) else k;
    var k2 := Relabel(k1, next, Running);
    k2.(s := k2.s.(active := next))
  }

  /** The head of the best run queue. */
  function NextThread(k: K): Pid {
    var p := Best(k.s.rq, PRIO_TOP);
    if p == PRIO_LEVELS then k.s.active else Rq(k.s.rq, p)[0]
  }

  function Settle(k: K): K {
    k.(s := k.s.(request := false, pend := false, lax := false))
  }

  /** sched_run */
  function SchedRun(k: K): K {
    if NextThread(k) == k.s.active then Settle(k) else Dispatch(Settle(k), NextThread(k))
  }

  /** thread_yield: rotate the own queue and yield. */
  function Yield(k: K): K {
    var p := Me(k).prio;
    var q := Rq(k.s.rq, p);
    if OnRq(Me(k).status) && q != []
    then Pend(k.(s := k.s.(rq := k.s.rq[p := q[1..] + [q[0]]])))
    else Pend(k)
  }

  // ---------------------------------------------------------------- wait lists

  /** Where thread_add_to_list stops: the first entry of worse priority. */
  function InsertPos(thr: map<Pid, Thread>, q: seq<Pid>, prio: nat): (i: nat)
    ensures i <= |q|
    ensures forall j :: 0 <= j < i ==> Th(thr, q[j]).prio <= prio
    ensures i < |q| ==> Th(thr, q[i]).prio > prio
  {
    if q == [] || Th(thr, q[0]).prio > prio then 0 else 1 + InsertPos(thr, q[1..], prio)
  }

  /** thread_add_to_list, with the bookkeeping of which list and when. */
  function AddToList(k: K, r: ListRef, t: Pid): K {
    var q := List(k.w.lists, r);
    var i := InsertPos(k.thr, q, Th(k.thr, t).prio);
    k.(thr := k.thr[t := Th(k.thr, t).(on := Some(r), since := k.w.clock)],
       w := Waits(k.w.lists[r := q[..i] + [t] + q[i..]], k.w.clock + 1))
  }

  /** list_remove_head on a list known not to be empty. */
  function RemoveHead(k: K, r: ListRef): K
    requires List(k.w.lists, r) != []
  {
    var q := List(k.w.lists, r);
    k.(thr := k.thr[q[0] := Th(k.thr, q[0]).(on := None)], w := k.w.(lists := k.w.lists[r := q[1..]]))
  }

  /** Take the first thread off a wait list and make it runnable. */
  function WakeHead(k: K, r: ListRef): K
    requires List(k.w.lists, r) != []
  {
    SetStatus(RemoveHead(k, r), List(k.w.lists, r)[0], Pending)
  }

  // ---------------------------------------------------------------- threads

  /** The lowest process id from `from` on that names no thread; 0 if none is left. */
  function FreePid(thr: map<Pid, Thread>, from: Pid): (t: Pid)
    requires PID_FIRST <= from <= PID_LAST + 1
    ensures t == 0 || (from <= t <= PID_LAST && t !in thr)
    ensures forall i :: from <= i < (if t == 0 then PID_LAST + 1 else t) ==> i in thr
    decreases PID_LAST + 1 - from
  {
    if from > PID_LAST then 0 else if from !in thr then from else FreePid(thr, from + 1)
  }

  /** thread_create. The flag word of the new thread is whatever its memory held. */
  function Create(k: K, prio: nat, asleep: bool, noYield: bool, flags: Flags): K {
    var t := FreePid(k.thr, PID_FIRST);
    if prio >= PRIO_LEVELS || t == 0 then k
    else
      var k1 := Put(k, t, Thread(prio, Stopped, flags, NoData, [], 0, User, None, 0, {}));
      if asleep then SetStatus(k1, t, Sleeping)
      else
        var k2 := SetStatus(k1, t, Pending);
        if noYield then NoteLax(k2, prio) else SchedSwitch(k2, prio)
  }

  /** sched_task_exit and the switch that follows it: the thread's run queue entry
      and its table entry go, and so do the logs of messages addressed to it. */
  function Exit(k: K): K {
    var k1 := SetStatus(k, k.s.active, Stopped);
    SchedRun(k1.(thr := k1.thr - {k.s.active},
                 x := k1.x.(sent := Forget(k1.x.sent, k.s.active), rcvd := Forget(k1.x.rcvd, k.s.active))))
  }

  function Forget(log: map<(Pid, Pid), seq<Msg>>, r: Pid): map<(Pid, Pid), seq<Msg>> {
    map e | e in log && e.1 != r :: log[e]
  }

  /** thread_sleep */
  function Sleep(k: K): K {
    Pend(Block(k, Me(k).(call := InSleep), Sleeping))
  }

  /** thread_wakeup: the woken thread becomes RUNNING although it is not active. */
  function Wakeup(k: K, t: Pid): K {
    if t in k.thr && k.thr[t].status.Sleeping?
    then SchedSwitch(SetStatus(k, t, Running), k.thr[t].prio) else k
  }

  // ---------------------------------------------------------------- mutexes

  /** An uncontended _mutex_lock: the call returns with the mutex, so `has` has it. */
  function Acquire(k: K, m: MutexId): K {
    Put(k, k.s.active, Me(k).(has := Me(k).has + {m}, call := User))
      .(l := Locks(k.l.marked + {m}, k.l.holder[m := k.s.active]))
  }

  /** The blocking branch of _mutex_lock; a first waiter replaces the MUTEX_LOCKED mark. */
  function WaitForMutex(k: K, m: MutexId): K {
    var k1 := Block(k, Me(k).(call := InLock(m)), MutexBlocked);
    Pend(AddToList(k1.(l := k1.l.(marked := k1.l.marked - {m})), MutexQ(m), k.s.active))
  }

  predicate IsFree(k: K, m: MutexId) {
    m !in k.l.marked && List(k.w.lists, MutexQ(m)) == []
  }

  /** _mutex_lock */
  function Lock(k: K, m: MutexId, blocking: bool): K {
    if IsFree(k, m) then Acquire(k, m) else if blocking then WaitForMutex(k, m) else k
  }

  /** mutex_unlock without waiters: `queue.next` goes back to NULL. */
  function FreeMutex(k: K, m: MutexId): K {
    Put(k, k.s.active, Me(k).(has := Me(k).has - {m})).(l := Locks(k.l.marked - {m}, k.l.holder - {m}))
  }

  /** mutex_unlock with waiters: the mutex goes to the first one and stays locked. */
  function HandOff(k: K, m: MutexId): K
    requires List(k.w.lists, MutexQ(m)) != []
  {
    var q := List(k.w.lists, MutexQ(m));
    var k1 := Put(k, k.s.active, Me(k).(has := Me(k).has - {m}));
    WakeHead(k1, MutexQ(m)).(l := Locks(if |q| == 1 then k.l.marked + {m} else k.l.marked, k.l.holder[m := q[0]]))
  }

  /** The part mutex_unlock, mutex_unlock_and_sleep and cond_wait have in common. */
  function Release(k: K, m: MutexId): K {
    if IsFree(k, m) then k else if m in k.l.marked then FreeMutex(k, m) else HandOff(k, m)
  }

  /** mutex_unlock */
  function Unlock(k: K, m: MutexId): K {
    var q := List(k.w.lists, MutexQ(m));
    if m in k.l.marked || q == [] then Release(k, m)
    else SchedSwitch(HandOff(k, m), Th(k.thr, q[0]).prio)
  }

  /** mutex_unlock_and_sleep */
  function UnlockAndSleep(k: K, m: MutexId): K {
    Sleep(Release(k, m))
  }

  // ---------------------------------------------------------------- condition variables

  /** The first section of cond_wait; a pending yield of the unlock inside it waits
      until interrupts are enabled again. The second section is `Relock`. */
  function CondWait(k: K, c: CondId, m: MutexId): K {
    var k1 := Unlock(k, m);
    var k2 := Block(k1, Me(k1).(call := InCond(c, m)), CondBlocked);
    Pend(AddToList(k2, CondQ(c), k2.s.active))
  }

  /** A signalled thread continues in cond_wait by locking the mutex again. */
  function Relock(k: K): K {
    match Me(k).call
    case InCond(_, m) => Lock(k, m, true)
    case _ => k
  }

  /** The loop of _cond_signal when broadcasting. */
  function WakeAll(k: K, c: CondId): K
    decreases |List(k.w.lists, CondQ(c))|
  {
    if List(k.w.lists, CondQ(c)) == [] then k else WakeAll(WakeHead(k, CondQ(c)), c)
  }

  /** _cond_signal */
  function Signal(k: K, c: CondId, broadcast: bool): K {
    var q := List(k.w.lists, CondQ(c));
    if q == [] then k
    else if broadcast then SchedSwitch(WakeAll(k, c), MinPrio(k.thr, q))
    else SchedSwitch(WakeHead(k, CondQ(c)), MinPrio(k.thr, q[..1]))
  }

  /** The least priority number among the woken threads (`min_prio`). */
  function MinPrio(thr: map<Pid, Thread>, q: seq<Pid>): (p: nat)
    ensures forall t :: t in q ==> p <= Th(thr, t).prio
    ensures p == PRIO_MIN + 1 || exists t :: t in q && Th(thr, t).prio == p
  {
    if q == [] then PRIO_MIN + 1
    else
      var n := MinPrio(thr, q[..|q| - 1]);
      var own := Th(thr, q[|q| - 1]).prio;
      assert forall t :: t in q ==> t in q[..|q| - 1] || t == q[|q| - 1];
      if own < n then own else n
  }

  // ---------------------------------------------------------------- thread flags

  /** The wake-up test of thread_flags_wake, on the mask found in `wait_data`. */
  predicate FlagsReady(th: Thread) {
    th.wait.FlagMask? &&
    match th.status
    case FlagBlockedAny => th.flags * th.wait.mask != {}
    case FlagBlockedAll => th.flags * th.wait.mask == th.wait.mask
    case _ => false
  }

  /** `thread->flags |= mask` followed by thread_flags_wake */
  function RaiseFlags(k: K, t: Pid, mask: Flags): K {
    var th := Th(k.thr, t).(flags := Th(k.thr, t).flags + mask);
    var k1 := Put(k, t, th);
    if FlagsReady(th) then Request(SetStatus(k1, t, Pending)) else k1
  }

  /** thread_flags_set */
  function FlagsSet(k: K, t: Pid, mask: Flags): K {
    if t !in k.thr then k
    else
      var k1 := RaiseFlags(k, t, mask);
      if FlagsReady(Th(k.thr, t).(flags := Th(k.thr, t).flags + mask)) then Pend(k1) else k1
  }

  /** The waiting half of thread_flags_wait_any, _one and _all. */
  function FlagsWait(k: K, mask: Flags, kind: FlagWait): K {
    var me := Me(k);
    var enough := if kind == WaitAll then me.flags * mask == mask else me.flags * mask != {};
    if enough then Put(k, k.s.active, me.(call := InFlags(mask, kind)))
    else Pend(Block(k, me.(call := InFlags(mask, kind), wait := FlagMask(mask)),
                    if kind == WaitAll then FlagBlockedAll else FlagBlockedAny))
  }

  /** `tmp & (~tmp + 1)`: the lowest one bit, or no bit at all. */
  function Lowest(w: Flags, from: nat): (b: Flags)
    requires from <= 16
    decreases 16 - from
  {
    if from == 16 then {} else if from in w then {from} else Lowest(w, from + 1)
  }

  /** The unprotected read in thread_flags_wait_one: the least waited bit that is set. */
  function FlagsPick(k: K): K {
    match Me(k).call
    case InFlags(mask, WaitOne) =>
      Put(k, k.s.active, Me(k).(call := InFlagsPicked(mask, Lowest(Me(k).flags * mask, 0))))
    case _ => k
  }

  /** What the final _thread_flags_clear_atomic returns. */
  function FlagsResult(k: K): Flags {
    match Me(k).call
    case InFlags(mask, _) => mask * Me(k).flags
    case InFlagsPicked(_, pick) => pick * Me(k).flags
    case _ => {}
  }

  /** _thread_flags_clear_atomic, and the return to the caller. */
  function FlagsTake(k: K): K {
    Put(k, k.s.active, Me(k).(flags := Me(k).flags - FlagsResult(k), call := User))
  }

  /** thread_flags_clear */
  function FlagsClear(k: K, mask: Flags): K {
    Put(k, k.s.active, Me(k).(flags := Me(k).flags - mask))
  }

  // ---------------------------------------------------------------- messages

  /** The flag part of queue_msg and of a blocking send. */
  function RaiseMsgFlag(k: K, t: Pid): K {
    if k.flagsOn then RaiseFlags(k, t, MSG_WAITING) else k
  }

  predicate HasRoom(th: Thread) {
    |th.inbox| < th.cap
  }

  /** queue_msg, when cib_put finds room. */
  function QueueMsg(k: K, t: Pid, m: Msg): K {
    RaiseMsgFlag(LogSent(Put(k, t, Th(k.thr, t).(inbox := Th(k.thr, t).inbox + [m])), m.sender, t, m), t)
  }

  /** Copy a message through the `wait_data` pointer of a receive-blocked thread. */
  function Deliver(k: K, t: Pid, m: Msg): K {
    SetStatus(LogRcvd(LogSent(Put(CopyOut(k, Th(k.thr, t).wait, m), t, Th(k.thr, t).(call := Handed(Th(k.thr, t).call, m))),
                              m.sender, t, m), m.sender, t, m), t, Pending)
  }

  /** Writing through a `wait_data` pointer. */
  function CopyOut(k: K, wait: WaitData, m: Msg): K {
    match wait
    case Buffer(a) => Write(k, a, m)
    case _ => k
  }

  function Handed(call: Call, m: Msg): Call {
    match call
    case InReceive(buf, _) => InReceive(buf, Some(m))
    case InSendReceive(buf, target, _) => InSendReceive(buf, target, Some(m))
    case c => c
  }

  /** The branch of _msg_send where the target has room in its queue. */
  function SendQueued(k: K, target: Pid, m: Msg): K {
    var k1 := QueueMsg(k, target, m);
    if Me(k).status.ReplyBlocked? then Pend(k1)
    else if OnRq(Th(k1.thr, target).status) && !OnRq(Th(k.thr, target).status) then NoteLax(k1, Th(k.thr, target).prio)
    else k1
  }

  /** The branch of _msg_send where the sender has to wait for the target. */
  function SendWaiting(k: K, buf: Addr, target: Pid, m: Msg): K {
    var me := Me(k);
    var reply := me.status.ReplyBlocked?;
    var k1 := Block(k, me.(wait := Buffer(buf), call := if reply then me.call else InSend(target)),
                    if reply then ReplyBlocked else SendBlocked);
    Pend(RaiseMsgFlag(LogSent(AddToList(k1, MsgWaiters(target), k.s.active), k.s.active, target, m), target))
  }

  /** `m->sender_pid = sched_active_pid` */
  function Stamp(k: K, buf: Addr): K {
    Write(k, buf, Read(k.x.mem, buf).(sender := k.s.active))
  }

  /** _msg_send, from the table lookup on. `buf` is the message the caller passed. */
  function SendStamped(k: K, buf: Addr, target: Pid, block: bool): K {
    var m := Read(k.x.mem, buf);
    if target !in k.thr then k
    else if k.thr[target].status.ReceiveBlocked? then Pend(Deliver(k, target, m))
    else if HasRoom(k.thr[target]) then SendQueued(k, target, m)
    else if block then SendWaiting(k, buf, target, m)
    else k
  }

  /** What _msg_send returns. */
  function SendResult(k: K, target: Pid, block: bool): int {
    if target !in k.thr then -1
    else if k.thr[target].status.ReceiveBlocked? || HasRoom(k.thr[target]) || block then 1 else 0
  }

  /** What msg_send and msg_try_send return. */
  function SendReturns(k: K, target: Pid, block: bool): int {
    if target != k.s.active then SendResult(k, target, block) else if HasRoom(Me(k)) then 1 else 0
  }

  function SendFrom(k: K, buf: Addr, target: Pid, block: bool): K {
    SendStamped(Stamp(k, buf), buf, target, block)
  }

  /** msg_send and msg_try_send in a thread; a thread may send to itself. */
  function Send(k: K, buf: Addr, target: Pid, block: bool): K {
    if target == k.s.active then SendToSelf(k, buf) else SendFrom(k, buf, target, block)
  }

  /** msg_send_to_self */
  function SendToSelf(k: K, buf: Addr): K {
    var k1 := Stamp(k, buf);
    if HasRoom(Me(k)) then QueueMsg(k1, k.s.active, Read(k1.x.mem, buf)) else k1
  }

  /** The part of msg_send_receive before the send: block for the reply, and copy the
      message into the reply buffer, from where it is sent. */
  function AwaitReply(k: K, m: Msg, reply: Addr, target: Pid): K {
    Write(Block(k, Me(k).(wait := Buffer(reply), call := InSendReceive(reply, target, None)), ReplyBlocked), reply, m)
  }

  /** msg_send_receive */
  function SendReceive(k: K, m: Msg, reply: Addr, target: Pid): K {
    SendFrom(AwaitReply(k, m, reply, target), reply, target, true)
  }

  /** The step of msg_reply and msg_reply_int. */
  function ReplyTo(k: K, t: Pid, m: Msg): K {
    SetStatus(Put(CopyOut(k, Th(k.thr, t).wait, m), t, Th(k.thr, t).(call := Handed(Th(k.thr, t).call, m))), t, Pending)
  }

  predicate AwaitsReply(k: K, t: Pid) {
    t in k.thr && k.thr[t].status.ReplyBlocked?
  }

  /** msg_reply */
  function Reply(k: K, t: Pid, m: Msg): K {
    if AwaitsReply(k, t) then SchedSwitch(ReplyTo(k, t, m), Th(k.thr, t).prio) else k
  }

  /** The sender part of _msg_receive: unblock it unless it waits for a reply. */
  function ReleaseSender(k: K, s: Pid): K {
    if Th(k.thr, s).status.ReplyBlocked? then k
    else if Th(k.thr, s).prio < PRIO_IDLE then SchedSwitch(FreeSender(k, s), Th(k.thr, s).prio)
    else FreeSender(k, s)
  }

  function FreeSender(k: K, s: Pid): K {
    SetStatus(Put(k, s, Th(k.thr, s).(wait := NoData)), s, Pending)
  }

  /** The message a blocked sender waits with, read through its `wait_data`. */
  function WaitingMsg(mem: map<Addr, Msg>, th: Thread): Msg {
    match th.wait
    case Buffer(a) => Read(mem, a)
    case _ => ZERO_MSG
  }

  /** _msg_receive with a queued message and no waiting sender. */
  function TakeQueued(k: K, buf: Addr): K
    requires Me(k).inbox != []
  {
    var m := Me(k).inbox[0];
    Put(LogRcvd(Write(k, buf, m), m.sender, k.s.active, m), k.s.active,
        Me(k).(inbox := Me(k).inbox[1..], call := InReceive(buf, Some(m))))
  }

  /** The first waiting sender's message moves into the place cib_get just freed. */
  function Refill(k: K): K
    requires List(k.w.lists, MsgWaiters(k.s.active)) != []
  {
    var s := List(k.w.lists, MsgWaiters(k.s.active))[0];
    ReleaseSender(RemoveHead(Put(k, k.s.active, Me(k).(inbox := Me(k).inbox + [WaitingMsg(k.x.mem, Th(k.thr, s))])),
                             MsgWaiters(k.s.active)), s)
  }

  /** _msg_receive without a queued message: take it from the first waiting sender. */
  function TakeWaiting(k: K, buf: Addr): K
    requires List(k.w.lists, MsgWaiters(k.s.active)) != []
  {
    var s := List(k.w.lists, MsgWaiters(k.s.active))[0];
    var m := WaitingMsg(k.x.mem, Th(k.thr, s));
    var k1 := Put(k, k.s.active, Me(k).(wait := Buffer(buf), call := InReceive(buf, Some(m))));
    ReleaseSender(RemoveHead(LogRcvd(Write(k1, buf, m), m.sender, k.s.active, m), MsgWaiters(k.s.active)), s)
  }

  /** _msg_receive with nothing there: wait for a sender to copy into the buffer. */
  function WaitForMsg(k: K, buf: Addr): K {
    Pend(Block(k, Me(k).(wait := Buffer(buf), call := InReceive(buf, None)), ReceiveBlocked))
  }

  /** _msg_receive. The call itself returns by `Return`, once it has its message. */
  function Receive(k: K, buf: Addr, block: bool): K {
    var waiters := List(k.w.lists, MsgWaiters(k.s.active)) != [];
    if Me(k).inbox != [] then
      if waiters then Refill(TakeQueued(k, buf)) else TakeQueued(k, buf)
    else if waiters then TakeWaiting(k, buf)
    else if block then WaitForMsg(k, buf)
    else k
  }

  /** msg_init_queue */
  function InitQueue(k: K, n: nat): K {
    Put(k, k.s.active, Me(k).(inbox := [], cap := n))
  }

  /** The return to user code of a call that has nothing left to do. */
  function Return(k: K): K {
    match Me(k).call
    case InLock(m) => Put(k, k.s.active, Me(k).(call := User, has := Me(k).has + {m}))
    case _ => Put(k, k.s.active, Me(k).(call := User))
  }

  // ---------------------------------------------------------------- interrupt handlers

  /** The end of every handler: a recorded request becomes a pending yield. */
  function IsrEnd(k: K): K {
    if k.s.request then Pend(k) else k
  }

  /** msg_send_int */
  function SendInt(k: K, m: Msg, target: Pid): K {
    var m' := m.(sender := PID_ISR);
    if target !in k.thr then k
    else if k.thr[target].status.ReceiveBlocked? then Request(Deliver(k, target, m'))
    else if HasRoom(k.thr[target]) then QueueMsg(k, target, m')
    else k
  }

  /** msg_reply_int */
  function ReplyInt(k: K, t: Pid, m: Msg): K {
    if AwaitsReply(k, t) then Request(ReplyTo(k, t, m)) else k
  }
}
