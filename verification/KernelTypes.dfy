/** Values shared by the kernel model: thread states, list names, messages and
    the thread control block. A thread is named by its process id. */
module KernelTypes {

  datatype Option<+T> = None | Some(value: T)

  type Pid = int
  type MutexId = nat
  type CondId = nat

  const MAXTHREADS: int := 32
  const PID_FIRST: Pid := 1
  const PID_LAST: Pid := PID_FIRST + MAXTHREADS - 1
  const PID_ISR: Pid := PID_LAST + 1
  const PID_IDLE: Pid := 1
  const PID_MAIN: Pid := 2

  const PRIO_TOP: nat := 0
  const PRIO_LEVELS: nat := 16
  const PRIO_MIN: nat := PRIO_LEVELS - 1
  const PRIO_IDLE: nat := PRIO_MIN
  const PRIO_MAIN: nat := PRIO_MIN - PRIO_LEVELS / 2

  /** A thread_flags_t word as the set of its one bits: `&` is `*`, `|` is `+` and
      `& ~` is `-`. */
  type Bit = b: nat | b < 16
  type Flags = set<Bit>

  /** THREAD_FLAG_MSG_WAITING, that is 1 << 15 */
  const MSG_WAITING: Flags := {15}

  datatype Status =
    | Stopped
    | Sleeping
    | MutexBlocked
    | ReceiveBlocked
    | SendBlocked
    | ReplyBlocked
    | FlagBlockedAny
    | FlagBlockedAll
    | MboxBlocked
    | CondBlocked
    | Running
    | Pending

  /** `status >= STATUS_ON_RUNQUEUE` */
  predicate OnRq(s: Status) {
    s.Running? || s.Pending?
  }

  /** Every list, other than the run queues, that a thread's link field can be on. */
  datatype ListRef = MutexQ(m: MutexId) | CondQ(c: CondId) | MsgWaiters(target: Pid)

  /** A message buffer belongs to the thread whose stack it lies on. */
  datatype Addr = Addr(owner: Pid, slot: nat)

  datatype Msg = Msg(sender: Pid, kind: nat, content: int)

  const ZERO_MSG := Msg(0, 0, 0)

  /** The `wait_data` pointer, which messages and thread flags share. */
  datatype WaitData = NoData | Buffer(addr: Addr) | FlagMask(mask: Flags)

  datatype FlagWait = WaitAny | WaitOne | WaitAll

  /** Where a thread stands inside the kernel call it made last. The `got` parts
      record what has already been handed over to it. */
  datatype Call =
    | User
    | InSleep
    | InLock(m: MutexId)
    | InCond(c: CondId, m: MutexId)
    | InReceive(buf: Addr, got: Option<Msg>)
    | InSend(target: Pid)
    | InSendReceive(buf: Addr, target: Pid, got: Option<Msg>)
    | InFlags(mask: Flags, kind: FlagWait)
    | InFlagsPicked(mask: Flags, pick: Flags)

  /** A thread control block. `call`, `on`, `since` and `has` are bookkeeping: they
      say where the thread is in its program, which list holds its link field,
      when it was put there, and which mutexes its calls have returned with. */
  datatype Thread = Thread(
    prio: nat,
    status: Status,
    flags: Flags,
    wait: WaitData,
    inbox: seq<Msg>,
    cap: nat,
    call: Call,
    on: Option<ListRef>,
    since: nat,
    has: set<MutexId>)

  /** Always true. A fact that is stated under it stays out of the way of proofs that do
      not mention it. */
  predicate Asked(u: int) {
    true
  }
}
