/** The recursive mutex as a step machine: every access to shared memory and every call
    of the inner mutex is one step, and the threads' steps interleave freely. The inner
    mutex hands over to its first waiter when it is unlocked. */
module RecursiveMutex {
  import opened KernelTypes

  const UNDEF: Pid := 0
  /** refcount is a uint16_t. */
  const REFS: int := 0x1_0000

  /** Where a thread stands. `once` marks rmutex_trylock. */
  datatype Pc =
    | Out
    | Try(once: bool)      // about to call mutex_trylock
    | Look(once: bool)     // that failed; about to read owner
    | Enter                // owner was another; about to call mutex_lock
    | Queued               // blocked in mutex_lock
    | Claim                // about to store owner
    | IncRead | IncWrite(seen: int)
    | DecRead | DecWrite(left: int)
    | Check                // about to compare refcount with 0
    | Reset                // about to clear owner
    | Release              // about to call mutex_unlock

  /** The mutex, and for each thread its place and the number of its outstanding locks. */
  datatype State = State(holder: Option<Pid>, queue: seq<Pid>, owner: Pid, refs: int, pcs: map<Pid, Pc>, depths: map<Pid, int>)

  function PcOf(r: State, t: Pid): Pc {
    if t in r.pcs then r.pcs[t] else Out
  }

  function Depth(r: State, t: Pid): int {
    if t in r.depths then r.depths[t] else 0
  }

  const START: State := State(None, [], UNDEF, 0, map[], map[])

  function At(r: State, t: Pid, pc: Pc): State {
    r.(pcs := r.pcs[t := pc])
  }

  // ---------------------------------------------------------------- steps

  datatype Action = Lock | TryLock | Unlock | Go(place: nat)

  /** A thread outside may lock, to a depth below the counter's range, and may unlock
      what it has locked. A thread inside a call goes on unless it is blocked. `place`
      is where the inner mutex's queue takes a new waiter. */
  predicate Legal(r: State, t: Pid, a: Action) {
    && t > 0
    && match a
       case Lock => PcOf(r, t) == Out && Depth(r, t) < REFS - 1
       case TryLock => PcOf(r, t) == Out && Depth(r, t) < REFS - 1
       case Unlock => PcOf(r, t) == Out && Depth(r, t) > 0
       case Go(place) => PcOf(r, t) != Out && PcOf(r, t) != Queued && place <= |r.queue|
  }

  function Next(r: State, t: Pid, a: Action): State
    requires Legal(r, t, a)
  {
    match a
    case Lock => At(r, t, Try(false))
    case TryLock => At(r, t, Try(true))
    case Unlock => At(r, t, DecRead)
    case Go(place) =>
      match PcOf(r, t)
      case Try(once) => if r.holder == None then At(r, t, Claim).(holder := Some(t)) else At(r, t, Look(once))
      case Look(once) => At(r, t, if r.owner == t then Claim else if once then Out else Enter)
      case Enter =>
        if r.holder == None then At(r, t, Claim).(holder := Some(t))
        else At(r, t, Queued).(queue := r.queue[..place] + [t] + r.queue[place..])
      case Claim => At(r, t, IncRead).(owner := t)
      case IncRead => At(r, t, IncWrite(r.refs))
      case IncWrite(seen) => At(r, t, Out).(refs := (seen + 1) % REFS, depths := r.depths[t := Depth(r, t) + 1])
      case DecRead => At(r, t, DecWrite(r.refs))
      case DecWrite(left) => At(r, t, Check).(refs := (left - 1) % REFS, depths := r.depths[t := Depth(r, t) - 1])
      case Check => At(r, t, if r.refs == 0 then Reset else Out)
      case Reset => At(r, t, Release).(owner := UNDEF)
      case Release =>
        if r.queue == [] then At(r, t, Out).(holder := None)
        else At(At(r, t, Out), r.queue[0], Claim).(holder := Some(r.queue[0]), queue := r.queue[1..])
      case _ => r
  }

  // ---------------------------------------------------------------- the invariant

  /** A thread that does not hold the inner mutex. */
  predicate Outside(r: State, t: Pid) {
    && Depth(r, t) == 0 && r.owner != t
    && match PcOf(r, t)
       case Out => true
       case Try(_) => true
       case Look(_) => true
       case Enter => true
       case Queued => true
       case _ => false
  }

  /** The thread that holds it. */
  predicate Inside(r: State, t: Pid) {
    && t > 0 && r.refs == Depth(r, t) && 0 <= r.refs < REFS
    && match PcOf(r, t)
       case Out => r.refs > 0 && r.owner == t
       case Try(_) => 0 < r.refs < REFS - 1 && r.owner == t
       case Look(_) => 0 < r.refs < REFS - 1 && r.owner == t
       case Claim => r.refs < REFS - 1 && r.owner == if r.refs > 0 then t else UNDEF
       case IncRead => r.refs < REFS - 1 && r.owner == t
       case IncWrite(seen) => seen == r.refs < REFS - 1 && r.owner == t
       case DecRead => r.refs > 0 && r.owner == t
       case DecWrite(left) => left == r.refs > 0 && r.owner == t
       case Check => r.owner == t
       case Reset => r.refs == 0 && r.owner == t
       case Release => r.refs == 0 && r.owner == UNDEF
       case _ => false
  }

  ghost predicate Waiters(r: State) {
    && (forall i, j :: 0 <= i < j < |r.queue| ==> r.queue[i] != r.queue[j])
    && (forall i :: 0 <= i < |r.queue| ==> r.queue[i] > 0)
    && (forall t :: t in r.queue <==> PcOf(r, t) == Queued)
  }

  ghost predicate Inv(r: State) {
    && (forall t :: t > 0 && r.holder != Some(t) ==> Outside(r, t))
    && (if r.holder == None then r.owner == UNDEF && r.refs == 0 && r.queue == [] else Inside(r, r.holder.value))
    && Waiters(r)
  }

  /** Only thread t's place and depth differ. */
  ghost predicate OnlyThread(r: State, r': State, t: Pid) {
    forall u {:trigger PcOf(r', u)} {:trigger Depth(r', u)} :: u != t ==> PcOf(r', u) == PcOf(r, u) && Depth(r', u) == Depth(r, u)
  }

  /** The holder takes a step inside. */
  lemma InsideStep(r: State, r': State, t: Pid)
    requires Inv(r) && r.holder == Some(t) == r'.holder && r'.queue == r.queue && OnlyThread(r, r', t)
    requires r'.owner == t || r'.owner == UNDEF
    requires Inside(r', t)
    ensures Inv(r')
  {
    forall u | u > 0 && u != t ensures Outside(r', u) {
      assert Outside(r, u) && PcOf(r', u) == PcOf(r, u);
    }
    forall u ensures u in r'.queue <==> PcOf(r', u) == Queued {
      assert u in r.queue <==> PcOf(r, u) == Queued;
      assert PcOf(r', t) != Queued && PcOf(r, t) != Queued;
      assert u != t ==> PcOf(r', u) == PcOf(r, u);
    }
  }

  /** Another thread takes a step outside. */
  lemma OutsideStep(r: State, r': State, t: Pid)
    requires Inv(r) && t > 0 && r.holder != Some(t) && r'.holder == r.holder && r'.queue == r.queue && OnlyThread(r, r', t)
    requires r'.owner == r.owner && r'.refs == r.refs && Outside(r', t) && PcOf(r, t) != Queued && PcOf(r', t) != Queued
    ensures Inv(r')
  {
    forall u | u > 0 && r'.holder != Some(u) ensures Outside(r', u) {
      assert Outside(r, u) && (u != t ==> PcOf(r', u) == PcOf(r, u));
    }
    forall u ensures u in r'.queue <==> PcOf(r', u) == Queued {
      assert u in r.queue <==> PcOf(r, u) == Queued;
      assert u != t ==> PcOf(r', u) == PcOf(r, u);
    }
    if r.holder != None {
      var h := r.holder.value;
      assert PcOf(r', h) == PcOf(r, h) && Depth(r', h) == Depth(r, h);
    }
  }

  /** A thread takes the free inner mutex. */
  lemma AcquireKeeps(r: State, r': State, t: Pid)
    requires Inv(r) && t > 0 && r.holder == None && (PcOf(r, t).Try? || PcOf(r, t).Enter?)
    requires r' == At(r, t, Claim).(holder := Some(t))
    ensures Inv(r')
  {
    assert Outside(r, t);
    forall u | u > 0 && u != t ensures Outside(r', u) {
      assert Outside(r, u) && PcOf(r', u) == PcOf(r, u);
    }
    forall u ensures PcOf(r', u) != Queued {
      assert u in r.queue <==> PcOf(r, u) == Queued;
    }
  }

  /** The inner mutex becomes free. */
  lemma FreeKeeps(r: State, r': State, t: Pid)
    requires Inv(r) && t > 0 && PcOf(r, t) == Release && r.queue == []
    requires r' == At(r, t, Out).(holder := None)
    ensures Inv(r')
  {
    assert r.holder == Some(t) || Outside(r, t);
    forall u | u > 0 ensures Outside(r', u) {
      assert u == t || (Outside(r, u) && PcOf(r', u) == PcOf(r, u));
    }
    forall u ensures PcOf(r', u) != Queued {
      assert u in r.queue <==> PcOf(r, u) == Queued;
    }
  }

  lemma QueueInsert(q: seq<Pid>, place: nat, t: Pid)
    requires place <= |q| && t !in q && forall i, j :: 0 <= i < j < |q| ==> q[i] != q[j]
    ensures var q' := q[..place] + [t] + q[place..];
      (forall i, j :: 0 <= i < j < |q'| ==> q'[i] != q'[j]) && (forall u :: u in q' <==> u in q || u == t)
  {
    var q' := q[..place] + [t] + q[place..];
    assert q'[place] == t;
    forall u | u in q ensures u in q' {
      var i :| 0 <= i < |q| && q[i] == u;
      assert q'[if i < place then i else i + 1] == u;
    }
    forall i | 0 <= i < |q'| && i != place ensures q'[i] in q {
      assert q'[i] == q[if i < place then i else i - 1];
    }
  }

  /** A thread joins the queue of the inner mutex. */
  lemma EnterKeeps(r: State, r': State, t: Pid, place: nat)
    requires Inv(r) && t > 0 && place <= |r.queue| && PcOf(r, t) == Enter && r.holder != None
    requires r' == At(r, t, Queued).(queue := r.queue[..place] + [t] + r.queue[place..])
    ensures Inv(r')
  {
    assert r.holder == Some(t) || Outside(r, t);
    assert t in r.queue <==> PcOf(r, t) == Queued;
    QueueInsert(r.queue, place, t);
    forall u | u > 0 && r'.holder != Some(u) ensures Outside(r', u) {
      assert Outside(r, u);
    }
    forall u ensures u in r'.queue <==> PcOf(r', u) == Queued {
      assert u in r.queue <==> PcOf(r, u) == Queued;
    }
  }

  /** The first waiter becomes the holder. */
  lemma HandOverKeeps(r: State, r': State, t: Pid)
    requires Inv(r) && t > 0 && PcOf(r, t) == Release && r.queue != []
    requires r' == At(At(r, t, Out), r.queue[0], Claim).(holder := Some(r.queue[0]), queue := r.queue[1..])
    ensures Inv(r')
  {
    var h := r.queue[0];
    assert r.holder == Some(t) || Outside(r, t);
    assert h in r.queue && PcOf(r, h) == Queued && Outside(r, h);
    forall u | u > 0 && u != h ensures Outside(r', u) {
      assert u == t || Outside(r, u);
    }
    forall u ensures u in r'.queue <==> PcOf(r', u) == Queued {
      assert u in r.queue <==> PcOf(r, u) == Queued;
      assert r.queue == [h] + r'.queue;
      assert h !in r'.queue;
    }
  }

  lemma PlainStep(r: State, r': State, t: Pid)
    requires Inv(r) && t > 0 && r'.holder == r.holder && r'.queue == r.queue && OnlyThread(r, r', t)
    requires if r.holder == Some(t) then Inside(r', t) && (r'.owner == t || r'.owner == UNDEF)
             else r'.owner == r.owner && r'.refs == r.refs && Outside(r', t) && PcOf(r, t) != Queued && PcOf(r', t) != Queued
    ensures Inv(r')
  {
    if r.holder == Some(t) {
      InsideStep(r, r', t);
    } else {
      OutsideStep(r, r', t);
    }
  }

  lemma CallKeeps(r: State, t: Pid, a: Action)
    requires Inv(r) && Legal(r, t, a) && !a.Go?
    ensures Inv(Next(r, t, a))
  {
    assert r.holder == Some(t) || Outside(r, t);
    PlainStep(r, Next(r, t, a), t);
  }

  lemma CountKeeps(r: State, t: Pid, a: Action)
    requires Inv(r) && Legal(r, t, a) && a.Go? && (PcOf(r, t).IncWrite? || PcOf(r, t).DecWrite?)
    ensures Inv(Next(r, t, a)) && r.holder == Some(t)
  {
    assert r.holder == Some(t) || Outside(r, t);
    PlainStep(r, Next(r, t, a), t);
  }

  lemma LookKeeps(r: State, t: Pid, a: Action)
    requires Inv(r) && Legal(r, t, a) && a.Go? && (PcOf(r, t).Look? || (PcOf(r, t).Try? && r.holder != None))
    ensures Inv(Next(r, t, a))
  {
    assert r.holder == Some(t) || Outside(r, t);
    PlainStep(r, Next(r, t, a), t);
  }

  lemma HolderKeeps(r: State, t: Pid, a: Action)
    requires Inv(r) && Legal(r, t, a) && a.Go?
    requires match PcOf(r, t) case Claim => true case IncRead => true case DecRead => true case Check => true case Reset => true case _ => false
    ensures Inv(Next(r, t, a))
  {
    assert r.holder == Some(t) || Outside(r, t);
    InsideStep(r, Next(r, t, a), t);
  }

  /** Every step of every thread keeps the invariant. */
  lemma StepKeeps(r: State, t: Pid, a: Action)
    requires Inv(r) && Legal(r, t, a)
    ensures Inv(Next(r, t, a))
  {
    if !a.Go? {
      CallKeeps(r, t, a);
    } else {
      var r' := Next(r, t, a);
      match PcOf(r, t)
      case Try(_) => if r.holder == None { AcquireKeeps(r, r', t); } else { LookKeeps(r, t, a); }
      case Look(_) => LookKeeps(r, t, a);
      case Enter => if r.holder == None { AcquireKeeps(r, r', t); } else { EnterKeeps(r, r', t, a.place); }
      case IncWrite(_) => CountKeeps(r, t, a);
      case DecWrite(_) => CountKeeps(r, t, a);
      case Release => if r.queue == [] { FreeKeeps(r, r', t); } else { HandOverKeeps(r, r', t); }
      case _ => HolderKeeps(r, t, a);
    }
  }

  // ---------------------------------------------------------------- runs

  datatype Event = Event(who: Pid, what: Action)

  /** The state after a schedule; an illegal event does nothing. */
  function After(es: seq<Event>): State {
    if es == [] then START
    else
      var r, e := After(es[..|es| - 1]), es[|es| - 1];
      if Legal(r, e.who, e.what) then Next(r, e.who, e.what) else r
  }

  lemma {:induction false} RunInv(es: seq<Event>)
    ensures Inv(After(es))
  {
    if es != [] {
      var r, e := After(es[..|es| - 1]), es[|es| - 1];
      RunInv(es[..|es| - 1]);
      if Legal(r, e.who, e.what) { StepKeeps(r, e.who, e.what); }
    }
  }

  /** The unlocked read is safe: the owner field names its reader only if the reader
      holds the inner mutex. */
  lemma OwnerHolds(es: seq<Event>, t: Pid)
    requires t > 0 && After(es).owner == t
    ensures After(es).holder == Some(t)
  {
    RunInv(es);
    assert After(es).holder == Some(t) || Outside(After(es), t);
  }

  /** Only one thread at a time has locks outstanding; it holds the inner mutex, and
      outside of calls refcount is the number of its locks. */
  lemma LocksExclude(es: seq<Event>, t: Pid, u: Pid)
    requires t > 0 && u > 0 && Depth(After(es), t) > 0
    ensures After(es).holder == Some(t) && After(es).refs == Depth(After(es), t)
    ensures Depth(After(es), u) > 0 ==> u == t
  {
    RunInv(es);
    assert After(es).holder == Some(t) || Outside(After(es), t);
    assert After(es).holder == Some(u) || Outside(After(es), u);
  }

  /** rmutex_trylock gives up exactly when another thread is the owner, or none is yet;
      the caller then holds nothing. */
  lemma TryFailsForOthers(es: seq<Event>, t: Pid, place: nat)
    requires Legal(After(es), t, Go(place)) && PcOf(After(es), t) == Look(true)
    ensures PcOf(Next(After(es), t, Go(place)), t) == Out <==> After(es).holder != Some(t)
  {
    RunInv(es);
    assert After(es).holder == Some(t) || Outside(After(es), t);
  }

  /** Inside rmutex_lock or rmutex_trylock. */
  predicate InLockCall(pc: Pc) {
    match pc
    case Try(_) => true
    case Look(_) => true
    case Enter => true
    case Queued => true
    case Claim => true
    case IncRead => true
    case IncWrite(_) => true
    case _ => false
  }

  /** The last step of a successful lock call. */
  lemma CountsAsHolder(es: seq<Event>, t: Pid, place: nat)
    requires Legal(After(es), t, Go(place)) && PcOf(After(es), t).IncWrite?
    ensures var r, r' := After(es), Next(After(es), t, Go(place));
      && r'.holder == Some(t) && r'.owner == t && r'.refs == Depth(r', t) == Depth(r, t) + 1
  {
    RunInv(es);
    CountKeeps(After(es), t, Go(place));
  }

  /** Whatever step of whichever thread brings t out of a lock call: either it is a
      trylock that gives up while t does not hold the mutex, or t is holder and owner,
      with one more lock counted. */
  lemma ReturnsAsHolder(es: seq<Event>, u: Pid, a: Action, t: Pid)
    requires Legal(After(es), u, a) && t > 0 && InLockCall(PcOf(After(es), t)) && PcOf(Next(After(es), u, a), t) == Out
    ensures u == t
    ensures var r, r' := After(es), Next(After(es), u, a);
      || (PcOf(r, t) == Look(true) && r.holder != Some(t) && r' == At(r, t, Out))
      || (r'.holder == Some(t) && r'.owner == t && r'.refs == Depth(r', t) == Depth(r, t) + 1)
  {
    var r := After(es);
    RunInv(es);
    assert r.holder == Some(u) || Outside(r, u);
    if PcOf(r, u) == Release && r.queue != [] {
      assert r.queue[0] in r.queue;
    }
    if PcOf(r, t) == Look(true) {
      TryFailsForOthers(es, t, a.place);
    } else {
      CountsAsHolder(es, t, a.place);
    }
  }

  /** A thread that has the lock never waits for it. */
  lemma RelockNeverWaits(es: seq<Event>, t: Pid)
    requires t > 0 && Depth(After(es), t) > 0
    ensures PcOf(After(es), t) != Enter && PcOf(After(es), t) != Queued
  {
    LocksExclude(es, t, t);
    RunInv(es);
  }

  /** rmutex_unlock's own assertions hold for every caller that has the lock. */
  lemma UnlockChecksHold(es: seq<Event>, t: Pid)
    requires Legal(After(es), t, Unlock)
    ensures After(es).owner == t && After(es).refs > 0
  {
    LocksExclude(es, t, t);
    RunInv(es);
  }

  /** When all threads are outside without a lock, the inner mutex is free: no unlock
      was lost. */
  lemma FreeWhenUnused(es: seq<Event>)
    requires forall t :: t > 0 ==> PcOf(After(es), t) == Out && Depth(After(es), t) == 0
    ensures After(es).holder == None && After(es).owner == UNDEF && After(es).refs == 0
  {
    RunInv(es);
  }

  // ---------------------------------------------------------------- from the call to its end

  /** Thread t is where call `what` may lead, after it was made with d locks outstanding. */
  predicate Underway(what: Action, d: int, pc: Pc, depth: int) {
    match what
    case Lock => depth == d && InLockCall(pc) && pc != Try(true) && pc != Look(true)
    case TryLock => depth == d && InLockCall(pc) && pc != Try(false) && pc != Look(false) && pc != Enter && pc != Queued
    case Unlock =>
      (match pc
       case DecRead => depth == d
       case DecWrite(_) => depth == d
       case Check => depth == d - 1
       case Reset => depth == d - 1 == 0
       case Release => depth == d - 1 == 0
       case _ => false)
    case Go(_) => false
  }

  /** Thread t holds the mutex with n locks, or, without any, does not hold it. */
  predicate HasLocks(r: State, t: Pid, n: int) {
    && Depth(r, t) == n
    && if n == 0 then r.holder != Some(t) && r.owner != t else r.holder == Some(t) && r.owner == t && r.refs == n
  }

  /** What a call has done when its caller is out of it again. */
  predicate Done(what: Action, d: int, r: State, t: Pid) {
    match what
    case Lock => HasLocks(r, t, d + 1)
    case TryLock => HasLocks(r, t, d + 1) || (d == 0 && HasLocks(r, t, 0))
    case Unlock => HasLocks(r, t, d - 1)
    case Go(_) => false
  }

  function Does(r: State, e: Event): State {
    if Legal(r, e.who, e.what) then Next(r, e.who, e.what) else r
  }

  /** The own steps of a caller lead on in its call or end it. */
  lemma OwnStep(r: State, t: Pid, place: nat, what: Action, d: int)
    requires Inv(r) && t > 0 && Legal(r, t, Go(place)) && Underway(what, d, PcOf(r, t), Depth(r, t)) && d >= 0
    ensures var r' := Next(r, t, Go(place));
      if PcOf(r', t) == Out then Done(what, d, r', t) else Underway(what, d, PcOf(r', t), Depth(r', t))
  {
    assert r.holder == Some(t) || Outside(r, t);
    if PcOf(r, t) == Release && r.queue != [] {
      assert r.queue[0] in r.queue;
    }
  }

  /** The steps of others change nothing, except that they hand the inner mutex over. */
  lemma OthersStep(r: State, e: Event, t: Pid)
    requires Inv(r) && t > 0 && Legal(r, e.who, e.what) && e.who != t
    ensures var r' := Next(r, e.who, e.what);
      && Depth(r', t) == Depth(r, t)
      && (PcOf(r', t) == PcOf(r, t) || (PcOf(r, t) == Queued && PcOf(r', t) == Claim))
  {
    if PcOf(r, e.who) == Release && r.queue != [] {
      assert r.queue[0] in r.queue;
    }
  }

  lemma StepLeadsOn(r: State, e: Event, t: Pid, what: Action, d: int)
    requires Inv(r) && t > 0 && Underway(what, d, PcOf(r, t), Depth(r, t)) && d >= 0
    ensures var r' := Does(r, e);
      if PcOf(r', t) == Out then Done(what, d, r', t) else Underway(what, d, PcOf(r', t), Depth(r', t))
  {
    if Legal(r, e.who, e.what) {
      if e.who == t { OwnStep(r, t, e.what.place, what, d); } else { OthersStep(r, e, t); }
    }
  }

  /** Event i of the schedule is a call that t may make, and t is in the call up to event n. */
  ghost predicate Calls(es: seq<Event>, i: nat, n: nat, t: Pid) {
    && i < n <= |es| && es[i].who == t && !es[i].what.Go? && Legal(After(es[..i]), t, es[i].what)
    && forall x :: i < x < n ==> PcOf(After(es[..x]), t) != Out
  }

  /** One event less. */
  lemma Shorter(es: seq<Event>, i: nat, t: Pid)
    requires Calls(es, i, |es|, t) && i + 1 < |es|
    ensures var pre := es[..|es| - 1];
      Calls(pre, i, |pre|, t) && pre[..i] == es[..i] && PcOf(After(pre), t) != Out && After(es) == Does(After(pre), es[|es| - 1])
  {
    var pre := es[..|es| - 1];
    assert pre[..i] == es[..i];
    assert PcOf(After(es[..|es| - 1]), t) != Out;
    forall x | i < x < |pre| ensures PcOf(After(pre[..x]), t) != Out { assert pre[..x] == es[..x]; }
  }

  lemma {:induction false} CallGoesOn(es: seq<Event>, i: nat, t: Pid)
    requires Calls(es, i, |es|, t)
    ensures var r, what, d := After(es), es[i].what, Depth(After(es[..i]), t);
      if PcOf(r, t) == Out then Done(what, d, r, t) else Underway(what, d, PcOf(r, t), Depth(r, t))
  {
    if i + 1 < |es| {
      var pre := es[..|es| - 1];
      Shorter(es, i, t);
      CallGoesOn(pre, i, t);
      RunInv(pre);
      DepthPositive(es[..i], t);
      StepLeadsOn(After(pre), es[|es| - 1], t, es[i].what, Depth(After(es[..i]), t));
    }
  }

  lemma DepthPositive(es: seq<Event>, t: Pid)
    requires t > 0
    ensures Depth(After(es), t) >= 0
  {
    RunInv(es);
    assert After(es).holder == Some(t) || Outside(After(es), t);
  }

  /** In every schedule a call does what it promises: rmutex_lock returns with one more lock
      of the caller, which holds the mutex; rmutex_trylock returns so too, or without any;
      rmutex_unlock returns with one lock less, and gives the mutex up with the last. */
  lemma CallsKeepTheirPromise(es: seq<Event>, i: nat, t: Pid)
    requires Calls(es, i, |es|, t) && PcOf(After(es), t) == Out
    ensures Done(es[i].what, Depth(After(es[..i]), t), After(es), t)
  {
    CallGoesOn(es, i, t);
  }

  predicate HeldByOther(r: State, t: Pid) {
    r.holder.Some? && r.holder != Some(t)
  }

  /** Another thread held the mutex during the call. */
  ghost predicate Contended(es: seq<Event>, i: nat, t: Pid) {
    exists x :: i < x < |es| && HeldByOther(After(es[..x]), t)
  }

  lemma ContendedBefore(es: seq<Event>, i: nat, t: Pid)
    requires es != [] && Contended(es[..|es| - 1], i, t)
    ensures Contended(es, i, t)
  {
    var pre := es[..|es| - 1];
    var x :| i < x < |pre| && HeldByOther(After(pre[..x]), t);
    assert pre[..x] == es[..x];
  }

  lemma {:induction false} LookIsContended(es: seq<Event>, i: nat, t: Pid)
    requires Calls(es, i, |es|, t) && PcOf(After(es), t) == Look(true) && Depth(After(es[..i]), t) == 0
    ensures Contended(es, i, t)
  {
    if i + 1 < |es| {
      var pre := es[..|es| - 1];
      Shorter(es, i, t);
      if PcOf(After(pre), t) == Look(true) {
        LookIsContended(pre, i, t);
        ContendedBefore(es, i, t);
      } else {
        CallGoesOn(pre, i, t);
        TriedInVain(pre, es[|es| - 1], t);
      }
    }
  }

  lemma TriedInVain(es: seq<Event>, e: Event, t: Pid)
    requires t > 0 && Depth(After(es), t) == 0 && PcOf(After(es), t) != Look(true) && PcOf(Does(After(es), e), t) == Look(true)
    ensures HeldByOther(After(es), t)
  {
    RunInv(es);
    if e.who != t { OthersStep(After(es), e, t); }
  }

  /** In every schedule rmutex_trylock fails only if another thread held the mutex meanwhile;
      in particular it succeeds on a free one that nobody else tries to take. */
  lemma TryLockFailsOnlyIfHeld(es: seq<Event>, i: nat, t: Pid)
    requires Calls(es, i, |es|, t) && es[i].what == TryLock && PcOf(After(es), t) == Out
    ensures HasLocks(After(es), t, Depth(After(es[..i]), t) + 1) || Contended(es, i, t)
  {
    CallGoesOn(es, i, t);
    if !HasLocks(After(es), t, Depth(After(es[..i]), t) + 1) {
      var pre := es[..|es| - 1];
      if i + 1 < |es| {
        Shorter(es, i, t);
        CallGoesOn(pre, i, t);
        GaveUp(pre, es[|es| - 1], t);
        LookIsContended(pre, i, t);
        ContendedBefore(es, i, t);
      }
    }
  }

  lemma GaveUp(es: seq<Event>, e: Event, t: Pid)
    requires t > 0 && Underway(TryLock, 0, PcOf(After(es), t), Depth(After(es), t))
    requires PcOf(Does(After(es), e), t) == Out && Depth(Does(After(es), e), t) == 0
    ensures PcOf(After(es), t) == Look(true)
  {
    RunInv(es);
    if e.who != t && Legal(After(es), e.who, e.what) { OthersStep(After(es), e, t); }
  }
}
