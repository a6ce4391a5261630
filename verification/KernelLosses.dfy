/** All messages over whole runs: each one that was accepted has been received, is queued,
    is still with its sender, or was in the queue of a thread that exited. */
module KernelLosses {
  import opened KernelTypes
  import opened KernelSpec
  import opened KernelStruct
  import opened KernelInv
  import opened KernelSteps
  import opened KernelRuns
  import opened KernelLogs

  /** Step a is the exit of thread r. */
  predicate Exits(k: K, a: Step, r: Pid) {
    Quits(a) && k.s.active == r
  }

  function Only(p: Option<Letter>, s: Pid, r: Pid): seq<Msg> {
    if p.Some? && p.value.s == s && p.value.r == r then [p.value.m] else []
  }

  // ---------------------------------------------------------------- one exit

  /** What a thread that exits had accepted from s: what it received, and what is still in
      its queue. The latter is lost, and all other threads keep their messages. */
  lemma ExitLoses(k: K, s: Pid)
    requires Inv(k) && Legal(k, Sync(CallExit))
    ensures Log(k.x.sent, s, k.s.active) == Log(k.x.rcvd, s, k.s.active) + From(Me(k).inbox, s)
    ensures k.s.active !in Exit(k).thr
    ensures forall t :: t in k.thr && t != k.s.active ==> t in Exit(k).thr && Exit(k).thr[t].inbox == k.thr[t].inbox
  {
    var me := k.s.active;
    assert Channel(k.thr, k.x.mem, k.x.sent, k.x.rcvd, s, me);
    NobodyWaits(k.thr, k.w.lists, me, s);
    assert Waiting(k.thr, k.x.mem, s, me) == [];
    ExitThreads(k);
  }

  lemma NobodyWaits(thr: map<Pid, Thread>, lists: map<ListRef, seq<Pid>>, r: Pid, s: Pid)
    requires Lists(thr, lists) && List(lists, MsgWaiters(r)) == [] && r in thr
    ensures Th(thr, s).on != Some(MsgWaiters(r))
  {
    assert s in List(lists, MsgWaiters(r)) <==> s in thr && thr[s].on == Some(MsgWaiters(r));
  }

  lemma ExitThreads(k: K)
    ensures k.s.active !in Exit(k).thr
    ensures forall t :: t in k.thr && t != k.s.active ==> t in Exit(k).thr && Exit(k).thr[t].inbox == k.thr[t].inbox
  {
  }

  lemma FromSomebody(q: seq<Msg>)
    requires q != []
    ensures From(q, q[|q| - 1].sender) != []
  {
  }

  /** So an exit loses nothing exactly if the queue is empty. */
  lemma ExitLosesNothingIff(k: K)
    ensures (forall s :: From(Me(k).inbox, s) == []) <==> Me(k).inbox == []
  {
    var q := Me(k).inbox;
    if q != [] {
      FromSomebody(q);
    } else {
      assert forall s :: From(q, s) == [];
    }
  }

  // ---------------------------------------------------------------- whole runs

  /** All messages from s to r that were accepted in a run, in order. */
  ghost function EverSent(b: Setup, steps: seq<Step>, s: Pid, r: Pid): seq<Msg> {
    if steps == [] then []
    else var n := |steps| - 1; EverSent(b, steps[..n], s, r) + Only(Accepted(After(b, steps[..n]), steps[n]), s, r)
  }

  /** All messages from s that threads with the id r were handed, in order. */
  ghost function EverRcvd(b: Setup, steps: seq<Step>, s: Pid, r: Pid): seq<Msg> {
    if steps == [] then []
    else var n := |steps| - 1; EverRcvd(b, steps[..n], s, r) + Only(HandedOver(After(b, steps[..n]), steps[n]), s, r)
  }

  /** What was in the queues of threads with the id r when they exited. */
  ghost function Lost(b: Setup, steps: seq<Step>, s: Pid, r: Pid): seq<Msg> {
    Concat(Losses(b, steps, s, r))
  }

  /** The same, step by step. */
  ghost function Losses(b: Setup, steps: seq<Step>, s: Pid, r: Pid): seq<seq<Msg>> {
    seq(|steps|, i requires 0 <= i < |steps| => LostNow(After(b, steps[..i]), steps[i], s, r))
  }

  function Concat(ls: seq<seq<Msg>>): seq<Msg> {
    if ls == [] then [] else Concat(ls[..|ls| - 1]) + ls[|ls| - 1]
  }

  function LostNow(k: K, a: Step, s: Pid, r: Pid): seq<Msg> {
    if Exits(k, a, r) then From(Me(k).inbox, s) else []
  }

  /** What had been accepted and received before the last exit of a thread with the id r. */
  ghost function PastSent(b: Setup, steps: seq<Step>, s: Pid, r: Pid): seq<Msg> {
    if steps == [] then []
    else
      var n := |steps| - 1;
      if Exits(After(b, steps[..n]), steps[n], r) then EverSent(b, steps[..n], s, r) else PastSent(b, steps[..n], s, r)
  }

  ghost function PastRcvd(b: Setup, steps: seq<Step>, s: Pid, r: Pid): seq<Msg> {
    if steps == [] then []
    else
      var n := |steps| - 1;
      if Exits(After(b, steps[..n]), steps[n], r) then EverRcvd(b, steps[..n], s, r) else PastRcvd(b, steps[..n], s, r)
  }

  lemma BootLogs(b: Setup, s: Pid, r: Pid)
    ensures var k := Boot(b.flagsOn, b.f1, b.f2); Log(k.x.sent, s, r) == [] && Log(k.x.rcvd, s, r) == []
  {
    RunLogs(CreateBoth(b.flagsOn, b.f1, b.f2));
  }

  lemma NotedOnly(log: map<(Pid, Pid), seq<Msg>>, p: Option<Letter>, s: Pid, r: Pid)
    ensures Log(Noted(log, p), s, r) == Log(log, s, r) + Only(p, s, r)
  {
  }

  /** One step: the records grow by what is accepted and handed over, or end. */
  lemma StepRecords(k: K, a: Step, s: Pid, r: Pid)
    requires k.s.active in k.thr && Legal(k, a)
    ensures var k' := Next(k, a);
      if Exits(k, a, r) then Log(k'.x.sent, s, r) == [] && Log(k'.x.rcvd, s, r) == []
      else && Log(k'.x.sent, s, r) == Log(k.x.sent, s, r) + Only(Accepted(k, a), s, r)
           && Log(k'.x.rcvd, s, r) == Log(k.x.rcvd, s, r) + Only(HandedOver(k, a), s, r)
    ensures Exits(k, a, r) ==> Only(Accepted(k, a), s, r) == [] && Only(HandedOver(k, a), s, r) == []
  {
    if Quits(a) {
      ExitLogs(k, s, r);
    } else {
      StepLogs(k, a);
      NotedOnly(k.x.sent, Accepted(k, a), s, r);
      NotedOnly(k.x.rcvd, HandedOver(k, a), s, r);
    }
  }

  /** The records of the kernel are what was sent and received since the last exit. */
  lemma {:induction false} RunRecords(b: Setup, steps: seq<Step>, s: Pid, r: Pid)
    requires LegalRun(b, steps)
    ensures EverSent(b, steps, s, r) == PastSent(b, steps, s, r) + Log(After(b, steps).x.sent, s, r)
    ensures EverRcvd(b, steps, s, r) == PastRcvd(b, steps, s, r) + Log(After(b, steps).x.rcvd, s, r)
  {
    if steps == [] {
      BootLogs(b, s, r);
    } else {
      var n := |steps| - 1;
      RunRecords(b, steps[..n], s, r);
      RunInv(b, steps[..n]);
      RecordStep(After(b, steps[..n]), steps[n], s, r, PastSent(b, steps[..n], s, r), PastRcvd(b, steps[..n], s, r));
    }
  }

  lemma RecordStep(k: K, a: Step, s: Pid, r: Pid, past: seq<Msg>, got: seq<Msg>)
    requires k.s.active in k.thr && Legal(k, a)
    ensures var k' := Next(k, a); var ever, all := past + Log(k.x.sent, s, r), got + Log(k.x.rcvd, s, r);
      && ever + Only(Accepted(k, a), s, r) == (if Exits(k, a, r) then ever else past) + Log(k'.x.sent, s, r)
      && all + Only(HandedOver(k, a), s, r) == (if Exits(k, a, r) then all else got) + Log(k'.x.rcvd, s, r)
  {
    StepRecords(k, a, s, r);
  }

  /** The last step of a run, added to its losses. */
  lemma LostStep(b: Setup, steps: seq<Step>, s: Pid, r: Pid, n: nat)
    requires n == |steps| - 1
    ensures Lost(b, steps, s, r) == Lost(b, steps[..n], s, r) + LostNow(After(b, steps[..n]), steps[n], s, r)
  {
    var ls, ls' := Losses(b, steps, s, r), Losses(b, steps[..n], s, r);
    forall i | 0 <= i < n ensures ls[i] == ls'[i] { assert steps[..n][..i] == steps[..i]; }
    assert ls[..n] == ls';
  }

  lemma ExitCounts(k: K, s: Pid, pastSent: seq<Msg>, pastRcvd: seq<Msg>, lost: seq<Msg>)
    requires Inv(k) && Legal(k, Sync(CallExit)) && multiset(pastSent) == multiset(pastRcvd) + multiset(lost)
    ensures multiset(pastSent + Log(k.x.sent, s, k.s.active))
      == multiset(pastRcvd + Log(k.x.rcvd, s, k.s.active)) + multiset(lost + From(Me(k).inbox, s))
  {
    ExitLoses(k, s);
  }

  lemma {:induction false} PastConserves(b: Setup, steps: seq<Step>, s: Pid, r: Pid)
    requires LegalRun(b, steps)
    ensures multiset(PastSent(b, steps, s, r)) == multiset(PastRcvd(b, steps, s, r)) + multiset(Lost(b, steps, s, r))
  {
    if steps != [] {
      var n := |steps| - 1;
      var k := After(b, steps[..n]);
      PastConserves(b, steps[..n], s, r);
      LostStep(b, steps, s, r, n);
      if Exits(k, steps[n], r) {
        RunRecords(b, steps[..n], s, r);
        RunInv(b, steps[..n]);
        ExitCounts(k, s, PastSent(b, steps[..n], s, r), PastRcvd(b, steps[..n], s, r), Lost(b, steps[..n], s, r));
      } else {
        assert Lost(b, steps, s, r) == Lost(b, steps[..n], s, r);
      }
    }
  }

  /** In every legal run, every message that was accepted was received, or lost in the queue
      of a thread that exited, or is queued, or its sender is blocked with it. Since the
      last exit of the receiver's id they are so in the order in which they were sent. */
  lemma EveryMessageAccounted(b: Setup, steps: seq<Step>, s: Pid, r: Pid)
    requires LegalRun(b, steps)
    ensures var k := After(b, steps); var queued, waiting := From(Th(k.thr, r).inbox, s), Waiting(k.thr, k.x.mem, s, r);
      && multiset(EverSent(b, steps, s, r))
         == multiset(EverRcvd(b, steps, s, r)) + multiset(Lost(b, steps, s, r)) + multiset(queued) + multiset(waiting)
      && EverSent(b, steps, s, r) == PastSent(b, steps, s, r) + Log(k.x.rcvd, s, r) + queued + waiting
      && EverRcvd(b, steps, s, r) == PastRcvd(b, steps, s, r) + Log(k.x.rcvd, s, r)
  {
    var k := After(b, steps);
    RunRecords(b, steps, s, r);
    PastConserves(b, steps, s, r);
    RunInv(b, steps);
    AddUp(k, s, r, PastSent(b, steps, s, r), PastRcvd(b, steps, s, r), Lost(b, steps, s, r));
  }

  lemma AddUp(k: K, s: Pid, r: Pid, past: seq<Msg>, got: seq<Msg>, lost: seq<Msg>)
    requires Channel(k.thr, k.x.mem, k.x.sent, k.x.rcvd, s, r) && multiset(past) == multiset(got) + multiset(lost)
    ensures var queued, waiting := From(Th(k.thr, r).inbox, s), Waiting(k.thr, k.x.mem, s, r);
      && multiset(past + Log(k.x.sent, s, r)) == multiset(got + Log(k.x.rcvd, s, r)) + multiset(lost) + multiset(queued) + multiset(waiting)
      && past + Log(k.x.sent, s, r) == past + Log(k.x.rcvd, s, r) + queued + waiting
  {
    Chain4(past, Log(k.x.rcvd, s, r), From(Th(k.thr, r).inbox, s), Waiting(k.thr, k.x.mem, s, r));
  }

  lemma Chain4(a: seq<Msg>, b: seq<Msg>, c: seq<Msg>, d: seq<Msg>)
    ensures a + (b + c + d) == a + b + c + d
  {
  }

  /** No message to threads with the id r is lost exactly if none exits with a message in
      its queue. */
  lemma ThreadLosesNothingIff(b: Setup, steps: seq<Step>, r: Pid)
    ensures (forall s :: Lost(b, steps, s, r) == [])
      <==> forall i :: 0 <= i < |steps| && Exits(After(b, steps[..i]), steps[i], r) ==> Me(After(b, steps[..i])).inbox == []
  {
    forall s ensures Lost(b, steps, s, r) == []
      <==> forall i :: 0 <= i < |steps| ==> LostNow(After(b, steps[..i]), steps[i], s, r) == [] { LosesNothingIff(b, steps, s, r); }
    if forall s :: Lost(b, steps, s, r) == [] {
      forall i | 0 <= i < |steps| && Exits(After(b, steps[..i]), steps[i], r) ensures Me(After(b, steps[..i])).inbox == [] {
        EmptyQueue(b, steps, r, i);
      }
    } else {
      var s :| Lost(b, steps, s, r) != [];
      var i :| 0 <= i < |steps| && LostNow(After(b, steps[..i]), steps[i], s, r) != [];
    }
  }

  lemma EmptyQueue(b: Setup, steps: seq<Step>, r: Pid, i: nat)
    requires i < |steps| && Exits(After(b, steps[..i]), steps[i], r) && forall s :: Lost(b, steps, s, r) == []
    ensures Me(After(b, steps[..i])).inbox == []
  {
    var q := Me(After(b, steps[..i])).inbox;
    if q != [] {
      var s := q[|q| - 1].sender;
      FromSomebody(q);
      assert LostNow(After(b, steps[..i]), steps[i], s, r) == From(q, s);
      LosesNothingIff(b, steps, s, r);
    }
  }

  lemma {:induction false} ConcatEmpty(ls: seq<seq<Msg>>)
    ensures Concat(ls) == [] <==> forall i :: 0 <= i < |ls| ==> ls[i] == []
  {
    if ls != [] {
      var n := |ls| - 1;
      ConcatEmpty(ls[..n]);
      assert Concat(ls) == [] <==> Concat(ls[..n]) == [] && ls[n] == [];
      forall i | 0 <= i < n ensures ls[..n][i] == ls[i] {
      }
    }
  }

  /** In a run no message from s to r is lost exactly if no thread with the id r exits with
      one of them in its queue. */
  lemma LosesNothingIff(b: Setup, steps: seq<Step>, s: Pid, r: Pid)
    ensures Lost(b, steps, s, r) == []
      <==> forall i :: 0 <= i < |steps| ==> LostNow(After(b, steps[..i]), steps[i], s, r) == []
  {
    var ls := Losses(b, steps, s, r);
    ConcatEmpty(ls);
    forall i | 0 <= i < |steps| ensures ls[i] == LostNow(After(b, steps[..i]), steps[i], s, r) {
    }
  }
}
