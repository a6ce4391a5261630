/** What holds in every state of every legal run, whatever the interleaving of threads,
    scheduler runs and interrupt handlers. */
module KernelEveryRun {
  import opened KernelTypes
  import opened KernelSpec
  import opened KernelStruct
  import opened KernelInv
  import opened KernelSteps
  import opened KernelRuns
  import opened KernelTheorems

  lemma LinksAreExclusive(b: Setup, steps: seq<Step>, t: Pid)
    requires LegalRun(b, steps) && t in After(b, steps).thr
    ensures LinksExclusive(After(b, steps), t)
  {
    RunInv(b, steps);
    LinkIsExclusive(After(b, steps), t);
  }

  lemma ListsAgree(b: Setup, steps: seq<Step>, t: Pid, r: ListRef)
    requires LegalRun(b, steps) && t in List(After(b, steps).w.lists, r)
    ensures ListAgrees(After(b, steps), t, r)
  {
    RunInv(b, steps);
    ListAgreesWithStatus(After(b, steps), t, r);
  }

  /** The pops with which a call begins: sleeping, blocking on a mutex or on flags,
      receiving, sending, requesting and exiting. */
  lemma PopsAreRight(b: Setup, steps: seq<Step>, s: Status)
    requires LegalRun(b, steps) && Executes(After(b, steps)) && !OnRq(s)
    ensures PopsActive(After(b, steps), s)
  {
    RunInv(b, steps);
    PoisedPops(After(b, steps), s);
  }

  /** The pops that come after an unlock in the same call: in cond_wait and in
      mutex_unlock_and_sleep. */
  lemma LaterPopsAreRight(b: Setup, steps: seq<Step>, m: MutexId)
    requires LegalRun(b, steps) && Executes(After(b, steps)) && Me(After(b, steps)).call == User && MayRelease(After(b, steps), m)
    ensures PopsActive(Unlock(After(b, steps), m), CondBlocked)
    ensures PopsActive(Release(After(b, steps), m), Sleeping)
  {
    RunInv(b, steps);
    PopsAfterUnlock(After(b, steps), m);
  }

  lemma PopsAfterUnlock(k: K, m: MutexId)
    requires CanCall(k) && MayRelease(k, m)
    ensures PopsActive(Unlock(k, m), CondBlocked) && PopsActive(Release(k, m), Sleeping)
  {
    UnlockKeeps(k, m);
    PoisedPops(Unlock(k, m), CondBlocked);
    ReleaseKeeps(k, m);
    PoisedPops(Release(k, m), Sleeping);
  }

  lemma MutexWordsEncode(b: Setup, steps: seq<Step>, m: MutexId)
    requires LegalRun(b, steps)
    ensures WordEncodes(After(b, steps), m)
  {
    RunInv(b, steps);
    MutexWordEncodes(After(b, steps), m);
  }

  lemma WaitersAreQueued(b: Setup, steps: seq<Step>, t: Pid)
    requires LegalRun(b, steps) && t in After(b, steps).thr && After(b, steps).thr[t].call.InCond?
    ensures Signallable(After(b, steps), t)
  {
    RunInv(b, steps);
    NoLostWakeup(After(b, steps), t);
  }

  lemma LocksReturnHolding(b: Setup, steps: seq<Step>, g: Resume)
    requires LegalRun(b, steps) && Executes(After(b, steps)) && LegalGo(After(b, steps), g) && LocksMutex(Me(After(b, steps)).call)
    ensures ReturnsHeld(After(b, steps), g)
  {
    RunInv(b, steps);
    ReturnsHolding(After(b, steps), g);
  }

  lemma FlagWaitsReturn(b: Setup, steps: seq<Step>)
    requires LegalRun(b, steps) && Executes(After(b, steps)) && LegalGo(After(b, steps), GoFlagsTake)
    ensures FlagsServed(After(b, steps))
  {
    RunInv(b, steps);
    FlagWaitResults(After(b, steps));
  }

  lemma QueuesFillFirst(b: Setup, steps: seq<Step>, t: Pid)
    requires LegalRun(b, steps) && t in After(b, steps).thr
    ensures FillsFirst(After(b, steps), t)
  {
    RunInv(b, steps);
    SendersWaitOnlyWhenFull(After(b, steps), t);
  }

  lemma ReceivesReturn(b: Setup, steps: seq<Step>)
    requires LegalRun(b, steps) && Executes(After(b, steps)) && Me(After(b, steps)).call.InReceive?
    ensures ReceiveServed(After(b, steps))
  {
    RunInv(b, steps);
    ReceiveReturnsMessage(After(b, steps));
  }

  lemma RequestsReturn(b: Setup, steps: seq<Step>, t: Pid)
    requires LegalRun(b, steps) && t in After(b, steps).thr && After(b, steps).thr[t].call.InSendReceive?
    ensures RequestServed(After(b, steps), t)
  {
    RunInv(b, steps);
    RequestReturnsReply(After(b, steps), t);
  }
}
