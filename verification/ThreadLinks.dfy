/** The kernel's queues as the source keeps them: one link field per thread, the run
    queues as circular lists with a bit cache of the non-empty ones, and the wait lists
    as NULL-terminated lists. */
module ThreadLinks {
  import opened KernelTypes
  import opened KernelSpec
  import opened KernelStruct
  import opened LinkFields
  import Bits
  import BitArithm

  /** Bit p of the cache is set iff run queue p is not empty. */
  ghost predicate Cached(cache: nat, rq: RunQueues) {
    forall p: nat :: Bits.Bit(cache, p) <==> Rq(rq, p) != []
  }

  lemma CacheSet(cache: nat, rq: RunQueues, p: nat, q: seq<Pid>)
    requires Cached(cache, rq) && q != []
    ensures Cached(Bits.SetBit(cache, p), rq[p := q])
  {
    var rq' := rq[p := q];
    forall i: nat ensures Bits.Bit(Bits.SetBit(cache, p), i) <==> Rq(rq', i) != [] {
      Bits.SetBitBits(cache, p, i);
      assert Bits.Bit(cache, i) <==> Rq(rq, i) != [];
    }
  }

  lemma CacheClear(cache: nat, rq: RunQueues, p: nat)
    requires Cached(cache, rq)
    ensures Bits.ClearBit(cache, p) >= 0 && Cached(Bits.ClearBit(cache, p), rq[p := []])
  {
    Bits.ClearBitBits(cache, p, 0);
    var c, rq' := Bits.ClearBit(cache, p), rq[p := []];
    forall i: nat ensures Bits.Bit(c, i) <==> Rq(rq', i) != [] {
      Bits.ClearBitBits(cache, p, i);
      assert Bits.Bit(cache, i) <==> Rq(rq, i) != [];
    }
  }

  lemma CacheSame(cache: nat, rq: RunQueues, p: nat, q: seq<Pid>)
    requires Cached(cache, rq) && (q == [] <==> Rq(rq, p) == [])
    ensures Cached(cache, rq[p := q])
  {
    var rq' := rq[p := q];
    forall i: nat ensures Bits.Bit(cache, i) <==> Rq(rq', i) != [] {
      assert Bits.Bit(cache, i) <==> Rq(rq, i) != [];
    }
  }

  /** The lowest bit of the cache is the best run queue. */
  lemma LowestIsBest(cache: nat, rq: RunQueues, p: nat)
    requires Cached(cache, rq) && p < PRIO_LEVELS && Rq(rq, p) != [] && forall i: nat :: i >= PRIO_LEVELS ==> Rq(rq, i) == []
    ensures 0 < cache < Bits.LIMIT && BitArithm.Lowest(cache) == Best(rq, PRIO_TOP) < PRIO_LEVELS
  {
    assert Bits.Bit(cache, p);
    if cache == 0 { Bits.ZeroHasNoBits(p); }
    forall j: nat | j >= PRIO_LEVELS ensures !Bits.Bit(cache, j) {
      assert Rq(rq, j) == [];
    }
    Bits.BitsBound(cache, PRIO_LEVELS);
    assert Bits.Pow2(8) == 0x100;
    assert Bits.Pow2(16) == 0x1_0000;
    BitArithm.LowestIsSet(cache);
    var k, b := BitArithm.Lowest(cache), Best(rq, PRIO_TOP);
    assert Rq(rq, k) != [];
    assert k < b ==> Rq(rq, k) == [];
    assert b < k ==> Bits.Bit(cache, b);
  }

  class Links {
    /** rq_entry.next of each thread */
    const next: array<Pid>
    /** sched_runqueues[p].next */
    const tails: array<Pid>
    /** runqueue_bitcache */
    var cache: nat
    /** queue.next of mutexes and condition variables, msg_waiters.next of threads */
    var heads: map<ListRef, Pid>

    ghost var rq: RunQueues
    ghost var lists: WaitLists
    ghost var marked: set<MutexId>
    ghost var home: map<Pid, Place>

    ghost predicate Valid()
      reads this, next, tails
    {
      forall u {:trigger Asked(u)} :: Asked(u) ==> Parts()
    }

    ghost predicate Parts()
      reads this, next, tails
    {
      && next.Length == PID_LAST + 1 && next != tails
      && Stored(next[..], tails[..], heads, rq, lists, marked, home)
      && Cached(cache, rq)
    }

    constructor ()
      ensures Valid() && rq == map[] && lists == map[] && marked == {} && home == map[] && fresh(next) && fresh(tails)
    {
      next := new Pid[PID_LAST + 1](_ => 0);
      tails := new Pid[PRIO_LEVELS](_ => 0);
      cache, heads := 0, map[];
      rq, lists, marked, home := map[], map[], {}, map[];
      new;
      forall p: nat ensures !Bits.Bit(0, p) {
        Bits.ZeroHasNoBits(p);
      }
    }

    /** The joining half of sched_set_status. */
    method Enqueue(p: nat, t: Pid)
      requires Valid() && p < PRIO_LEVELS && PID_FIRST <= t <= PID_LAST && t !in home
      modifies this, next, tails
      ensures Valid() && rq == old(rq)[p := Rq(old(rq), p) + [t]] && home == old(home)[t := RunQ(p)]
      ensures lists == old(lists) && marked == old(marked)
    {
      assert Asked(0);
      PushStored(next[..], tails[..], heads, rq, lists, marked, home, p, t);
      CacheSet(cache, rq, p, Rq(rq, p) + [t]);
      var tail := tails[p];
      if tail != 0 {
        next[t] := next[tail];
        next[tail] := t;
      } else {
        next[t] := t;
      }
      tails[p] := t;
      cache := Bits.SetBit(cache, p);
      rq, home := rq[p := Rq(rq, p) + [t]], home[t := RunQ(p)];
      assert Parts();
    }

    /** The leaving half of sched_set_status: whoever is first goes. */
    method Dequeue(p: nat)
      requires Valid() && p < PRIO_LEVELS && Rq(rq, p) != []
      modifies this, next, tails
      ensures Valid() && rq == old(rq)[p := Rq(old(rq), p)[1..]] && home == old(home) - {Rq(old(rq), p)[0]}
      ensures lists == old(lists) && marked == old(marked)
    {
      assert Asked(0);
      PopStored(next[..], tails[..], heads, rq, lists, marked, home, p);
      ghost var q := Rq(rq, p);
      if |q| == 1 { CacheClear(cache, rq, p); } else { CacheSame(cache, rq, p, q[1..]); }
      var tail := tails[p];
      var first := next[tail];
      if tail == first {
        tails[p] := 0;
      } else {
        next[tail] := next[first];
      }
      if tails[p] == 0 {
        cache := Bits.ClearBit(cache, p);
      }
      rq, home := rq[p := q[1..]], home - {q[0]};
      assert Parts();
    }

    /** clist_lpoprpush */
    method Rotate(p: nat)
      requires Valid() && p < PRIO_LEVELS
      modifies this, tails
      ensures Valid() && rq == (if Rq(old(rq), p) == [] then old(rq) else old(rq)[p := Rq(old(rq), p)[1..] + [Rq(old(rq), p)[0]]])
      ensures lists == old(lists) && marked == old(marked) && home == old(home)
    {
      assert Asked(0);
      assert Ring(next[..], tails[p], Rq(rq, p));
      if tails[p] != 0 {
        RotateStored(next[..], tails[..], heads, rq, lists, marked, home, p);
        ghost var q := Rq(rq, p);
        CacheSame(cache, rq, p, q[1..] + [q[0]]);
        tails[p] := next[tails[p]];
        rq := rq[p := q[1..] + [q[0]]];
      } else {
        EmptyRing(next[..], tails[..], heads, rq, lists, marked, home, p);
      }
      assert Parts();
    }

    /** The head of the best run queue, as sched_run finds it. */
    method BestThread() returns (t: Pid)
      requires Valid() && exists p: nat :: p < PRIO_LEVELS && Rq(rq, p) != []
      ensures Best(rq, PRIO_TOP) < PRIO_LEVELS && t == Rq(rq, Best(rq, PRIO_TOP))[0]
    {
      assert Asked(0);
      ghost var p: nat :| p < PRIO_LEVELS && Rq(rq, p) != [];
      LowestIsBest(cache, rq, p);
      var nextrq := BitArithm.LsbLoop(cache);
      PopStored(next[..], tails[..], heads, rq, lists, marked, home, nextrq);
      return next[tails[nextrq]];
    }

    /** The walk of thread_add_to_list: the neighbours of the new entry's place. */
    method FindPlace(head: Pid, ghost q: seq<Pid>, prio: nat, thr: map<Pid, Thread>) returns (prev: Pid, cur: Pid, ghost i: nat)
      requires head == (if q == [] then 0 else q[0]) && Chain(next[..], q, 0)
      ensures i == InsertPos(thr, q, prio) && i <= |q|
      ensures cur == (if i < |q| then q[i] else 0) && prev == (if i > 0 then q[i - 1] else 0)
    {
      prev, cur, i := 0, head, 0;
      while cur != 0
        invariant 0 <= i <= |q| && cur == (if i < |q| then q[i] else 0) && prev == (if i > 0 then q[i - 1] else 0)
        invariant forall j :: 0 <= j < i ==> Th(thr, q[j]).prio <= prio
        decreases |q| - i
      {
        if Th(thr, cur).prio > prio {
          break;
        }
        assert LinkFields.Linked(next[..], q, 0, i);
        prev, cur := cur, next[cur];
        i := i + 1;
      }
      assert LinkFields.Linked(next[..], q, 0, i);
      InsertPosIs(thr, q, prio, i);
    }

    /** thread_add_to_list: behind all entries of the same or a better priority. */
    method AddToList(r: ListRef, t: Pid, thr: map<Pid, Thread>)
      requires Valid() && PID_FIRST <= t <= PID_LAST && t !in home && !(r.MutexQ? && r.m in marked)
      modifies this, next
      ensures Valid() && rq == old(rq) && marked == old(marked) && home == old(home)[t := WaitL(r)]
      ensures var q := List(old(lists), r); var i := InsertPos(thr, q, Th(thr, t).prio);
        lists == old(lists)[r := q[..i] + [t] + q[i..]]
    {
      assert Asked(0);
      ghost var q := List(lists, r);
      assert Head(heads, r) == HeadOf(lists, marked, r) && Chain(next[..], q, 0);
      ghost var i;
      var prev, cur;
      prev, cur, i := FindPlace(Head(heads, r), q, Th(thr, t).prio, thr);
      NonZero(home, rq, lists, next.Length, r, i);
      InsertStored(next[..], tails[..], heads, rq, lists, marked, home, r, i, t, cur, prev, marked);
      next[t] := cur;
      if prev == 0 {
        heads := heads[r := t];
      } else {
        next[prev] := t;
      }
      lists, home := lists[r := q[..i] + [t] + q[i..]], home[t := WaitL(r)];
      assert Parts();
    }

    /** The first waiter of a mutex takes the place of MUTEX_LOCKED. */
    method FirstWaiter(m: MutexId, t: Pid)
      requires Valid() && PID_FIRST <= t <= PID_LAST && t !in home && List(lists, MutexQ(m)) == []
      modifies this, next
      ensures Valid() && rq == old(rq) && marked == old(marked) - {m} && home == old(home)[t := WaitL(MutexQ(m))]
      ensures lists == old(lists)[MutexQ(m) := [t]]
    {
      assert Asked(0);
      InsertStored(next[..], tails[..], heads, rq, lists, marked, home, MutexQ(m), 0, t, 0, 0, marked - {m});
      heads := heads[MutexQ(m) := t];
      next[t] := 0;
      assert [] + [t] + [] == [t];
      lists, home, marked := lists[MutexQ(m) := [t]], home[t := WaitL(MutexQ(m))], marked - {m};
      assert Parts();
    }

    /** list_remove_head */
    method RemoveHead(r: ListRef) returns (t: Pid)
      requires Valid() && !(r.MutexQ? && r.m in marked)
      modifies this
      ensures Valid() && rq == old(rq) && marked == old(marked)
      ensures if List(old(lists), r) == [] then t == 0 && lists == old(lists) && home == old(home)
              else t == List(old(lists), r)[0] && lists == old(lists)[r := List(old(lists), r)[1..]] && home == old(home) - {t}
    {
      assert Asked(0);
      ghost var q := List(lists, r);
      assert Head(heads, r) == HeadOf(lists, marked, r);
      t := Head(heads, r);
      NonZero(home, rq, lists, next.Length, r, 0);
      if t != 0 {
        RemoveStored(next[..], tails[..], heads, rq, lists, marked, home, r, marked);
        heads := heads[r := next[t]];
        lists, home := lists[r := q[1..]], home - {t};
      }
      assert Parts();
    }

    /** `mutex->queue.next = MUTEX_LOCKED` or `= NULL` */
    method Mark(m: MutexId, locked: bool)
      requires Valid() && List(lists, MutexQ(m)) == []
      modifies this
      ensures Valid() && rq == old(rq) && lists == old(lists) && home == old(home)
      ensures marked == if locked then old(marked) + {m} else old(marked) - {m}
    {
      assert Asked(0);
      ghost var marked' := if locked then marked + {m} else marked - {m};
      MarkStored(next[..], tails[..], heads, rq, lists, marked, home, m, marked');
      heads := heads[MutexQ(m) := if locked then LOCKED else 0];
      marked := marked';
      assert Parts();
    }

    /** What `queue.next` or `msg_waiters.next` holds. */
    method HeadWord(r: ListRef) returns (w: Pid)
      requires Valid()
      ensures w == HeadOf(lists, marked, r) && (List(lists, r) != [] ==> w > 0)
    {
      assert Asked(0);
      assert Head(heads, r) == HeadOf(lists, marked, r);
      NonZero(home, rq, lists, next.Length, r, 0);
      return Head(heads, r);
    }
  }

  /** Entries of a wait list are not NULL. */
  lemma NonZero(home: map<Pid, Place>, rq: RunQueues, lists: WaitLists, size: nat, r: ListRef, i: nat)
    requires Homes(home, rq, lists, size)
    ensures i < |List(lists, r)| ==> List(lists, r)[i] > 0
    ensures 0 < i <= |List(lists, r)| ==> List(lists, r)[i - 1] > 0
  {
    var q := List(lists, r);
    forall j | 0 <= j < |q| ensures q[j] > 0 {
      var x := q[j];
      assert x in q;
      assert x in home && home[x] == WaitL(r);
    }
  }

  lemma {:induction false} InsertPosIs(thr: map<Pid, Thread>, q: seq<Pid>, prio: nat, i: nat)
    requires i <= |q| && (forall j :: 0 <= j < i ==> Th(thr, q[j]).prio <= prio) && (i < |q| ==> Th(thr, q[i]).prio > prio)
    ensures i == InsertPos(thr, q, prio)
  {
    if i > 0 { InsertPosIs(thr, q[1..], prio, i - 1); }
  }

  /** A run queue's tail is NULL exactly if the queue is empty. */
  lemma EmptyRing(n: Fields, tails: seq<Pid>, heads: map<ListRef, Pid>, rq: RunQueues, lists: WaitLists, marked: set<MutexId>,
                  home: map<Pid, Place>, p: nat)
    requires Stored(n, tails, heads, rq, lists, marked, home) && p < PRIO_LEVELS
    ensures tails[p] == 0 <==> Rq(rq, p) == []
  {
    assert Ring(n, tails[p], Rq(rq, p));
    if Rq(rq, p) != [] {
      assert Last(Rq(rq, p)) in Rq(rq, p);
      assert Last(Rq(rq, p)) in home;
    }
  }
}
