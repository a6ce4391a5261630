/** The message queues of all threads, each a cib over an array of its size. A thread
    without a queue has one of size 0. */
module Mailboxes {
  import opened KernelTypes
  import opened Bits
  import Cib

  type Box = Cib.Queue<Msg>

  method NewBox(n: Word) returns (box: Box)
    requires Cib.Sound(n)
    ensures fresh(box) && fresh(box.cib) && fresh(box.items) && box.Valid() && box.Contents() == [] && box.cib.size == n
  {
    var items := new Msg[n](_ => ZERO_MSG);
    box := new Cib.Queue(n, items);
  }

  class Boxes {
    /** msg_queue and msg_array of each thread */
    var boxes: map<Pid, Box>

    ghost var inboxes: map<Pid, seq<Msg>>
    ghost var caps: map<Pid, nat>
    ghost var repr: set<object>

    /** The queue of thread t is in order and holds its inbox. */
    ghost predicate Holds(t: Pid)
      requires t in boxes && t in inboxes && t in caps
      reads this, repr
    {
      && boxes[t] in repr && boxes[t].cib in repr && boxes[t].items in repr
      && boxes[t].Valid() && boxes[t].Contents() == inboxes[t] && boxes[t].cib.size == caps[t]
    }

    ghost predicate Parts()
      reads this, repr
    {
      && this !in repr && inboxes.Keys == boxes.Keys && caps.Keys == boxes.Keys
      && (forall t :: t in boxes ==> Holds(t))
      && (forall t, u :: t in boxes && u in boxes && t != u ==> boxes[t].cib != boxes[u].cib && boxes[t].items != boxes[u].items)
    }

    ghost predicate Valid()
      reads this, repr
    {
      && this !in repr
      && forall u {:trigger Asked(u)} :: Asked(u) ==> Parts()
    }

    constructor ()
      ensures Valid() && inboxes == map[] && caps == map[] && fresh(repr)
    {
      boxes, inboxes, caps, repr := map[], map[], map[], {};
    }

    /** msg_init_queue, and the initialisation in thread_create with size 0. The array is
        the caller's. */
    method Init(t: Pid, n: Word)
      requires Valid() && Cib.Sound(n)
      modifies this
      ensures Valid() && inboxes == old(inboxes)[t := []] && caps == old(caps)[t := n] && fresh(repr - old(repr))
    {
      var box := NewBox(n);
      Install(t, box);
    }

    method Install(t: Pid, box: Box)
      requires Valid() && {box, box.cib, box.items} !! repr && this !in {box, box.cib, box.items}
      requires box.Valid() && box.Contents() == []
      modifies this
      ensures Valid() && inboxes == old(inboxes)[t := []] && caps == old(caps)[t := box.cib.size]
      ensures repr == old(repr) + {box, box.cib, box.items}
    {
      assert Asked(0);
      boxes := boxes[t := box];
      inboxes, caps := inboxes[t := []], caps[t := box.cib.size];
      repr := repr + {box, box.cib, box.items};
      forall u | u in boxes ensures Holds(u) {
        if u != t { assert old(Holds(u)); }
      }
      assert Parts();
    }

    /** cib_put and the store to the array. */
    method Put(t: Pid, m: Msg) returns (ok: bool)
      requires Valid() && t in inboxes && t in caps
      modifies this, repr
      ensures Valid() && repr == old(repr) && caps == old(caps)
      ensures ok <==> |old(inboxes)[t]| < old(caps)[t]
      ensures inboxes == if ok then old(inboxes)[t := old(inboxes)[t] + [m]] else old(inboxes)
    {
      assert Asked(0);
      assert Holds(t);
      ok := boxes[t].Push(m);
      if ok {
        inboxes := inboxes[t := inboxes[t] + [m]];
      }
      assert Parts();
    }

    /** cib_get and the load from the array. */
    method Get(t: Pid) returns (m: Option<Msg>)
      requires Valid() && t in inboxes && t in caps
      modifies this, repr
      ensures Valid() && repr == old(repr) && caps == old(caps)
      ensures if old(inboxes)[t] == [] then m == None && inboxes == old(inboxes)
              else m == Some(old(inboxes)[t][0]) && inboxes == old(inboxes)[t := old(inboxes)[t][1..]]
    {
      assert Asked(0);
      assert Holds(t);
      m := boxes[t].Pop();
      if m.Some? {
        inboxes := inboxes[t := inboxes[t][1..]];
      }
      assert Parts();
    }

    method Drop(t: Pid)
      requires Valid()
      modifies this
      ensures Valid() && repr == old(repr) && inboxes == old(inboxes) - {t} && caps == old(caps) - {t}
    {
      assert Asked(0);
      boxes := boxes - {t};
      inboxes, caps := inboxes - {t}, caps - {t};
      assert Parts();
    }
  }
}
