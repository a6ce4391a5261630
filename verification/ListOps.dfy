/** The operations of clist. A list is a pointer to its last node; `nodes` is the
    sequence the list stands for. */
module ListOps {
  import opened ListSort
  import opened CircularList

  lemma RotateRing(s: seq<Node>)
    requires Ring(s)
    ensures Ring(s[1..] + [s[0]])
  {
    var t := s[1..] + [s[0]];
    forall i ensures Linked(t, i) {
      assert Linked(s, i + 1);
    }
    assert Linked(s, 0);
    assert t[0] == if |s| == 1 then s[0] else s[1];
    assert t[|t| - 1].next == t[0];
  }

  /** s without its element at i. */
  function Without(s: seq<Node>, i: nat): seq<Node>
    requires i < |s|
  {
    s[..i] + s[i + 1..]
  }

  /** r is the node before `node` on the ring. */
  ghost predicate Precedes(s: seq<Node>, r: Node, node: Node) {
    exists i :: 0 <= i < |s| && s[i] == r && s[if i + 1 < |s| then i + 1 else 0] == node
  }

  class List {
    var last: Node?
    ghost var nodes: seq<Node>

    ghost predicate Valid()
      reads this, nodes
    {
      if nodes == [] then last == null else Ring(nodes) && last == nodes[|nodes| - 1]
    }

    constructor ()
      ensures Valid() && nodes == []
    {
      last := null;
      nodes := [];
    }

    method Rpush(node: Node)
      requires Valid() && node !in nodes
      modifies this, node, nodes
      ensures Valid() && nodes == old(nodes) + [node]
    {
      Insert(node);
      last := node;
      ghost var t := nodes;
      if |t| > 1 { RotateRing(t); }
      nodes := old(nodes) + [node];
      assert t[1..] + [t[0]] == nodes;
    }

    method Lpush(node: Node)
      requires Valid() && node !in nodes
      modifies this, node, nodes
      ensures Valid() && nodes == [node] + old(nodes)
    {
      Insert(node);
    }

    /** The common part of both: the node goes between the last and the first. */
    method Insert(node: Node)
      requires Valid() && node !in nodes
      modifies this, node, nodes
      ensures Valid() && nodes == [node] + old(nodes)
    {
      ghost var s := nodes;
      nodes := [node] + s;
      if last != null {
        node.next := last.next;
        last.next := node;
        forall i ensures Linked(nodes, i) {
          assert old(Linked(s, i - 1));
        }
      } else {
        node.next := node;
        last := node;
      }
    }

    method Lpop() returns (first: Node?)
      requires Valid()
      modifies this, nodes
      ensures Valid()
      ensures if old(nodes) == [] then first == null && nodes == [] else first == old(nodes)[0] && nodes == old(nodes)[1..]
    {
      ghost var s := nodes;
      if last == null {
        return null;
      }
      assert Linked(s, 0) && Linked(s, 1);
      first := last.next;
      nodes := s[1..];
      if last == first {
        last := null;
      } else {
        last.next := first.next;
        forall i ensures Linked(nodes, i) {
          assert old(Linked(s, i + 1));
        }
      }
    }

    method Lpoprpush()
      requires Valid()
      modifies this
      ensures Valid() && nodes == if old(nodes) == [] then [] else old(nodes)[1..] + [old(nodes)[0]]
    {
      if last != null {
        RotateRing(nodes);
        last := last.next;
        nodes := nodes[1..] + [nodes[0]];
      }
    }

    method Lpeek() returns (first: Node?)
      requires Valid()
      ensures first == At(nodes, 0)
    {
      if last != null {
        return last.next;
      }
      return null;
    }

    /** Turns the ring until its first node is the one that was last. */
    method TurnBack()
      requires Valid() && nodes != []
      modifies this
      ensures Valid() && nodes == Turned(old(nodes), |old(nodes)| - 1)
    {
      ghost var s, k := nodes, 0;
      var end := last;
      while last.next != end
        invariant Valid() && nodes != [] && 0 <= k < |s| && nodes == Turned(s, k) && Ring(s)
        decreases |s| - k
      {
        TurnedOnce(s, k);
        Lpoprpush();
        k := k + 1;
      }
      TurnedOnce(s, k);
    }

    /** Rotates until the last node is the first, and pops that. */
    method Rpop() returns (r: Node?)
      requires Valid()
      modifies this, nodes
      ensures Valid()
      ensures if old(nodes) == [] then r == null && nodes == []
              else r == old(nodes)[|old(nodes)| - 1] && nodes == old(nodes)[..|old(nodes)| - 1]
    {
      if last == null {
        return null;
      }
      ghost var s := nodes;
      TurnBack();
      assert nodes[0] == s[|s| - 1] && nodes[1..] == s[..|s| - 1];
      r := Lpop();
    }

    method FindBefore(node: Node) returns (r: Node?)
      requires Valid()
      ensures if node in nodes then r != null && Precedes(nodes, r, node) else r == null
    {
      var pos := last;
      if pos == null {
        return null;
      }
      ghost var i: int := -1;
      while true
        invariant -1 <= i < |nodes| && pos == nodes[if i < 0 then |nodes| - 1 else i] && (i >= 0 ==> pos != last)
        invariant forall j :: 0 <= j <= i ==> nodes[j].next != node
        decreases |nodes| - i
      {
        assert Linked(nodes, i) && Linked(nodes, i + 1);
        pos := pos.next;
        i := i + 1;
        if pos.next == node {
          return pos;
        }
        if pos == last {
          break;
        }
      }
      Missed(nodes, node);
      return null;
    }

    method Find(node: Node) returns (r: Node?)
      requires Valid()
      ensures r == if node in nodes then node else null
    {
      var tmp := FindBefore(node);
      if tmp != null {
        NextIs(nodes, tmp, node);
        return tmp.next;
      }
      return null;
    }

    method Remove(node: Node) returns (r: Node?)
      requires Valid()
      modifies this, nodes
      ensures Valid() && r == (if node in old(nodes) then node else null)
      ensures node !in old(nodes) ==> nodes == old(nodes)
      ensures node in old(nodes) ==> exists i :: 0 <= i < |old(nodes)| && old(nodes)[i] == node && nodes == Without(old(nodes), i)
    {
      if last != null {
        if last.next == node {
          assert nodes[0] == node && Without(nodes, 0) == nodes[1..];
          r := Lpop();
          return;
        }
        var tmp := FindBefore(node);
        if tmp != null {
          Unlink(tmp, node);
          return node;
        }
      }
      return null;
    }

    /** `tmp->next = tmp->next->next`, and the list ends at tmp if it ended at node. */
    method Unlink(tmp: Node, node: Node)
      requires Valid() && Precedes(nodes, tmp, node) && nodes[0] != node
      modifies this, tmp
      ensures Valid() && exists i :: 0 <= i < |old(nodes)| && old(nodes)[i] == node && nodes == Without(old(nodes), i)
    {
      ghost var s := nodes;
      ghost var i: int :| 0 <= i < |s| && s[i] == tmp && s[if i + 1 < |s| then i + 1 else 0] == node;
      assert Linked(s, i) && Linked(s, i + 1);
      tmp.next := tmp.next.next;
      nodes := Without(s, i + 1);
      if node == last {
        last := tmp;
      }
      forall j ensures Linked(nodes, j) {
        assert old(Linked(s, j)) && old(Linked(s, j + 1));
      }
      assert s[i + 1] == node && nodes == Without(s, i + 1);
    }

    method Count() returns (n: nat)
      requires Valid()
      ensures n == |nodes|
    {
      n := 0;
      var node := last;
      if node == null {
        return;
      }
      while true
        invariant n < |nodes| && node == nodes[if n == 0 then |nodes| - 1 else n - 1] && (n > 0 ==> node != last)
        decreases |nodes| - n
      {
        assert n > 0 ==> Linked(nodes, n - 1);
        node := node.next;
        n := n + 1;
        if node == last {
          break;
        }
      }
    }

    method Sort(cmp: (Node, Node) -> int)
      requires Valid()
      modifies this, nodes
      ensures Valid() && nodes == Passes(cmp, old(nodes), 1) && multiset(nodes) == multiset(old(nodes))
      ensures Orders(cmp, set x | x in old(nodes)) ==>
        Sorted(cmp, nodes) && forall x :: x in old(nodes) ==> Class(cmp, nodes, x) == Class(cmp, old(nodes), x)
    {
      PassesNodes(cmp, nodes, 1);
      if Orders(cmp, set x | x in nodes) { SortIsStable(cmp, nodes); }
      if last != null {
        last, nodes := SortRing(last.next, cmp, nodes);
      }
    }
  }

  function Turned(s: seq<Node>, k: nat): seq<Node>
    requires k <= |s|
  {
    s[k..] + s[..k]
  }

  lemma TurnedOnce(s: seq<Node>, k: nat)
    requires Ring(s) && k < |s|
    ensures var t := Turned(s, k); |t| == |s| && t[0] == s[k] && t[1..] + [t[0]] == Turned(s, k + 1)
    ensures s[k] == s[|s| - 1] ==> k == |s| - 1
  {
  }

  lemma Missed(s: seq<Node>, node: Node)
    requires Ring(s) && forall j :: 0 <= j < |s| ==> s[j].next != node
    ensures node !in s
  {
    forall i | 0 <= i < |s| ensures s[i] != node {
      assert Linked(s, i - 1);
    }
  }

  lemma NextIs(s: seq<Node>, r: Node, node: Node)
    requires Ring(s) && Precedes(s, r, node)
    ensures r.next == node
  {
    var i :| 0 <= i < |s| && s[i] == r && s[if i + 1 < |s| then i + 1 else 0] == node;
    assert Linked(s, i);
  }
}
