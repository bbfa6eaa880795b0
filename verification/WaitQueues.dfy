/**
 The linked queues of thread.c and the interrupt flag they switch off while
 they change.
 */
module WaitQueues {
  import opened Seqs
  import opened ThreadKernel

  /** The process signal mask, as interrupts_set sees it. */
  class Interrupts {
    var enabled: bool

    constructor ()
      ensures enabled
    {
      enabled := true;
    }

    method Set(on: bool) returns (was: bool)
      modifies this
      ensures was == old(enabled) && enabled == on
    {
      was := enabled;
      enabled := on;
    }
  }

  class Node {
    var tnumber: Tid
    var next: Node?

    constructor (tnumber: Tid)
      ensures this.tnumber == tnumber && next == null
    {
      this.tnumber := tnumber;
      next := null;
    }
  }

  class WaitQueue {
    var head: Node?
    var tail: Node?
    ghost var nodes: seq<Node>
    ghost var elems: seq<Tid>
    ghost var Repr: set<object>

    ghost function NodeAt(ns: seq<Node>, i: nat): Node? {
      if i < |ns| then ns[i] else null
    }

    /** Node i holds its element and is followed by node i + 1. */
    ghost predicate Link(i: nat)
      requires i < |nodes| == |elems|
      reads this, nodes
    {
      nodes[i].tnumber == elems[i] && nodes[i].next == NodeAt(nodes, i + 1)
    }

    /** Following next from head visits the nodes once each and ends at tail. */
    ghost predicate Valid()
      reads this, Repr
    {
      && this in Repr
      && (forall n :: n in nodes ==> n in Repr)
      && |nodes| == |elems|
      && NoDup(nodes)
      && (nodes == [] ==> head == null && tail == null)
      && (nodes != [] ==> head == nodes[0] && tail == nodes[|nodes| - 1])
      && forall i :: 0 <= i < |nodes| ==> Link(i)
    }

    constructor ()
      ensures Valid() && fresh(Repr) && elems == []
    {
      head := null;
      tail := null;
      nodes := [];
      elems := [];
      Repr := {this};
    }

    method Enqueue(id: Tid, irq: Interrupts)
      requires Valid() && irq !in Repr
      modifies Repr, irq
      ensures Valid() && fresh(Repr - old(Repr))
      ensures elems == old(elems) + [id]
      ensures irq.enabled == old(irq.enabled)
    {
      var enabled := irq.Set(false);
      var newNode := new Node(id);
      AppendNode(newNode, irq);
      var _ := irq.Set(enabled);
    }

    /** The links change only while interrupts are off. */
    method AppendNode(newNode: Node, ghost irq: Interrupts)
      requires !irq.enabled
      requires Valid() && newNode !in nodes && newNode.next == null
      modifies this, nodes
      ensures Valid() && Repr == old(Repr) + {newNode}
      ensures elems == old(elems) + [newNode.tnumber] && newNode.tnumber == old(newNode.tnumber)
    {
      ghost var n := |nodes|;
      assert n > 0 ==> Link(n - 1);
      if head == null {
        head := newNode;
        tail := newNode;
      } else {
        tail.next := newNode;
        tail := newNode;
      }
      nodes := nodes + [newNode];
      elems := elems + [newNode.tnumber];
      Repr := Repr + {newNode};
      forall i | 0 <= i < |nodes| ensures Link(i) {
        assert i < n ==> old(Link(i));
      }
    }

    /** Removes the first node of thread id; on an interior hit the flag stays off. */
    method DequeueElement(id: Tid, irq: Interrupts) returns (found: Tid)
      requires Valid() && irq !in Repr
      modifies Repr, irq
      ensures Valid() && Repr == old(Repr)
      ensures elems == Remove(old(elems), id)
      ensures found == if id in old(elems) then id else THREAD_INVALID
      ensures irq.enabled ==
              (old(irq.enabled) && !(id in old(elems) && old(elems)[0] != id))
    {
      var enabled := irq.Set(false);
      if head == null {
        var _ := irq.Set(enabled);
        return THREAD_INVALID;
      }
      assert Link(0);
      if head.tnumber == id {
        UnlinkHead(irq);
        var _ := irq.Set(enabled);
        return id;
      }
      var before, ptr, i := FindAfterHead(id);
      if ptr != null {
        Unlink(before, ptr, i, irq);
        return id;
      }
      var _ := irq.Set(enabled);
      return THREAD_INVALID;
    }

    /** The search loop: ptr is the first node of id, or null, and before precedes it. */
    method FindAfterHead(id: Tid) returns (before: Node, ptr: Node?, ghost i: nat)
      requires Valid() && nodes != [] && elems[0] != id
      ensures ptr == null <==> id !in elems
      ensures ptr == null ==> Remove(elems, id) == elems
      ensures ptr != null ==> 1 <= i < |nodes| && before == nodes[i - 1] && ptr == nodes[i]
      ensures ptr != null ==> Remove(elems, id) == Cut(elems, i)
    {
      if id in elems {
        CutIsRemove(elems, id);
      } else {
        RemoveAbsent(elems, id);
      }
      before := head;
      ptr := head.next;
      i := 1;
      assert Link(0);
      while ptr != null && ptr.tnumber != id
        invariant 1 <= i <= |nodes|
        invariant before == nodes[i - 1] && ptr == NodeAt(nodes, i)
        invariant forall j :: 0 <= j < i ==> elems[j] != id
        decreases |nodes| - i
      {
        assert Link(i);
        before := ptr;
        ptr := ptr.next;
        i := i + 1;
      }
      assert i < |nodes| ==> Link(i);
    }

    /** Cuts the first node out of the list. */
    method UnlinkHead(ghost irq: Interrupts)
      requires !irq.enabled
      requires Valid() && nodes != []
      modifies this
      ensures Valid() && Repr == old(Repr)
      ensures nodes == old(nodes[1..]) && elems == old(elems[1..])
    {
      assert Link(0);
      head := head.next;
      if head == null {
        tail := null;
      }
      nodes := nodes[1..];
      elems := elems[1..];
      forall i | 0 <= i < |nodes| ensures Link(i) {
        assert old(Link(i + 1));
      }
    }

    /** Cuts the interior node at position i out of the list. */
    method Unlink(before: Node, ptr: Node, ghost i: nat, ghost irq: Interrupts)
      requires !irq.enabled
      requires Valid() && 1 <= i < |nodes| && before == nodes[i - 1] && ptr == nodes[i]
      modifies this, before
      ensures Valid() && Repr == old(Repr)
      ensures nodes == Cut(old(nodes), i) && elems == Cut(old(elems), i)
    {
      assert Link(i - 1) && Link(i);
      before.next := ptr.next;
      if ptr == tail {
        tail := before;
      }
      CutNoDup(nodes, i);
      nodes := Cut(nodes, i);
      elems := Cut(elems, i);
      forall j | 0 <= j < |nodes| ensures Link(j) {
        assert old(Link(if j < i then j else j + 1));
      }
    }

    method DequeueHead(irq: Interrupts) returns (id: Tid)
      requires Valid() && irq !in Repr
      modifies this, irq
      ensures Valid() && Repr == old(Repr)
      ensures elems == if old(elems) == [] then [] else old(elems)[1..]
      ensures id == if old(elems) == [] then THREAD_NONE else old(elems)[0]
      ensures irq.enabled == old(irq.enabled)
    {
      var enabled := irq.Set(false);
      if head == null {
        var _ := irq.Set(enabled);
        return THREAD_NONE;
      }
      assert Link(0);
      id := head.tnumber;
      UnlinkHead(irq);
      var _ := irq.Set(enabled);
    }
  }
}
