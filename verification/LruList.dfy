/**
 The doubly linked list of file names in webserver/server_thread.c, most recently
 used first. The cache does not call it; here it stands on its own.
 */
module LruList {
  import opened Seqs

  class LruEntry {
    var fileName: string
    var previous: LruEntry?
    var next: LruEntry?

    constructor (name: string)
      ensures fileName == name && previous == null && next == null
    {
      fileName := name;
      previous := null;
      next := null;
    }
  }

  class LruQueue {
    var head: LruEntry?
    var tail: LruEntry?
    ghost var nodes: seq<LruEntry>
    ghost var names: seq<string>
    ghost var Repr: set<object>

    /** The links, flag and name of the i-th entry. */
    ghost predicate Link(i: int)
      requires 0 <= i < |nodes| == |names|
      reads this, nodes
    {
      && nodes[i].fileName == names[i]
      && nodes[i].previous == (if i == 0 then null else nodes[i - 1])
      && nodes[i].next == (if i + 1 == |nodes| then null else nodes[i + 1])
    }

    ghost predicate Valid()
      reads this, Repr
    {
      && this in Repr
      && (forall n :: n in nodes ==> n in Repr)
      && |nodes| == |names|
      && NoDup(nodes)
      && head == (if nodes == [] then null else nodes[0])
      && tail == (if nodes == [] then null else nodes[|nodes| - 1])
      && forall i :: 0 <= i < |nodes| ==> Link(i)
    }

    constructor ()
      ensures Valid() && fresh(Repr) && names == []
    {
      head := null;
      tail := null;
      nodes := [];
      names := [];
      Repr := {this};
    }

    /** Unlinks the first entry of that name and hands it over with its old links. */
    method PopSpecified(name: string) returns (popped: LruEntry?)
      requires Valid()
      modifies Repr
      ensures Valid() && Repr == old(Repr)
      ensures names == Remove(old(names), name)
      ensures popped == null <==> name !in old(names)
      ensures popped != null ==> popped in Repr && popped !in nodes && popped.fileName == name
    {
      var current := head;
      ghost var i := 0;
      while current != null
        invariant 0 <= i <= |nodes|
        invariant current == if i == |nodes| then null else nodes[i]
        invariant forall j :: 0 <= j < i ==> names[j] != name
        decreases |nodes| - i
      {
        assert Link(i);
        if current.fileName == name {
          CutIsRemove(names, name);
          Unlink(current, i);
          return current;
        }
        current := current.next;
        i := i + 1;
      }
      RemoveAbsent(names, name);
      return null;
    }

    /** Joins the neighbours of the entry at position i. */
    method Unlink(entry: LruEntry, ghost i: nat)
      requires Valid() && i < |nodes| && entry == nodes[i]
      modifies Repr
      ensures Valid() && Repr == old(Repr)
      ensures nodes == Cut(old(nodes), i) && names == Cut(old(names), i)
      ensures entry !in nodes && entry.fileName == old(entry.fileName)
    {
      assert Link(i);
      ghost var was := nodes;
      Join(entry.previous, entry.next);
      CutNoDup(was, i);
      nodes := Cut(was, i);
      names := Cut(names, i);
      forall j | 0 <= j < i ensures Link(j) {
        assert old(Link(j)) && nodes[j] == was[j];
      }
      forall j | i <= j < |nodes| ensures Link(j) {
        assert old(Link(j + 1)) && nodes[j] == was[j + 1];
      }
    }

    /** Makes two entries neighbours; null stands for the end of the list. */
    method Join(before: LruEntry?, after: LruEntry?)
      requires before != null ==> before != after
      modifies this`head, this`tail, before, after
      ensures before == null ==> head == after
      ensures before != null ==> before.next == after && before.previous == old(before.previous)
      ensures before != null ==> before.fileName == old(before.fileName) && head == old(head)
      ensures after == null ==> tail == before
      ensures after != null ==> after.previous == before && after.next == old(after.next)
      ensures after != null ==> after.fileName == old(after.fileName) && tail == old(tail)
    {
      if before == null {
        head := after;
      } else {
        before.next := after;
      }
      if after == null {
        tail := before;
      } else {
        after.previous := before;
      }
    }

    /** Links the entry in front of all others. */
    method LinkAtHead(entry: LruEntry)
      requires Valid() && entry !in nodes
      modifies Repr, entry
      ensures Valid() && Repr == old(Repr) + {entry}
      ensures nodes == [entry] + old(nodes) && names == [old(entry.fileName)] + old(names)
    {
      assert nodes != [] ==> Link(0);
      if head == null || tail == null {
        head := entry;
        tail := entry;
        entry.previous := null;
        entry.next := null;
      } else {
        entry.previous := null;
        head.previous := entry;
        entry.next := head;
        head := entry;
      }
      ghost var name := entry.fileName;
      nodes := [entry] + nodes;
      names := [name] + names;
      Repr := Repr + {entry};
      forall j | 0 <= j < |nodes| ensures Link(j) {
        assert j > 0 ==> old(Link(j - 1));
      }
    }

    method EnqueueHead(name: string)
      requires Valid()
      modifies Repr
      ensures Valid() && fresh(Repr - old(Repr))
      ensures names == Apply(old(names), Enqueue(name))
    {
      var entry := new LruEntry(name);
      LinkAtHead(entry);
    }

    /** The least recently used name leaves; an empty list stays empty. */
    method DequeueTail()
      requires Valid()
      modifies Repr
      ensures Valid() && Repr == old(Repr)
      ensures names == Apply(old(names), Dequeue)
    {
      var currentTail := tail;
      if currentTail == null {
        return;
      }
      ghost var last := |nodes| - 1;
      assert Link(last);
      assert last > 0 ==> Link(last - 1);
      if currentTail.previous == null {
        head := null;
        tail := null;
      } else {
        currentTail.previous.next := null;
        tail := currentTail.previous;
      }
      nodes := nodes[..last];
      names := names[..last];
      forall j | 0 <= j < |nodes| ensures Link(j) {
        assert old(Link(j));
      }
    }

    /** The program follows a null pointer when the name is absent, so it must be present. */
    method BringUp(name: string)
      requires Valid() && name in names
      modifies Repr
      ensures Valid() && Repr == old(Repr)
      ensures names == Apply(old(names), Touch(name))
    {
      var entry := PopSpecified(name);
      LinkAtHead(entry);
    }
  }

  // ---- recency ---------------------------------------------------------------

  datatype Op = Enqueue(name: string) | Touch(name: string) | Pop(name: string) | Dequeue

  /** What each operation does to the list of names. */
  function Apply(names: seq<string>, op: Op): seq<string> {
    match op
    case Enqueue(name) => [name] + names
    case Touch(name) => [name] + Remove(names, name)
    case Pop(name) => Remove(names, name)
    case Dequeue => if names == [] then [] else names[..|names| - 1]
  }

  /** A file is enqueued when it is not listed yet and touched when it is. */
  predicate Sensible(names: seq<string>, op: Op) {
    match op
    case Enqueue(name) => name !in names
    case Touch(name) => name in names
    case _ => true
  }

  function Names(ops: seq<Op>): seq<string> {
    if ops == [] then [] else Apply(Names(ops[..|ops| - 1]), ops[|ops| - 1])
  }

  predicate IsRun(ops: seq<Op>) {
    ops == [] || (IsRun(ops[..|ops| - 1]) && Sensible(Names(ops[..|ops| - 1]), ops[|ops| - 1]))
  }

  predicate Uses(op: Op, name: string) {
    op == Enqueue(name) || op == Touch(name)
  }

  /** When the name was last enqueued or touched; -1 if never. */
  function LastUse(ops: seq<Op>, name: string): (t: int)
    ensures -1 <= t < |ops|
    ensures t >= 0 ==> Uses(ops[t], name)
    ensures forall i :: t < i < |ops| ==> !Uses(ops[i], name)
  {
    if ops == [] then -1
    else if Uses(ops[|ops| - 1], name) then |ops| - 1
    else LastUse(ops[..|ops| - 1], name)
  }

  /** Earlier in the list means used later. */
  ghost predicate ByRecency(ops: seq<Op>, names: seq<string>) {
    && (forall i :: 0 <= i < |names| ==> LastUse(ops, names[i]) >= 0)
    && forall i, j :: 0 <= i < j < |names| ==> LastUse(ops, names[i]) > LastUse(ops, names[j])
  }

  /** Leaving out a name keeps the order of the others. */
  lemma RemoveKeepsOrder(ops: seq<Op>, names: seq<string>, name: string)
    requires ByRecency(ops, names)
    ensures ByRecency(ops, Remove(names, name))
  {
    if name in names {
      CutIsRemove(names, name);
    } else {
      RemoveAbsent(names, name);
    }
  }

  /** A use puts the name in front of names that were all used before. */
  lemma UsedGoesFirst(ops: seq<Op>, names: seq<string>, name: string)
    requires ops != [] && Uses(ops[|ops| - 1], name)
    requires NoDup(names) && name !in names && ByRecency(ops[..|ops| - 1], names)
    ensures NoDup([name] + names) && ByRecency(ops, [name] + names)
  {
    OthersKeepTheirUse(ops, names);
  }

  /** Over any run the names are distinct and ordered by most recent use. */
  lemma {:induction false} OrderedByRecency(ops: seq<Op>)
    requires IsRun(ops)
    ensures NoDup(Names(ops)) && ByRecency(ops, Names(ops))
  {
    if ops != [] {
      var before, op := ops[..|ops| - 1], ops[|ops| - 1];
      var names := Names(before);
      OrderedByRecency(before);
      match op
      case Enqueue(name) =>
        UsedGoesFirst(ops, names, name);
      case Touch(name) =>
        RemoveKeepsOrder(before, names, name);
        RemoveFacts(names, name);
        UsedGoesFirst(ops, Remove(names, name), name);
      case Pop(name) =>
        RemoveKeepsOrder(before, names, name);
        RemoveFacts(names, name);
        OthersKeepTheirUse(ops, Remove(names, name));
      case Dequeue =>
        OthersKeepTheirUse(ops, Names(ops));
    }
  }

  lemma OthersKeepTheirUse(ops: seq<Op>, names: seq<string>)
    requires ops != [] && ByRecency(ops[..|ops| - 1], names)
    requires forall i :: 0 <= i < |names| ==> !Uses(ops[|ops| - 1], names[i])
    ensures ByRecency(ops, names)
  {
  }

  /** lru_dequeue_tail removes the one listed name whose last use is oldest. */
  lemma DequeueRemovesLeastRecent(ops: seq<Op>, name: string)
    requires IsRun(ops) && name in Names(ops)
    ensures var kept := Apply(Names(ops), Dequeue);
            name !in kept <==> forall other :: other in Names(ops) ==> LastUse(ops, name) <= LastUse(ops, other)
  {
    OrderedByRecency(ops);
    var names := Names(ops);
    var last := names[|names| - 1];
    assert names == names[..|names| - 1] + [last];
    assert LastUse(ops, last) <= LastUse(ops, name);
  }
}
