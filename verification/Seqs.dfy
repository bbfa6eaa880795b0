/** Facts about sequences without repetition, used for every queue of the models. */
module Seqs {

  ghost predicate NoDup<T>(s: seq<T>) {
    forall i, j :: 0 <= i < j < |s| ==> s[i] != s[j]
  }

  /** Removes the first occurrence of x; the sequence itself when there is none. */
  function Remove<T(==)>(s: seq<T>, x: T): seq<T> {
    if s == [] then []
    else if s[0] == x then s[1..]
    else [s[0]] + Remove(s[1..], x)
  }

  /** Position of the first occurrence of x, or |s|. */
  function IndexOf<T(==)>(s: seq<T>, x: T): (i: nat)
    ensures i <= |s|
    ensures i < |s| ==> s[i] == x
    ensures forall j :: 0 <= j < i ==> s[j] != x
  {
    if s == [] || s[0] == x then 0 else 1 + IndexOf(s[1..], x)
  }

  lemma {:induction false} RemoveSplits<T>(s: seq<T>, x: T)
    ensures Remove(s, x) == var i := IndexOf(s, x);
                            if i == |s| then s else s[..i] + s[i + 1..]
  {
    if s != [] && s[0] != x {
      RemoveSplits(s[1..], x);
      var i := IndexOf(s, x);
      if i < |s| {
        assert s[..i] == [s[0]] + s[1..][..i - 1];
        assert s[i + 1..] == s[1..][i..];
      } else {
        assert s == [s[0]] + s[1..];
      }
    }
  }

  /** The sequence without its element i. */
  ghost function Cut<T>(s: seq<T>, i: nat): (r: seq<T>)
    requires i < |s|
    ensures |r| == |s| - 1
    ensures forall j :: 0 <= j < |r| ==> r[j] == s[if j < i then j else j + 1]
  {
    if i == 0 then s[1..] else [s[0]] + Cut(s[1..], i - 1)
  }

  lemma CutNoDup<T>(s: seq<T>, i: nat)
    requires NoDup(s) && i < |s|
    ensures NoDup(Cut(s, i))
  {
  }

  lemma {:induction false} CutIsRemove<T>(s: seq<T>, x: T)
    requires x in s
    ensures IndexOf(s, x) < |s| && Cut(s, IndexOf(s, x)) == Remove(s, x)
  {
    if s[0] != x {
      assert x in s[1..];
      CutIsRemove(s[1..], x);
    }
  }

  lemma {:induction false} RemoveFacts<T>(s: seq<T>, x: T)
    requires NoDup(s)
    ensures NoDup(Remove(s, x))
    ensures forall y :: y in Remove(s, x) <==> y in s && y != x
    ensures |Remove(s, x)| == if x in s then |s| - 1 else |s|
  {
    if s != [] {
      var rest := s[1..];
      assert s == [s[0]] + rest;
      assert forall y :: y in s <==> y == s[0] || y in rest;
      if s[0] != x {
        RemoveFacts(rest, x);
        var r := Remove(rest, x);
        assert forall i :: 0 <= i < |r| ==> r[i] in r;
      }
    }
  }

  lemma RemoveAbsent<T>(s: seq<T>, x: T)
    ensures x !in s ==> Remove(s, x) == s
  {
    RemoveSplits(s, x);
  }

  lemma AppendFacts<T>(s: seq<T>, x: T)
    requires NoDup(s) && x !in s
    ensures NoDup(s + [x])
    ensures forall y :: y in s + [x] <==> y in s || y == x
  {
  }

  lemma TailFacts<T>(s: seq<T>)
    requires NoDup(s) && s != []
    ensures NoDup(s[1..])
    ensures forall y :: y in s[1..] <==> y in s && y != s[0]
    ensures s[1..] == Remove(s, s[0])
  {
    RemoveFacts(s, s[0]);
  }
}
