/** Sums of weights over a sequence. */
module Tallies {

  function Tally<T>(s: seq<T>, weight: T -> int): int {
    if s == [] then 0 else weight(s[0]) + Tally(s[1..], weight)
  }

  lemma {:induction false} TallyUpdate<T>(s: seq<T>, weight: T -> int, i: nat, x: T)
    requires i < |s|
    ensures Tally(s[i := x], weight) == Tally(s, weight) - weight(s[i]) + weight(x)
  {
    if i == 0 {
      assert s[0 := x][1..] == s[1..];
    } else {
      assert s[i := x][1..] == s[1..][i - 1 := x];
      TallyUpdate(s[1..], weight, i - 1, x);
    }
  }

  lemma {:induction false} TallyZero<T>(s: seq<T>, weight: T -> int)
    requires forall i :: 0 <= i < |s| ==> weight(s[i]) == 0
    ensures Tally(s, weight) == 0
  {
    if s != [] {
      TallyZero(s[1..], weight);
    }
  }

  lemma {:induction false} TallyBounds<T>(s: seq<T>, weight: T -> int, most: nat)
    requires forall i :: 0 <= i < |s| ==> 0 <= weight(s[i]) <= most
    ensures 0 <= Tally(s, weight) <= most * |s|
  {
    if s != [] {
      TallyBounds(s[1..], weight, most);
    }
  }
}
