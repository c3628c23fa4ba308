/** Sequences without repetitions: the order in which a linked list visits its nodes. */
module Sequences {
  ghost predicate NoRepeats<T>(s: seq<T>) {
    forall i, j :: 0 <= i < j < |s| ==> s[i] != s[j]
  }

  lemma PlaceOf<T>(s: seq<T>, x: T) returns (k: nat)
    requires x in s
    ensures k < |s| && s[k] == x
  {
    k :| 0 <= k < |s| && s[k] == x;
  }

  /** `s` without what stands at place `k`. */
  ghost function Cut<T>(s: seq<T>, k: nat): (r: seq<T>)
    requires k < |s|
    ensures |r| == |s| - 1
    ensures forall i :: 0 <= i < k ==> r[i] == s[i]
    ensures forall i :: k <= i < |r| ==> r[i] == s[i + 1]
  {
    s[..k] + s[k + 1..]
  }

  lemma CutMembers<T>(s: seq<T>, k: nat)
    requires k < |s| && NoRepeats(s)
    ensures forall x :: x in Cut(s, k) ==> x in s && x != s[k]
    ensures forall x :: x in s && x != s[k] ==> x in Cut(s, k)
  {
    forall x | x in s && x != s[k] ensures x in Cut(s, k) {
      var i := PlaceOf(s, x);
      assert Cut(s, k)[if i < k then i else i - 1] == x;
    }
  }

  /** `s` read around from place `k`. */
  ghost function Turned<T>(s: seq<T>, k: nat): (r: seq<T>)
    requires k < |s|
    ensures |r| == |s|
    ensures forall i :: 0 <= i < |s| ==> r[i] == s[if i + k < |s| then i + k else i + k - |s|]
  {
    s[k..] + s[..k]
  }

  lemma TurnedMembers<T>(s: seq<T>, k: nat)
    requires k < |s|
    ensures forall x :: x in Turned(s, k) <==> x in s
  {
    assert s == s[..k] + s[k..];
  }

  /** `s` without `x`, if it is there. */
  ghost function Minus<T>(s: seq<T>, x: T): seq<T> {
    if x in s then var k :| 0 <= k < |s| && s[k] == x; Cut(s, k) else s
  }

  lemma MinusAt<T>(s: seq<T>, x: T, k: nat)
    requires NoRepeats(s) && k < |s| && s[k] == x
    ensures Minus(s, x) == Cut(s, k)
  {
  }

  function Reverse<T>(s: seq<T>): (r: seq<T>)
    ensures |r| == |s|
  {
    if s == [] then [] else Reverse(s[1..]) + [s[0]]
  }

  lemma {:induction false} InReverse<T>(s: seq<T>, x: T)
    requires x in Reverse(s)
    ensures x in s
  {
    if x != s[0] { InReverse(s[1..], x); }
  }

  /** A sequence without repetitions is as long as the set of its members is large. */
  lemma {:induction false} SizeOf<T>(s: seq<T>, m: set<T>)
    requires NoRepeats(s) && forall x :: x in s <==> x in m
    ensures |s| == |m|
  {
    if s != [] {
      var rest := s[1..];
      assert forall x :: x in s <==> x == s[0] || x in rest;
      SizeOf(rest, m - {s[0]});
    } else {
      assert m == {};
    }
  }
}
