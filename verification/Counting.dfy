/** Sequences of distinct small numbers: agent ids, reviewer ids. */
module Counting {

  ghost predicate Distinct(s: seq<nat>) {
    forall k, l | 0 <= k < l < |s| :: s[k] != s[l]
  }

  function Below(n: nat): (all: set<nat>)
    ensures forall j: nat :: j in all <==> j < n
    ensures |all| == n
  {
    if n == 0 then {} else Below(n - 1) + {n - 1}
  }

  lemma Subset(a: set<nat>, b: set<nat>)
    requires a <= b
    ensures |a| <= |b| && (|a| == |b| ==> a == b)
  {
    assert b == a + (b - a);
  }

  function Elements(s: seq<nat>): (all: set<nat>)
    ensures forall x :: x in all <==> x in s
  {
    set x | x in s
  }

  lemma {:induction false} ElementsSize(s: seq<nat>)
    requires Distinct(s)
    ensures |Elements(s)| == |s|
  {
    if s != [] {
      var front, last := s[..|s| - 1], s[|s| - 1];
      ElementsSize(front);
      assert s == front + [last];
      assert last !in front;
      assert Elements(s) == Elements(front) + {last};
    }
  }

  /** Distinct numbers below n are at most n, and n of them are all of them. */
  lemma Pigeonhole(s: seq<nat>, n: nat)
    requires Distinct(s) && forall k | 0 <= k < |s| :: s[k] < n
    ensures |s| <= n
    ensures |s| == n <==> forall j | 0 <= j < n :: j in s
  {
    ElementsSize(s);
    Subset(Elements(s), Below(n));
    if |s| == n {
      forall j | 0 <= j < n ensures j in s {
        assert j in Elements(s);
      }
    }
    if forall j | 0 <= j < n :: j in s {
      assert Elements(s) == Below(n);
    }
  }
}
