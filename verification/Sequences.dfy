/** Facts about sequences without repetitions. */
module Sequences {
  ghost predicate Distinct<T>(s: seq<T>) {
    forall i, j :: 0 <= i < j < |s| ==> s[i] != s[j]
  }

  ghost predicate Extends<T>(s: seq<T>, longer: seq<T>) {
    |s| <= |longer| && s == longer[..|s|]
  }

  ghost function Elements<T>(s: seq<T>): set<T> {
    set x | x in s
  }

  lemma LogExtendsItself<T>(s: seq<T>)
    ensures Extends(s, s)
  {
  }

  lemma TakeNext<T(!new)>(s: seq<T>, k: nat)
    requires k < |s| && Distinct(s)
    ensures s[..k + 1] == s[..k] + [s[k]] && s[k] in s && s[k] !in s[..k]
    ensures forall x :: x in s[..k + 1] <==> x in s[..k] || x == s[k]
  {
  }

  lemma {:induction false} DistinctCount<T>(s: seq<T>)
    requires Distinct(s)
    ensures |Elements(s)| == |s|
  {
    if s != [] {
      var rest, last := s[..|s| - 1], s[|s| - 1];
      assert Distinct(rest) && last !in rest;
      hide Distinct;
      DistinctCount(rest);
      assert s == rest + [last];
      assert Elements(s) == Elements(rest) + {last};
    }
  }

  lemma SubsetOfSameSize<T>(a: set<T>, b: set<T>)
    requires a <= b && |a| == |b|
    ensures a == b
  {
    assert b == a + (b - a);
  }
}
