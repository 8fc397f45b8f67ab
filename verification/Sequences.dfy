/** Lists without repetition, and the sets of their elements. */
module Sequences {

  ghost predicate Distinct<T>(s: seq<T>) {
    forall i, j :: 0 <= i < j < |s| ==> s[i] != s[j]
  }

  function Elements<T>(s: seq<T>): set<T> {
    set x | x in s
  }

  lemma DistinctSnoc<T>(s: seq<T>, x: T)
    requires Distinct(s) && x !in s
    ensures Distinct(s + [x]) && forall y :: y in s + [x] <==> y in s || y == x
  {
  }

  /** The last element of a list without repetition is not among the others. */
  lemma DistinctLast<T>(s: seq<T>)
    requires Distinct(s) && |s| > 0
    ensures var init, z := s[..|s| - 1], s[|s| - 1];
      Distinct(init) && z !in Elements(init) && Elements(s) == Elements(init) + {z}
  {
    assert s == s[..|s| - 1] + [s[|s| - 1]];
  }

  lemma {:induction false} DistinctSize<T>(s: seq<T>)
    requires Distinct(s)
    ensures |Elements(s)| == |s|
  {
    if |s| > 0 {
      DistinctSize(s[..|s| - 1]);
      DistinctLast(s);
    }
  }

  lemma SubsetSize<T>(a: set<T>, b: set<T>)
    requires a <= b
    ensures |a| <= |b|
    ensures |a| == |b| ==> a == b
  {
    assert b == a + (b - a) && |b| == |a| + |b - a|;
  }

  lemma Contained<T>(a: seq<T>, b: seq<T>)
    requires forall i :: 0 <= i < |a| ==> a[i] in b
    ensures Elements(a) * Elements(b) == Elements(a)
  {
  }

  lemma Singleton<T>(s: set<T>, x: T)
    requires x in s && forall y :: y in s ==> y == x
    ensures |s| == 1
  {
    assert s == {x};
  }
}
