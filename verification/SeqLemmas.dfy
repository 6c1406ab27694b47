/** Facts about sequences without repetition, used to count parties and streams. */
module SeqLemmas {

  ghost predicate Distinct<T>(s: seq<T>) {
    forall i, j :: 0 <= i < j < |s| ==> s[i] != s[j]
  }

  ghost function ToSet<T>(s: seq<T>): set<T> {
    set x | x in s
  }

  /** A sequence has at most as many values as positions, and as many exactly when none repeats. */
  lemma {:induction false} DistinctCount<T>(s: seq<T>)
    ensures |ToSet(s)| <= |s|
    ensures |ToSet(s)| == |s| <==> Distinct(s)
  {
    if s == [] {
    } else {
      var last := |s| - 1;
      var front := s[..last];
      DistinctCount(front);
      assert s == front + [s[last]];
      assert ToSet(s) == ToSet(front) + {s[last]};
      if s[last] in front {
        var k :| 0 <= k < |front| && front[k] == s[last];
        assert ToSet(s) == ToSet(front);
        assert s[k] == s[last] && k < last;
        assert !Distinct(s);
      } else {
        assert |ToSet(s)| == |ToSet(front)| + 1;
        assert Distinct(front) ==> Distinct(s);
        assert Distinct(s) ==> Distinct(front);
      }
    }
  }

  lemma DistinctCons<T>(x: T, s: seq<T>)
    ensures Distinct([x] + s) <==> Distinct(s) && x !in s
  {
    var xs := [x] + s;
    if Distinct(xs) {
      forall i, j | 0 <= i < j < |s| ensures s[i] != s[j] {
        assert xs[i + 1] != xs[j + 1];
      }
      forall j | 0 <= j < |s| ensures s[j] != x {
        assert xs[0] != xs[j + 1];
      }
    }
  }

  /** A subset of a finite set with the same cardinality is the whole set. */
  lemma SubsetSameCard<T>(a: set<T>, b: set<T>)
    requires a <= b && |a| >= |b|
    ensures a == b
  {
    assert b == a + (b - a);
    assert |b| == |a| + |b - a|;
  }

  /** A subset has no more elements than the set. */
  lemma SubsetCard<T>(a: set<T>, b: set<T>)
    requires a <= b
    ensures |a| <= |b|
  {
    assert b == a + (b - a);
  }

  /** The positions of a sequence of length n. */
  ghost function Below(n: nat): (b: set<nat>)
    ensures forall i: nat :: i in b <==> i < n
    ensures |b| == n
  {
    if n == 0 then {} else Below(n - 1) + {n - 1}
  }

  /** The sequence of the values of a function. */
  function Each<A, B>(f: A -> B, s: seq<A>): (r: seq<B>)
    ensures |r| == |s| && forall k :: 0 <= k < |s| ==> r[k] == f(s[k])
  {
    seq(|s|, k requires 0 <= k < |s| => f(s[k]))
  }
}
