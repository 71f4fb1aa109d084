/**
 Order-preserving operations on sequences: the `Array.prototype.filter`
 and `map` that the server and the pages use, and the subsequence relation
 that states what a filter keeps.
 */
module Seqs {
  import opened Wrappers

  /** `a` can be obtained from `b` by deleting elements, keeping order. */
  predicate IsSubsequence<T(==)>(a: seq<T>, b: seq<T>)
    decreases |b|
  {
    if |a| == 0 then true
    else if |b| == 0 then false
    else if a[0] == b[0] then IsSubsequence(a[1..], b[1..])
    else IsSubsequence(a, b[1..])
  }

  /** `xs.filter(p)` */
  function Filter<T(==)>(xs: seq<T>, p: T -> bool): (r: seq<T>)
    ensures |r| <= |xs|
    ensures forall i :: 0 <= i < |r| ==> p(r[i]) && r[i] in xs
    ensures forall i :: 0 <= i < |xs| && p(xs[i]) ==> xs[i] in r
    ensures IsSubsequence(r, xs)
    decreases |xs|
  {
    if |xs| == 0 then []
    else if p(xs[0]) then [xs[0]] + Filter(xs[1..], p)
    else Filter(xs[1..], p)
  }

  /**
   A filter keeps every copy of an element that satisfies the predicate and
   no copy of one that does not.
   */
  lemma {:induction false} FilterMultiplicity<T>(xs: seq<T>, p: T -> bool)
    ensures forall x :: multiset(Filter(xs, p))[x] == if p(x) then multiset(xs)[x] else 0
    decreases |xs|
  {
    if |xs| > 0 {
      FilterMultiplicity(xs[1..], p);
      assert xs == [xs[0]] + xs[1..];
      assert multiset(xs) == multiset{xs[0]} + multiset(xs[1..]);
      if p(xs[0]) {
        assert multiset(Filter(xs, p)) == multiset{xs[0]} + multiset(Filter(xs[1..], p));
      }
    }
  }

  /** The positions of `xs` whose element satisfies `p`. */
  function Satisfying<T>(xs: seq<T>, p: T -> bool): set<int> {
    set i | 0 <= i < |xs| && p(xs[i])
  }

  /** `xs.filter(p).length` */
  function Count<T(==)>(xs: seq<T>, p: T -> bool): (n: nat)
    ensures n <= |xs|
    ensures n == |xs| <==> forall i :: 0 <= i < |xs| ==> p(xs[i])
    ensures n == |Satisfying(xs, p)|
  {
    CountAllLemma(xs, p);
    CountIndices(xs, p, 0);
    assert xs[0..] == xs;
    |Filter(xs, p)|
  }

  /** The filter of a suffix has one element per index of the suffix that satisfies `p`. */
  lemma {:induction false} CountIndices<T>(xs: seq<T>, p: T -> bool, k: nat)
    requires k <= |xs|
    ensures |Filter(xs[k..], p)| == |set i | k <= i < |xs| && p(xs[i])|
    decreases |xs| - k
  {
    if k < |xs| {
      CountIndices(xs, p, k + 1);
      IndexSetStep(xs, p, k);
      var tail := xs[k..];
      assert tail[0] == xs[k] && tail[1..] == xs[k + 1..];
    }
  }

  /** Position `k` adds one to the count of satisfying positions from `k` on exactly when it satisfies `p`. */
  lemma IndexSetStep<T>(xs: seq<T>, p: T -> bool, k: nat)
    requires k < |xs|
    ensures |set i | k <= i < |xs| && p(xs[i])| == (if p(xs[k]) then 1 else 0) + |set i | k + 1 <= i < |xs| && p(xs[i])|
  {
    var here := set i | k <= i < |xs| && p(xs[i]);
    var later := set i | k + 1 <= i < |xs| && p(xs[i]);
    if p(xs[k]) {
      assert here == {k} + later;
    } else {
      assert here == later;
    }
  }

  lemma {:induction false} CountAllLemma<T>(xs: seq<T>, p: T -> bool)
    ensures |Filter(xs, p)| == |xs| <==> forall i :: 0 <= i < |xs| ==> p(xs[i])
    decreases |xs|
  {
    if |xs| > 0 {
      CountAllLemma(xs[1..], p);
      assert forall i :: 1 <= i < |xs| ==> xs[1..][i - 1] == xs[i];
    }
  }

  /** Filtering is idempotent: a second pass with the same predicate keeps everything. */
  lemma {:induction false} FilterIdempotent<T>(xs: seq<T>, p: T -> bool)
    ensures Filter(Filter(xs, p), p) == Filter(xs, p)
    decreases |xs|
  {
    if |xs| > 0 {
      FilterIdempotent(xs[1..], p);
      if p(xs[0]) {
        assert ([xs[0]] + Filter(xs[1..], p))[1..] == Filter(xs[1..], p);
      }
    }
  }

  /** A filter whose predicate holds everywhere returns the input unchanged. */
  lemma {:induction false} FilterAll<T>(xs: seq<T>, p: T -> bool)
    requires forall i :: 0 <= i < |xs| ==> p(xs[i])
    ensures Filter(xs, p) == xs
    decreases |xs|
  {
    if |xs| > 0 {
      FilterAll(xs[1..], p);
      assert [xs[0]] + xs[1..] == xs;
    }
  }

  /** Two predicates that agree on every element filter identically. */
  lemma {:induction false} FilterCongruent<T>(xs: seq<T>, p: T -> bool, q: T -> bool)
    requires forall i :: 0 <= i < |xs| ==> p(xs[i]) == q(xs[i])
    ensures Filter(xs, p) == Filter(xs, q)
    decreases |xs|
  {
    if |xs| > 0 {
      FilterCongruent(xs[1..], p, q);
    }
  }

  /** A weaker predicate counts at least as many elements. */
  lemma {:induction false} CountMonotone<T>(xs: seq<T>, p: T -> bool, q: T -> bool)
    requires forall i :: 0 <= i < |xs| && p(xs[i]) ==> q(xs[i])
    ensures Count(xs, p) <= Count(xs, q)
    decreases |xs|
  {
    if |xs| > 0 {
      CountMonotone(xs[1..], p, q);
      assert Count(xs, p) == (if p(xs[0]) then 1 else 0) + Count(xs[1..], p);
      assert Count(xs, q) == (if q(xs[0]) then 1 else 0) + Count(xs[1..], q);
    }
  }

  /** `xs.map(f)` */
  function Map<T, U>(xs: seq<T>, f: T -> U): (r: seq<U>)
    ensures |r| == |xs|
    ensures forall i :: 0 <= i < |xs| ==> r[i] == f(xs[i])
  {
    seq(|xs|, i requires 0 <= i < |xs| => f(xs[i]))
  }

  /** Counting through a projection equals counting with the composed predicate. */
  lemma {:induction false} CountMap<T, U>(xs: seq<T>, f: T -> U, p: U -> bool, q: T -> bool)
    requires forall x :: q(x) == p(f(x))
    ensures Count(Map(xs, f), p) == Count(xs, q)
    decreases |xs|
  {
    if |xs| > 0 {
      CountMap(xs[1..], f, p, q);
      assert Map(xs, f)[1..] == Map(xs[1..], f);
    }
  }

  /** `xs.findIndex(p)`: the first index whose element satisfies `p`, or None for -1. */
  function FirstIndex<T>(xs: seq<T>, p: T -> bool): (r: Option<nat>)
    ensures r.Some? ==> r.value < |xs| && p(xs[r.value])
    ensures r.Some? ==> forall j :: 0 <= j < r.value ==> !p(xs[j])
    ensures r.None? ==> forall j :: 0 <= j < |xs| ==> !p(xs[j])
    decreases |xs|
  {
    if |xs| == 0 then None
    else if p(xs[0]) then Some(0)
    else match FirstIndex(xs[1..], p)
      case None => None
      case Some(k) => Some(k + 1)
  }
}
