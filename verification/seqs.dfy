/** Sequence operations the dashboard pipeline is built from: the
    order-preserving filter behind `Array.prototype.filter`, the left fold
    behind `Array.prototype.reduce` with an initial value, and the facts
    about them that the status counts, priority lists and averages rely on. */
module Seqs {

  /** `a` occurs in `b` with its elements in the same relative order, not
      necessarily next to each other. */
  predicate IsSubsequence<T(==)>(a: seq<T>, b: seq<T>)
    decreases |b|
  {
    if |a| == 0 then true
    else if |b| == 0 then false
    else (a[0] == b[0] && IsSubsequence(a[1..], b[1..])) || IsSubsequence(a, b[1..])
  }

  /** The elements of `s` that satisfy `p`, in their original order. */
  function Filter<T(==)>(s: seq<T>, p: T -> bool): (r: seq<T>)
    ensures |r| <= |s|
    ensures forall i :: 0 <= i < |r| ==> r[i] in s && p(r[i])
    ensures forall i :: 0 <= i < |s| && p(s[i]) ==> s[i] in r
  {
    if |s| == 0 then []
    else
      assert forall i :: 1 <= i < |s| ==> s[i] == s[1..][i - 1];
      if p(s[0]) then [s[0]] + Filter(s[1..], p) else Filter(s[1..], p)
  }

  /** Filtering keeps the relative order of the elements it keeps. */
  lemma {:induction false} FilterIsSubsequence<T>(s: seq<T>, p: T -> bool)
    ensures IsSubsequence(Filter(s, p), s)
  {
    if |s| > 0 {
      FilterIsSubsequence(s[1..], p);
      var r := Filter(s, p);
      if p(s[0]) {
        assert r[0] == s[0] && r[1..] == Filter(s[1..], p);
      } else {
        assert r == Filter(s[1..], p);
      }
    }
  }

  /** Filtering by `p` and then by `q` is filtering once by their
      conjunction `pq`. */
  lemma {:induction false} FilterOfFilter<T>(s: seq<T>, p: T -> bool, q: T -> bool, pq: T -> bool)
    requires forall x :: pq(x) == (p(x) && q(x))
    ensures Filter(Filter(s, p), q) == Filter(s, pq)
  {
    if |s| > 0 {
      FilterOfFilter(s[1..], p, q, pq);
      if p(s[0]) {
        var f := Filter(s, p);
        assert f[0] == s[0] && f[1..] == Filter(s[1..], p);
      }
    }
  }

  /** For two predicates that never hold together, the two filters split
      the filter by their disjunction `pOrQ`. */
  lemma {:induction false} FilterUnionLength<T>(s: seq<T>, p: T -> bool, q: T -> bool, pOrQ: T -> bool)
    requires forall x :: !(p(x) && q(x))
    requires forall x :: pOrQ(x) == (p(x) || q(x))
    ensures |Filter(s, p)| + |Filter(s, q)| == |Filter(s, pOrQ)|
  {
    if |s| > 0 {
      FilterUnionLength(s[1..], p, q, pOrQ);
    }
  }

  /** A filter keeps every element exactly when every element satisfies
      its predicate. */
  lemma {:induction false} FilterKeepsAllIff<T>(s: seq<T>, p: T -> bool)
    ensures |Filter(s, p)| == |s| <==> forall i :: 0 <= i < |s| ==> p(s[i])
  {
    if |s| > 0 {
      FilterKeepsAllIff(s[1..], p);
      assert (forall i :: 0 <= i < |s| ==> p(s[i])) <==>
             p(s[0]) && forall j :: 0 <= j < |s[1..]| ==> p(s[1..][j]) by {
        if p(s[0]) && forall j :: 0 <= j < |s[1..]| ==> p(s[1..][j]) {
          forall i | 0 <= i < |s| ensures p(s[i]) {
            if i > 0 { assert s[i] == s[1..][i - 1]; }
          }
        }
      }
    }
  }

  /** Filtering keeps every occurrence of a satisfying element and drops
      every occurrence of any other: with `FilterIsSubsequence` this pins
      the result down exactly. */
  lemma {:induction false} FilterMultiset<T>(s: seq<T>, p: T -> bool, x: T)
    ensures multiset(Filter(s, p))[x] == if p(x) then multiset(s)[x] else 0
  {
    if |s| > 0 {
      FilterMultiset(s[1..], p, x);
      assert s == [s[0]] + s[1..];
    }
  }

  /** `FilterMultiset` for every element at once. */
  lemma FilterMultisetAll<T>(s: seq<T>, p: T -> bool)
    ensures forall x :: multiset(Filter(s, p))[x] == if p(x) then multiset(s)[x] else 0
  {
    forall x { FilterMultiset(s, p, x); }
  }

  /** The positions of `s` whose element satisfies `p`. */
  function IndicesWhere<T>(s: seq<T>, p: T -> bool): set<int> {
    set i | 0 <= i < |s| && p(s[i])
  }

  /** Filtering a concatenation filters each part. */
  lemma {:induction false} FilterAppend<T>(a: seq<T>, b: seq<T>, p: T -> bool)
    ensures Filter(a + b, p) == Filter(a, p) + Filter(b, p)
  {
    if |a| == 0 {
      assert a + b == b;
    } else {
      var ab := a + b;
      assert ab[0] == a[0] && ab[1..] == a[1..] + b;
      FilterAppend(a[1..], b, p);
      if p(a[0]) {
        calc {
          Filter(ab, p);
          [a[0]] + Filter(a[1..] + b, p);
          [a[0]] + (Filter(a[1..], p) + Filter(b, p));
          ([a[0]] + Filter(a[1..], p)) + Filter(b, p);
        }
      }
    }
  }

  /** A filter's length is the number of positions whose element satisfies
      the predicate. */
  lemma {:induction false} FilterLengthCountsIndices<T>(s: seq<T>, p: T -> bool)
    ensures |Filter(s, p)| == |IndicesWhere(s, p)|
  {
    if |s| == 0 {
      assert IndicesWhere(s, p) == {};
    } else {
      var n := |s| - 1;
      var front := s[..n];
      FilterLengthCountsIndices(front, p);
      assert s == front + [s[n]];
      FilterAppend(front, [s[n]], p);
      var earlier := IndicesWhere(front, p);
      assert n !in earlier;
      if p(s[n]) {
        assert IndicesWhere(s, p) == earlier + {n};
      } else {
        assert IndicesWhere(s, p) == earlier;
      }
    }
  }

  /** The mathematical sum of `f` over `s`. */
  function Sum<T>(s: seq<T>, f: T -> real): real
  {
    if |s| == 0 then 0.0 else f(s[0]) + Sum(s[1..], f)
  }

  /** Left-to-right accumulation `((acc + f(s[0])) + f(s[1])) + ...`, the
      evaluation order of `reduce((sum, x) => sum + f(x), acc)`. */
  function FoldSum<T>(acc: real, s: seq<T>, f: T -> real): real
    decreases |s|
  {
    if |s| == 0 then acc else FoldSum(acc + f(s[0]), s[1..], f)
  }

  /** Over exact reals the left fold is the starting value plus the sum. */
  lemma {:induction false} FoldSumIsSum<T>(acc: real, s: seq<T>, f: T -> real)
    ensures FoldSum(acc, s, f) == acc + Sum(s, f)
    decreases |s|
  {
    if |s| > 0 {
      FoldSumIsSum(acc + f(s[0]), s[1..], f);
    }
  }

  /** A sum of values that all lie in [lo, hi] lies in [lo * |s|, hi * |s|]. */
  lemma {:induction false} SumBounds<T>(s: seq<T>, f: T -> real, lo: real, hi: real)
    requires forall i :: 0 <= i < |s| ==> lo <= f(s[i]) <= hi
    ensures lo * |s| as real <= Sum(s, f) <= hi * |s| as real
  {
    if |s| > 0 {
      var rest := s[1..];
      assert forall j :: 0 <= j < |rest| ==> rest[j] == s[j + 1];
      SumBounds(rest, f, lo, hi);
      var n := |rest| as real;
      assert Sum(s, f) == f(s[0]) + Sum(rest, f);
      assert lo <= f(s[0]) <= hi;
      assert lo * (n + 1.0) == lo * n + lo;
      assert hi * (n + 1.0) == hi * n + hi;
    }
  }

  /** The mean of values that all lie in [lo, hi] lies in [lo, hi]. */
  lemma MeanBounds<T>(s: seq<T>, f: T -> real, lo: real, hi: real)
    requires |s| > 0
    requires forall i :: 0 <= i < |s| ==> lo <= f(s[i]) <= hi
    ensures lo <= Sum(s, f) / |s| as real <= hi
  {
    SumBounds(s, f, lo, hi);
    var n := |s| as real;
    var m := Sum(s, f) / n;
    assert m * n == Sum(s, f);
    assert lo * n <= m * n <= hi * n;
  }
}
