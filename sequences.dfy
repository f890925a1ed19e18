/** Order-preserving filtering, the shape of every `Array.prototype.filter` in the site. */
module Sequences {

  /** `a` can be obtained from `b` by deleting elements: `a` is an order-preserving subsequence of `b`. */
  ghost predicate IsSubseq<T>(a: seq<T>, b: seq<T>)
    decreases |b|
  {
    a == [] || (b != [] && ((a[0] == b[0] && IsSubseq(a[1..], b[1..])) || IsSubseq(a, b[1..])))
  }

  /** `s.filter(p)`. */
  function Filter<T>(p: T -> bool, s: seq<T>): (r: seq<T>)
    ensures |r| <= |s|
    ensures forall i :: 0 <= i < |r| ==> r[i] in s && p(r[i])
    ensures forall i :: 0 <= i < |s| && p(s[i]) ==> s[i] in r
  {
    if s == [] then []
    else if p(s[0]) then [s[0]] + Filter(p, s[1..])
    else Filter(p, s[1..])
  }

  /** The kept elements appear in the same relative order as in the input. */
  lemma {:induction false} FilterIsSubseq<T>(p: T -> bool, s: seq<T>)
    ensures IsSubseq(Filter(p, s), s)
  {
    if s != [] {
      FilterIsSubseq(p, s[1..]);
      if !p(s[0]) {
        SubseqDropHead(Filter(p, s[1..]), s);
      }
    }
  }

  lemma {:induction false} SubseqDropHead<T>(a: seq<T>, b: seq<T>)
    requires b != [] && IsSubseq(a, b[1..])
    ensures IsSubseq(a, b)
  {
  }

  /** Every element is kept exactly as often as it occurs, when it passes the test, and never otherwise. */
  lemma {:induction false} FilterCounts<T>(p: T -> bool, s: seq<T>, x: T)
    ensures multiset(Filter(p, s))[x] == if p(x) then multiset(s)[x] else 0
  {
    if s != [] {
      FilterCounts(p, s[1..], x);
      assert s == [s[0]] + s[1..];
    }
  }

  /** `FilterCounts` for every element at once: the result is the passing part of the input's multiset. */
  lemma FilterCountsAll<T>(p: T -> bool, s: seq<T>)
    ensures forall x :: multiset(Filter(p, s))[x] == if p(x) then multiset(s)[x] else 0
  {
    forall x ensures multiset(Filter(p, s))[x] == if p(x) then multiset(s)[x] else 0 {
      FilterCounts(p, s, x);
    }
  }

  /** Filtering an already filtered sequence again changes nothing. */
  lemma {:induction false} FilterIdempotent<T>(p: T -> bool, s: seq<T>)
    ensures Filter(p, Filter(p, s)) == Filter(p, s)
  {
    FilterKeepsAll(p, Filter(p, s));
  }

  /** A filter whose test every element passes is the identity. */
  lemma {:induction false} FilterKeepsAll<T>(p: T -> bool, s: seq<T>)
    requires forall i :: 0 <= i < |s| ==> p(s[i])
    ensures Filter(p, s) == s
  {
    if s != [] {
      FilterKeepsAll(p, s[1..]);
    }
  }

  /** Two filter stages in a row equal one filter on the conjunction of their tests. */
  lemma {:induction false} FilterFuse<T>(p: T -> bool, q: T -> bool, pq: T -> bool, s: seq<T>)
    requires forall x :: pq(x) == (p(x) && q(x))
    ensures Filter(q, Filter(p, s)) == Filter(pq, s)
  {
    if s != [] {
      FilterFuse(p, q, pq, s[1..]);
    }
  }

  /** Filters with tests that agree on every element of the input give the same result. */
  lemma {:induction false} FilterCongruent<T>(p: T -> bool, q: T -> bool, s: seq<T>)
    requires forall i :: 0 <= i < |s| ==> p(s[i]) == q(s[i])
    ensures Filter(p, s) == Filter(q, s)
  {
    if s != [] {
      FilterCongruent(p, q, s[1..]);
    }
  }
}
