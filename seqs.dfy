/**
 * `Array.prototype.filter` and the order-preserving sub-list relation its
 * results stand in.
 */
module Seqs {

  /** `a` is `b` with some elements removed and the rest in their order. */
  ghost predicate IsSublist<T>(a: seq<T>, b: seq<T>) {
    a == [] || (b != [] && ((a[0] == b[0] && IsSublist(a[1..], b[1..])) || IsSublist(a, b[1..])))
  }

  /**
   * `xs.filter(p)`: the elements of `xs` that satisfy `p`, in their order.
   * `FilterIsSublist` and `FilterKeepsMultiplicity` state the rest.
   */
  function Filter<T>(xs: seq<T>, p: T -> bool): (r: seq<T>)
    ensures |r| <= |xs|
    ensures forall x :: x in r ==> x in xs && p(x)
  {
    if xs == [] then []
    else if p(xs[0]) then [xs[0]] + Filter(xs[1..], p) else Filter(xs[1..], p)
  }

  /** What the filter keeps is a sub-list of its input. */
  lemma {:induction false} FilterIsSublist<T>(xs: seq<T>, p: T -> bool)
    ensures IsSublist(Filter(xs, p), xs)
  {
    if xs != [] {
      FilterIsSublist(xs[1..], p);
    }
  }

  /** An element that satisfies `p` is kept as often as it occurs in `xs`. */
  lemma {:induction false} FilterKeepsMultiplicity<T>(xs: seq<T>, p: T -> bool, x: T)
    requires p(x)
    ensures multiset(Filter(xs, p))[x] == multiset(xs)[x]
  {
    if xs != [] {
      FilterKeepsMultiplicity(xs[1..], p, x);
      assert xs == [xs[0]] + xs[1..];
      assert multiset(xs) == multiset([xs[0]]) + multiset(xs[1..]);
    }
  }

  /** No element occurs twice. */
  predicate Distinct<T(==)>(xs: seq<T>) {
    forall i, j :: 0 <= i < j < |xs| ==> xs[i] != xs[j]
  }

  /** Filtering a list without repeats gives a list without repeats. */
  lemma {:induction false} FilterKeepsDistinct<T>(xs: seq<T>, p: T -> bool)
    requires Distinct(xs)
    ensures Distinct(Filter(xs, p))
  {
    if xs != [] {
      FilterKeepsDistinct(xs[1..], p);
      assert xs[0] !in xs[1..] by {
        forall k | 0 <= k < |xs[1..]| ensures xs[1..][k] != xs[0] {
          assert xs[1..][k] == xs[k + 1];
        }
      }
    }
  }

  /** Filtering a list with one more element at the end. */
  lemma {:induction false} FilterSnoc<T>(xs: seq<T>, x: T, p: T -> bool)
    ensures Filter(xs + [x], p) == Filter(xs, p) + (if p(x) then [x] else [])
  {
    if xs != [] {
      assert (xs + [x])[1..] == xs[1..] + [x];
      FilterSnoc(xs[1..], x, p);
    } else {
      assert Filter([x], p) == (if p(x) then [x] else []) + Filter([], p);
    }
  }

  /** The filter keeps an element exactly when it occurs in `xs` and satisfies `p`. */
  lemma {:induction false} FilterMembership<T>(xs: seq<T>, p: T -> bool)
    ensures forall x :: x in Filter(xs, p) <==> x in xs && p(x)
  {
    if xs != [] {
      FilterMembership(xs[1..], p);
      assert forall x :: x in xs <==> x == xs[0] || x in xs[1..];
    }
  }

  /** Everything that satisfies `p` satisfies `q`: filtering by `p` keeps a sub-list of what `q` keeps. */
  lemma {:induction false} FilterMonotone<T>(xs: seq<T>, p: T -> bool, q: T -> bool)
    requires forall x :: x in xs && p(x) ==> q(x)
    ensures IsSublist(Filter(xs, p), Filter(xs, q))
  {
    if xs != [] {
      FilterMonotone(xs[1..], p, q);
      var fp, fq := Filter(xs[1..], p), Filter(xs[1..], q);
      if p(xs[0]) {
        assert Filter(xs, p) == [xs[0]] + fp;
        assert Filter(xs, q) == [xs[0]] + fq;
      } else if q(xs[0]) {
        assert Filter(xs, q)[1..] == fq;
      }
    }
  }

  /** A filter that keeps every element returns its input. */
  lemma {:induction false} FilterKeepsAll<T>(xs: seq<T>, p: T -> bool)
    requires forall x :: x in xs ==> p(x)
    ensures Filter(xs, p) == xs
  {
    if xs != [] {
      FilterKeepsAll(xs[1..], p);
    }
  }

  /** A filter that keeps no element returns nothing. */
  lemma FilterRejectsAll<T>(xs: seq<T>, p: T -> bool)
    requires forall x :: x in xs ==> !p(x)
    ensures Filter(xs, p) == []
  {
  }

  /**
   * Counting with a disjunction: at least as many as each side, at most the
   * sum, and exactly the sum when no element satisfies both sides.
   */
  lemma {:induction false} FilterCountOr<T>(xs: seq<T>, p: T -> bool, q: T -> bool, pq: T -> bool)
    requires forall x :: pq(x) == (p(x) || q(x))
    ensures |Filter(xs, p)| <= |Filter(xs, pq)| && |Filter(xs, q)| <= |Filter(xs, pq)|
    ensures |Filter(xs, pq)| <= |Filter(xs, p)| + |Filter(xs, q)|
    ensures (forall x :: x in xs ==> !(p(x) && q(x))) ==> |Filter(xs, pq)| == |Filter(xs, p)| + |Filter(xs, q)|
  {
    if xs != [] {
      FilterCountOr(xs[1..], p, q, pq);
    }
  }
}
