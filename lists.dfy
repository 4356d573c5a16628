/**
 * `Array.prototype.filter` over the static data arrays, and the facts every
 * page relies on: the result is an order-preserving subsequence holding
 * exactly the records that pass, filtering twice changes nothing, and
 * filters on independent dimensions commute.
 */
module Lists {

  /** `r` can be obtained from `xs` by deleting elements, keeping the order of the rest. */
  ghost predicate IsSubsequence<T>(r: seq<T>, xs: seq<T>)
    decreases |xs|
  {
    r == [] || (xs != [] && ((r[0] == xs[0] && IsSubsequence(r[1..], xs[1..])) || IsSubsequence(r, xs[1..])))
  }

  lemma {:induction false} SubsequenceShorter<T>(r: seq<T>, xs: seq<T>)
    requires IsSubsequence(r, xs)
    ensures |r| <= |xs|
    decreases |xs|
  {
    if r != [] {
      if r[0] == xs[0] && IsSubsequence(r[1..], xs[1..]) {
        SubsequenceShorter(r[1..], xs[1..]);
      } else {
        SubsequenceShorter(r, xs[1..]);
      }
    }
  }

  /** `xs.filter(keep)`. */
  function Filter<T>(xs: seq<T>, keep: T -> bool): (r: seq<T>)
    ensures IsSubsequence(r, xs) && |r| <= |xs|
    ensures forall i :: 0 <= i < |r| ==> r[i] in xs && keep(r[i])
    ensures forall i :: 0 <= i < |xs| && keep(xs[i]) ==> xs[i] in r
    decreases |xs|
  {
    if xs == [] then []
    else
      var rest := Filter(xs[1..], keep);
      assert xs == [xs[0]] + xs[1..];
      if keep(xs[0]) then
        assert ([xs[0]] + rest)[1..] == rest;
        [xs[0]] + rest
      else
        rest
  }

  /** Each value occurs in the result exactly as often as in the input when it passes, and never otherwise. */
  lemma {:induction false} FilterCount<T>(xs: seq<T>, keep: T -> bool, x: T)
    ensures multiset(Filter(xs, keep))[x] == if keep(x) then multiset(xs)[x] else 0
    decreases |xs|
  {
    if xs != [] {
      FilterCount(xs[1..], keep, x);
      assert xs == [xs[0]] + xs[1..];
      FilterCons(xs[0], xs[1..], keep);
      assert multiset(xs) == multiset{xs[0]} + multiset(xs[1..]);
    }
  }

  /** Filtering a filtered list with the same test changes nothing. */
  lemma {:induction false} FilterIdempotent<T>(xs: seq<T>, keep: T -> bool)
    ensures Filter(Filter(xs, keep), keep) == Filter(xs, keep)
    decreases |xs|
  {
    if xs != [] {
      FilterIdempotent(xs[1..], keep);
      if keep(xs[0]) {
        var r := Filter(xs, keep);
        assert r[1..] == Filter(xs[1..], keep);
      }
    }
  }

  /** Two filters applied one after the other give the filter by their conjunction. */
  lemma {:induction false} FilterFuse<T>(xs: seq<T>, p: T -> bool, q: T -> bool, both: T -> bool)
    requires forall x :: both(x) == (p(x) && q(x))
    ensures Filter(Filter(xs, p), q) == Filter(xs, both)
    decreases |xs|
  {
    if xs != [] {
      FilterFuse(xs[1..], p, q, both);
      if p(xs[0]) {
        var r := Filter(xs, p);
        assert r[1..] == Filter(xs[1..], p);
      }
    }
  }

  /** The order of two filters does not matter. */
  lemma FilterCommutes<T>(xs: seq<T>, p: T -> bool, q: T -> bool)
    ensures Filter(Filter(xs, p), q) == Filter(Filter(xs, q), p)
  {
    var both := x => p(x) && q(x);
    var both' := x => q(x) && p(x);
    FilterFuse(xs, p, q, both);
    FilterFuse(xs, q, p, both');
    FilterAgree(xs, both, both');
  }

  /** Two tests that agree on every element of `xs` filter it alike. */
  lemma {:induction false} FilterAgree<T>(xs: seq<T>, p: T -> bool, q: T -> bool)
    requires forall x :: x in xs ==> p(x) == q(x)
    ensures Filter(xs, p) == Filter(xs, q)
    decreases |xs|
  {
    if xs != [] {
      assert forall x :: x in xs[1..] ==> x in xs;
      FilterAgree(xs[1..], p, q);
    }
  }

  /** A test every element passes keeps the whole list. */
  lemma {:induction false} FilterKeepsAll<T>(xs: seq<T>, keep: T -> bool)
    requires forall x :: x in xs ==> keep(x)
    ensures Filter(xs, keep) == xs
    decreases |xs|
  {
    if xs != [] {
      assert forall x :: x in xs[1..] ==> x in xs;
      FilterKeepsAll(xs[1..], keep);
      assert xs == [xs[0]] + xs[1..];
    }
  }

  /** A test no element passes leaves nothing. */
  lemma FilterDropsAll<T>(xs: seq<T>, keep: T -> bool)
    requires forall x :: x in xs ==> !keep(x)
    ensures Filter(xs, keep) == []
  {
  }

  /** One step of the filter: the head is kept or dropped, the tail is filtered. */
  lemma FilterCons<T>(x: T, ys: seq<T>, keep: T -> bool)
    ensures Filter([x] + ys, keep) == if keep(x) then [x] + Filter(ys, keep) else Filter(ys, keep)
  {
    assert ([x] + ys)[1..] == ys;
  }

  lemma ConcatCons<T>(x: T, p: seq<T>, q: seq<T>)
    ensures [x] + (p + q) == [x] + p + q
  {
  }

  /** The inductive step of `FilterAppend`: putting one element in front of the first part. */
  lemma ConsAppend<T>(x: T, t: seq<T>, b: seq<T>, keep: T -> bool)
    requires Filter(t + b, keep) == Filter(t, keep) + Filter(b, keep)
    ensures Filter([x] + t + b, keep) == Filter([x] + t, keep) + Filter(b, keep)
  {
    ConcatCons(x, t, b);
    FilterCons(x, t + b, keep);
    FilterCons(x, t, keep);
    ConcatCons(x, Filter(t, keep), Filter(b, keep));
  }

  /** Filtering a concatenation filters each part. */
  lemma {:induction false} FilterAppend<T>(a: seq<T>, b: seq<T>, keep: T -> bool)
    ensures Filter(a + b, keep) == Filter(a, keep) + Filter(b, keep)
    decreases |a|
  {
    if a == [] {
      assert a + b == b;
    } else {
      FilterAppend(a[1..], b, keep);
      ConsAppend(a[0], a[1..], b, keep);
      assert a == [a[0]] + a[1..];
    }
  }

  /** A test and its negation split the list: every element goes to exactly one side. */
  lemma {:induction false} FilterPartition<T>(xs: seq<T>, p: T -> bool, notP: T -> bool)
    requires forall x :: notP(x) == !p(x)
    ensures |Filter(xs, p)| + |Filter(xs, notP)| == |xs|
    ensures multiset(Filter(xs, p)) + multiset(Filter(xs, notP)) == multiset(xs)
    decreases |xs|
  {
    if xs != [] {
      FilterPartition(xs[1..], p, notP);
      assert xs == [xs[0]] + xs[1..];
    }
  }
}
