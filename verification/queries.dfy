/** The query-set operations the views chain together: `filter`, which keeps
    the rows a condition accepts in their stored order, and `count`. */
module Queries {

  /** `queryset.filter(cond)` over rows in their stored order. */
  function Filter<T(!new)>(xs: seq<T>, keep: T -> bool): (r: seq<T>)
    ensures |r| <= |xs|
    ensures forall x :: x in r <==> x in xs && keep(x)
  {
    if |xs| == 0 then []
    else if keep(xs[0]) then [xs[0]] + Filter(xs[1..], keep)
    else Filter(xs[1..], keep)
  }

  /** Filtering works row by row, so it keeps the stored order: the rows of
      a concatenation are filtered piecewise. */
  lemma {:induction false} FilterAppend<T(!new)>(a: seq<T>, b: seq<T>, keep: T -> bool)
    ensures Filter(a + b, keep) == Filter(a, keep) + Filter(b, keep)
  {
    if |a| > 0 {
      assert (a + b)[0] == a[0] && (a + b)[1..] == a[1..] + b;
      FilterAppend(a[1..], b, keep);
    } else {
      assert a + b == b;
    }
  }

  /** A condition that accepts every row keeps the query set as it is. */
  lemma {:induction false} FilterKeepsAll<T(!new)>(xs: seq<T>, keep: T -> bool)
    requires forall x :: x in xs ==> keep(x)
    ensures Filter(xs, keep) == xs
  {
    if |xs| > 0 {
      assert forall x :: x in xs[1..] ==> x in xs;
      FilterKeepsAll(xs[1..], keep);
    }
  }

  /** A condition that accepts no row empties the query set. */
  lemma {:induction false} FilterKeepsNone<T(!new)>(xs: seq<T>, keep: T -> bool)
    requires forall x :: x in xs ==> !keep(x)
    ensures Filter(xs, keep) == []
  {
    if |xs| > 0 {
      assert forall x :: x in xs[1..] ==> x in xs;
      FilterKeepsNone(xs[1..], keep);
    }
  }

  /** Chained filters are the filter of the conjunction. */
  lemma {:induction false} FilterChain<T(!new)>(xs: seq<T>, p: T -> bool, q: T -> bool, both: T -> bool)
    requires forall x :: both(x) == (p(x) && q(x))
    ensures Filter(Filter(xs, p), q) == Filter(xs, both)
  {
    if |xs| > 0 {
      FilterChain(xs[1..], p, q, both);
    }
  }

  /** Two conditions that agree on the rows of a query set select the same
      rows, whatever they do elsewhere. */
  lemma {:induction false} FilterSameOnRows<T(!new)>(xs: seq<T>, p: T -> bool, q: T -> bool)
    requires forall x :: x in xs ==> p(x) == q(x)
    ensures Filter(xs, p) == Filter(xs, q)
  {
    if |xs| > 0 {
      assert forall x :: x in xs[1..] ==> x in xs;
      FilterSameOnRows(xs[1..], p, q);
    }
  }

  /** Filtering twice with the same condition changes nothing more. */
  lemma FilterIdempotent<T(!new)>(xs: seq<T>, keep: T -> bool)
    ensures Filter(Filter(xs, keep), keep) == Filter(xs, keep)
  {
    FilterKeepsAll(Filter(xs, keep), keep);
  }

  /** `queryset.filter(cond).count()`. */
  function Count<T(!new)>(xs: seq<T>, keep: T -> bool): (n: nat)
    ensures n <= |xs|
  {
    if |xs| == 0 then 0 else (if keep(xs[0]) then 1 else 0) + Count(xs[1..], keep)
  }

  /** Counting is the length of the filtered query set. */
  lemma {:induction false} CountIsFilterLength<T(!new)>(xs: seq<T>, keep: T -> bool)
    ensures Count(xs, keep) == |Filter(xs, keep)|
  {
    if |xs| > 0 {
      CountIsFilterLength(xs[1..], keep);
    }
  }

  /** Two conditions that agree on every row count the same rows. */
  lemma {:induction false} CountSameCondition<T(!new)>(xs: seq<T>, p: T -> bool, q: T -> bool)
    requires forall x :: p(x) == q(x)
    ensures Count(xs, p) == Count(xs, q)
  {
    if |xs| > 0 {
      CountSameCondition(xs[1..], p, q);
    }
  }

  /** Counts add up over a concatenation. */
  lemma {:induction false} CountAppend<T(!new)>(a: seq<T>, b: seq<T>, keep: T -> bool)
    ensures Count(a + b, keep) == Count(a, keep) + Count(b, keep)
  {
    if |a| > 0 {
      assert (a + b)[0] == a[0] && (a + b)[1..] == a[1..] + b;
      CountAppend(a[1..], b, keep);
    } else {
      assert a + b == b;
    }
  }
}
