/**
 * `Array.prototype.filter` and counting with a predicate, the two list
 * operations the list pages and dashboards are built from.
 */
module Lists {

  /** a is b with some elements dropped, the rest kept in order. */
  predicate IsSubsequence<T(==)>(a: seq<T>, b: seq<T>)
    decreases |b|
  {
    if a == [] then true
    else if b == [] then false
    else (a[0] == b[0] && IsSubsequence(a[1..], b[1..])) || IsSubsequence(a, b[1..])
  }

  /** `xs.filter(p)`. */
  function Filter<T(==,!new)>(xs: seq<T>, p: T -> bool): (r: seq<T>)
    ensures |r| <= |xs|
    ensures forall x :: x in r <==> x in xs && p(x)
    decreases |xs|
  {
    if xs == [] then []
    else
      var rest := Filter(xs[1..], p);
      assert forall x :: x in xs <==> x == xs[0] || x in xs[1..];
      if p(xs[0]) then [xs[0]] + rest else rest
  }

  /** The filtered list keeps the order of the original. */
  lemma {:induction false} FilterIsSubsequence<T(!new)>(xs: seq<T>, p: T -> bool)
    ensures IsSubsequence(Filter(xs, p), xs)
    decreases |xs|
  {
    if xs != [] {
      FilterIsSubsequence(xs[1..], p);
      var r := Filter(xs, p);
      if p(xs[0]) {
        assert r[0] == xs[0] && r[1..] == Filter(xs[1..], p);
      }
    }
  }

  /** A predicate every element meets keeps the whole list. */
  lemma {:induction false} FilterKeepsAll<T(!new)>(xs: seq<T>, p: T -> bool)
    requires forall i :: 0 <= i < |xs| ==> p(xs[i])
    ensures Filter(xs, p) == xs
    decreases |xs|
  {
    if xs != [] {
      FilterKeepsAll(xs[1..], p);
    }
  }

  /** Two predicates that agree on every element filter alike. */
  lemma {:induction false} FilterAgrees<T(!new)>(xs: seq<T>, p: T -> bool, q: T -> bool)
    requires forall i :: 0 <= i < |xs| ==> p(xs[i]) == q(xs[i])
    ensures Filter(xs, p) == Filter(xs, q)
    decreases |xs|
  {
    if xs != [] {
      FilterAgrees(xs[1..], p, q);
    }
  }

  /** `xs.filter(p).length`. */
  function CountWhere<T>(xs: seq<T>, p: T -> bool): (n: nat)
    ensures n <= |xs|
    decreases |xs|
  {
    if xs == [] then 0 else (if p(xs[0]) then 1 else 0) + CountWhere(xs[1..], p)
  }

  /** The count is the length of the filtered list. */
  lemma {:induction false} CountIsFilterLength<T(!new)>(xs: seq<T>, p: T -> bool)
    ensures CountWhere(xs, p) == |Filter(xs, p)|
    decreases |xs|
  {
    if xs != [] {
      CountIsFilterLength(xs[1..], p);
    }
  }

  /** Counts of two predicates no element meets together add up to at most the length. */
  lemma {:induction false} DisjointCounts<T>(xs: seq<T>, p: T -> bool, q: T -> bool)
    requires forall i :: 0 <= i < |xs| ==> !(p(xs[i]) && q(xs[i]))
    ensures CountWhere(xs, p) + CountWhere(xs, q) <= |xs|
    decreases |xs|
  {
    if xs != [] {
      DisjointCounts(xs[1..], p, q);
    }
  }
}
