/**
 * Counting by key, the way the dashboards build their `{ [key]: count }`
 * objects: one pass over the labels, bumping the key's count or adding the
 * key with count 1. A histogram is kept as a list of buckets in the order
 * in which keys first appear, which is the order a JavaScript object lists
 * its (non-numeric) keys.
 */
module Histogram {

  datatype Bucket = Bucket(key: string, count: nat)

  /** The keys of a histogram. */
  function Keys(h: seq<Bucket>): set<string>
    decreases |h|
  {
    if h == [] then {} else {h[0].key} + Keys(h[1..])
  }

  /** No key appears twice. */
  predicate DistinctKeys(h: seq<Bucket>)
    decreases |h|
  {
    h == [] || (h[0].key !in Keys(h[1..]) && DistinctKeys(h[1..]))
  }

  /** Every bucket counts at least one occurrence. */
  predicate Positive(h: seq<Bucket>) {
    forall i :: 0 <= i < |h| ==> h[i].count > 0
  }

  /** `h[k] || 0`. */
  function Get(h: seq<Bucket>, k: string): nat
    decreases |h|
  {
    if h == [] then 0 else if h[0].key == k then h[0].count else Get(h[1..], k)
  }

  /** The sum of the counts. */
  function Total(h: seq<Bucket>): nat
    decreases |h|
  {
    if h == [] then 0 else h[0].count + Total(h[1..])
  }

  /** `h[k] = (h[k] || 0) + 1`. */
  function Bump(h: seq<Bucket>, k: string): (r: seq<Bucket>)
    ensures Keys(r) == Keys(h) + {k}
    ensures DistinctKeys(h) ==> DistinctKeys(r)
    ensures Positive(h) ==> Positive(r)
    ensures Total(r) == Total(h) + 1
    decreases |h|
  {
    if h == [] then [Bucket(k, 1)]
    else if h[0].key == k then [Bucket(k, h[0].count + 1)] + h[1..]
    else
      var rest := Bump(h[1..], k);
      assert ([h[0]] + rest)[1..] == rest;
      [h[0]] + rest
  }

  /** Bumping k adds one to k's count and leaves every other count. */
  lemma {:induction false} BumpGet(h: seq<Bucket>, k: string, j: string)
    requires DistinctKeys(h)
    ensures Get(Bump(h, k), j) == Get(h, j) + (if j == k then 1 else 0)
    decreases |h|
  {
    if h != [] && h[0].key != k {
      BumpGet(h[1..], k, j);
      assert Bump(h, k)[1..] == Bump(h[1..], k);
    } else if h != [] && h[0].key == k && j != k {
      assert Bump(h, k)[1..] == h[1..];
    }
  }

  /** The histogram of a list of labels. */
  function Tally(xs: seq<string>): (h: seq<Bucket>)
    ensures DistinctKeys(h) && Positive(h)
    ensures Keys(h) == set k | k in xs
    ensures Total(h) == |xs|
    decreases |xs|
  {
    if xs == [] then []
    else
      var init := xs[..|xs| - 1];
      assert (set k | k in xs) == (set k | k in init) + {xs[|xs| - 1]} by {
        assert xs == init + [xs[|xs| - 1]];
      }
      Bump(Tally(init), xs[|xs| - 1])
  }

  /** Each key counts exactly the labels equal to it. */
  lemma {:induction false} TallyCounts(xs: seq<string>, k: string)
    ensures Get(Tally(xs), k) == multiset(xs)[k]
    decreases |xs|
  {
    if xs != [] {
      var init, last := xs[..|xs| - 1], xs[|xs| - 1];
      TallyCounts(init, k);
      BumpGet(Tally(init), last, k);
      MultisetLast(xs);
    }
  }

  /** A list's multiset is that of all but its last element plus the last. */
  lemma MultisetLast(xs: seq<string>)
    requires xs != []
    ensures multiset(xs) == multiset(xs[..|xs| - 1]) + multiset{xs[|xs| - 1]}
  {
    assert xs == xs[..|xs| - 1] + [xs[|xs| - 1]];
  }

  /** Counts do not grow from one bucket to the next. */
  predicate NonIncreasing(h: seq<Bucket>)
    decreases |h|
  {
    |h| < 2 || (h[0].count >= h[1].count && NonIncreasing(h[1..]))
  }

  /** In a non-increasing list every bucket counts at least as much as any later one. */
  lemma {:induction false} NonIncreasingPairwise(h: seq<Bucket>)
    requires NonIncreasing(h)
    ensures forall i, j :: 0 <= i <= j < |h| ==> h[i].count >= h[j].count
    decreases |h|
  {
    if |h| >= 2 {
      NonIncreasingPairwise(h[1..]);
      forall i, j | 0 <= i <= j < |h| ensures h[i].count >= h[j].count {
        if 0 < i {
          assert h[i] == h[1..][i - 1] && h[j] == h[1..][j - 1];
        } else if 0 < j {
          assert h[1] == h[1..][0] && h[j] == h[1..][j - 1];
        }
      }
    }
  }

  /** Inserting b into a non-increasing list before the first bucket that
      does not count more than b. */
  function InsertDesc(b: Bucket, s: seq<Bucket>): (r: seq<Bucket>)
    ensures multiset(r) == multiset(s) + multiset{b}
    ensures |r| == |s| + 1
    ensures r[0] == b || (s != [] && r[0] == s[0])
    ensures NonIncreasing(s) ==> NonIncreasing(r)
    decreases |s|
  {
    if s == [] || s[0].count <= b.count then [b] + s
    else
      var rest := InsertDesc(b, s[1..]);
      assert s == [s[0]] + s[1..];
      assert ([s[0]] + rest)[1..] == rest;
      [s[0]] + rest
  }

  /** `Object.entries(h).sort(([,a], [,b]) => b - a)`: the buckets from the
      largest count down. */
  function SortDesc(h: seq<Bucket>): (r: seq<Bucket>)
    ensures multiset(r) == multiset(h)
    ensures NonIncreasing(r)
    decreases |h|
  {
    if h == [] then []
    else
      assert h == [h[0]] + h[1..];
      InsertDesc(h[0], SortDesc(h[1..]))
  }

  function Min(a: nat, b: nat): nat {
    if a <= b then a else b
  }

  /** `.slice(0, 5)` of the sorted buckets: the five most frequent keys. */
  function Top5(h: seq<Bucket>): (t: seq<Bucket>)
    ensures |t| == Min(5, |h|)
    ensures NonIncreasing(t)
    ensures multiset(t) <= multiset(h)
  {
    var sorted := SortDesc(h);
    var n := Min(5, |h|);
    SplitMultiset(sorted, n);
    NonIncreasingPrefix(sorted, n);
    sorted[..n]
  }

  /** A list is the multiset union of its prefix and the rest. */
  lemma SplitMultiset(s: seq<Bucket>, n: nat)
    requires n <= |s|
    ensures multiset(s) == multiset(s[..n]) + multiset(s[n..])
  {
    assert s == s[..n] + s[n..];
  }

  /** A prefix of a non-increasing list is non-increasing. */
  lemma {:induction false} NonIncreasingPrefix(h: seq<Bucket>, n: nat)
    requires NonIncreasing(h) && n <= |h|
    ensures NonIncreasing(h[..n])
    decreases n
  {
    if n >= 2 {
      NonIncreasingPrefix(h[1..], n - 1);
      assert h[..n][1..] == h[1..][..n - 1];
    }
  }

  /** The buckets the five leave out. */
  function Omitted(h: seq<Bucket>): (om: seq<Bucket>)
    ensures multiset(Top5(h)) + multiset(om) == multiset(h)
  {
    var sorted := SortDesc(h);
    var n := Min(5, |h|);
    SplitMultiset(sorted, n);
    sorted[n..]
  }

  /** No bucket left out of the five counts more than a bucket shown. */
  lemma Top5Omitted(h: seq<Bucket>)
    ensures forall i, j :: 0 <= i < |Top5(h)| && 0 <= j < |Omitted(h)| ==> Omitted(h)[j].count <= Top5(h)[i].count
  {
    var sorted := SortDesc(h);
    var n := Min(5, |h|);
    NonIncreasingPairwise(sorted);
    var om := sorted[n..];
    forall i, j | 0 <= i < n && 0 <= j < |om| ensures om[j].count <= sorted[i].count {
      assert om[j] == sorted[n + j];
    }
  }
}
