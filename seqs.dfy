/** `Array.prototype.filter`, which the planners and the journal use to
    select and to delete entries. */
module Seqs {

  /** `xs.filter(keep)`: the elements that pass, in their original order. */
  function Filter<T>(xs: seq<T>, keep: T -> bool): (r: seq<T>)
    ensures |r| <= |xs|
    ensures forall i :: 0 <= i < |r| ==> r[i] in xs && keep(r[i])
    ensures forall i :: 0 <= i < |xs| && keep(xs[i]) ==> xs[i] in r
  {
    if xs == [] then []
    else if keep(xs[0]) then [xs[0]] + Filter(xs[1..], keep)
    else Filter(xs[1..], keep)
  }

  /** Filtering works piece by piece, which pins down the order of the result. */
  lemma {:induction false} FilterConcat<T>(a: seq<T>, b: seq<T>, keep: T -> bool)
    ensures Filter(a + b, keep) == Filter(a, keep) + Filter(b, keep)
  {
    if a != [] {
      assert (a + b)[0] == a[0] && (a + b)[1..] == a[1..] + b;
      FilterConcat(a[1..], b, keep);
    } else {
      assert a + b == b;
    }
  }

  /** A list whose every element passes is returned whole. */
  lemma {:induction false} FilterKeepsAll<T>(xs: seq<T>, keep: T -> bool)
    requires forall i :: 0 <= i < |xs| ==> keep(xs[i])
    ensures Filter(xs, keep) == xs
  {
    if xs != [] {
      FilterKeepsAll(xs[1..], keep);
    }
  }

  /** A filter that keeps as many elements as it was given keeps all of them. */
  lemma {:induction false} FilterSizeKeepsAll<T>(xs: seq<T>, keep: T -> bool)
    requires |Filter(xs, keep)| == |xs|
    ensures Filter(xs, keep) == xs
  {
    if xs != [] {
      assert |Filter(xs[1..], keep)| <= |xs[1..]|;
      FilterSizeKeepsAll(xs[1..], keep);
    }
  }

  /** A predicate and its negation split a list: the two selections together
      hold every element exactly once. */
  lemma {:induction false} FilterPartition<T>(xs: seq<T>, keep: T -> bool, drop: T -> bool)
    requires forall i :: 0 <= i < |xs| ==> drop(xs[i]) == !keep(xs[i])
    ensures |Filter(xs, keep)| + |Filter(xs, drop)| == |xs|
    ensures multiset(Filter(xs, keep)) + multiset(Filter(xs, drop)) == multiset(xs)
  {
    if xs != [] {
      FilterPartition(xs[1..], keep, drop);
      assert xs == [xs[0]] + xs[1..];
    }
  }

  /** `xs.reduce((sum, x) => sum + x, 0)`. */
  function Sum(xs: seq<int>): int
  {
    if xs == [] then 0 else xs[0] + Sum(xs[1..])
  }

  /** A sum of values within `lo..hi` lies within `lo * n .. hi * n`. */
  lemma {:induction false} SumBounds(xs: seq<int>, lo: int, hi: int)
    requires forall i :: 0 <= i < |xs| ==> lo <= xs[i] <= hi
    ensures lo * |xs| <= Sum(xs) <= hi * |xs|
  {
    if xs != [] {
      SumBounds(xs[1..], lo, hi);
      assert lo * |xs| == lo + lo * |xs[1..]|;
      assert hi * |xs| == hi + hi * |xs[1..]|;
    }
  }

  /** The arithmetic mean of a non-empty list, before any rounding. */
  function Mean(xs: seq<int>): real
    requires xs != []
  {
    Sum(xs) as real / |xs| as real
  }

  /** The mean of values within `lo..hi` lies within `lo..hi`. */
  lemma MeanWithin(xs: seq<int>, lo: int, hi: int)
    requires xs != []
    ensures (forall i :: 0 <= i < |xs| ==> lo <= xs[i] <= hi) ==> lo as real <= Mean(xs) <= hi as real
  {
    if forall i :: 0 <= i < |xs| ==> lo <= xs[i] <= hi {
      SumBounds(xs, lo, hi);
      QuotientBetween(Sum(xs), |xs|, lo, hi);
    }
  }

  /** Dividing a total that lies within `lo * n .. hi * n` by `n` gives a
      value within `lo..hi`. */
  lemma QuotientBetween(total: int, n: int, lo: int, hi: int)
    requires n > 0 && lo * n <= total <= hi * n
    ensures lo as real <= total as real / n as real <= hi as real
  {
    var q := total as real / n as real;
    CastMul(lo, n);
    CastMul(hi, n);
    QuotientTimes(total as real, n as real);
    CancelLe(lo as real, q, n as real);
    CancelLe(q, hi as real, n as real);
  }

  lemma CastMul(a: int, b: int)
    ensures (a * b) as real == a as real * b as real
  {
  }

  lemma QuotientTimes(s: real, n: real)
    requires n != 0.0
    ensures s / n * n == s
  {
  }

  lemma CancelLe(a: real, b: real, n: real)
    requires n > 0.0 && a * n <= b * n
    ensures a <= b
  {
  }
}
