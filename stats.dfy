/**
  The statistics the source takes from `Array.prototype.sort` and the
  `simple-statistics` library, given as definitions of their own: a stable
  sort by a real-valued key, sums and means, the median, and the library's
  `quantileSorted` rule.
 */
module Stats {
  import opened Common

  /** Left-to-right sum, as `reduce((a, b) => a + b, 0)` accumulates it. */
  function Sum(s: seq<real>): real
  {
    if |s| == 0 then 0.0 else Sum(s[..|s| - 1]) + s[|s| - 1]
  }

  /** A sum of non-negative values is non-negative. */
  lemma {:induction false} SumNonNegative(s: seq<real>)
    requires forall i :: 0 <= i < |s| ==> s[i] >= 0.0
    ensures Sum(s) >= 0.0
  {
    if |s| > 0 {
      SumNonNegative(s[..|s| - 1]);
    }
  }

  lemma {:induction false} SumAppend(a: seq<real>, b: seq<real>)
    ensures Sum(a + b) == Sum(a) + Sum(b)
  {
    if |b| == 0 {
      assert a + b == a;
    } else {
      assert (a + b)[..|a + b| - 1] == a + b[..|b| - 1];
      SumAppend(a, b[..|b| - 1]);
    }
  }

  lemma {:induction false} SumBounds(s: seq<real>, lo: real, hi: real)
    requires forall i :: 0 <= i < |s| ==> lo <= s[i] <= hi
    ensures (|s| as real) * lo <= Sum(s) <= (|s| as real) * hi
  {
    if |s| > 0 {
      SumBounds(s[..|s| - 1], lo, hi);
    }
  }

  /** Arithmetic mean (`ss.mean`), defined for non-empty input. */
  function Mean(s: seq<real>): real
    requires |s| > 0
  {
    Sum(s) / (|s| as real)
  }

  lemma MeanBounds(s: seq<real>, lo: real, hi: real)
    requires |s| > 0
    requires forall i :: 0 <= i < |s| ==> lo <= s[i] <= hi
    ensures lo <= Mean(s) <= hi
  {
    SumBounds(s, lo, hi);
  }

  // ---------------------------------------------------------------- sorting

  predicate SortedBy<T>(s: seq<T>, key: T -> real)
  {
    forall i, j :: 0 <= i < j < |s| ==> key(s[i]) <= key(s[j])
  }

  /** Inserts `x` after every element whose key is at most `x`'s key (keeps the sort stable). */
  function InsertBy<T(==)>(r: seq<T>, x: T, key: T -> real): (res: seq<T>)
    ensures multiset(res) == multiset(r) + multiset{x}
    ensures SortedBy(r, key) ==> SortedBy(res, key)
  {
    if |r| == 0 then [x]
    else if key(r[|r| - 1]) <= key(x) then r + [x]
    else
      var init := r[..|r| - 1];
      var last := r[|r| - 1];
      assert r == init + [last];
      var head := InsertBy(init, x, key);
      assert SortedBy(r, key) ==> SortedBy(head + [last], key) by {
        if SortedBy(r, key) {
          assert SortedBy(init, key);
          BelowLast(head, init, x, last, key);
        }
      }
      head + [last]
  }

  /** Every element of a rearrangement of `init` plus `x` has a key at most `last`'s when they all do. */
  lemma BelowLast<T>(head: seq<T>, init: seq<T>, x: T, last: T, key: T -> real)
    requires multiset(head) == multiset(init) + multiset{x}
    requires forall k :: 0 <= k < |init| ==> key(init[k]) <= key(last)
    requires key(x) <= key(last)
    ensures forall i :: 0 <= i < |head| ==> key(head[i]) <= key(last)
  {
    forall i | 0 <= i < |head|
      ensures key(head[i]) <= key(last)
    {
      assert head[i] in multiset(head);
      assert head[i] in multiset(init) || head[i] == x;
      if head[i] != x {
        assert head[i] in init;
      }
    }
  }

  /** A stable ascending sort by `key` (insertion sort). */
  function SortBy<T(==)>(s: seq<T>, key: T -> real): (r: seq<T>)
    ensures |r| == |s|
    ensures multiset(r) == multiset(s)
    ensures SortedBy(r, key)
  {
    if |s| == 0 then []
    else
      var n := |s| - 1;
      assert s == s[..n] + [s[n]];
      assert multiset(s) == multiset(s[..n]) + multiset{s[n]};
      InsertBy(SortBy(s[..n], key), s[n], key)
  }

  function Id(x: real): real { x }

  /** `[...values].sort((a, b) => a - b)`. */
  function SortReals(values: seq<real>): (r: seq<real>)
    ensures |r| == |values|
    ensures multiset(r) == multiset(values)
    ensures forall i, j :: 0 <= i < j < |r| ==> r[i] <= r[j]
  {
    var r := SortBy(values, Id);
    assert forall i, j :: 0 <= i < j < |r| ==> Id(r[i]) <= Id(r[j]);
    r
  }

  /** Every element of a sorted copy is an element of the original. */
  lemma SortedElementIn(values: seq<real>, k: nat)
    requires k < |values|
    ensures SortReals(values)[k] in values
  {
    var r := SortReals(values);
    assert r[k] in multiset(r);
  }

  // ------------------------------------------------------- median, quantile

  /** `median` of the Insight math: the middle of a sorted copy, mean of the two middles for even sizes, 0 when empty. */
  function Median(values: seq<real>): (r: real)
    ensures |values| == 0 ==> r == 0.0
    ensures |values| % 2 == 1 ==> r in values
    ensures |values| > 0 && |values| % 2 == 0 ==>
              exists i, j :: 0 <= i < |values| && 0 <= j < |values| && r == (values[i] + values[j]) / 2.0
  {
    if |values| == 0 then 0.0
    else
      var sorted := SortReals(values);
      var mid := |sorted| / 2;
      SortedElementIn(values, mid);
      if |sorted| % 2 == 0 then
        SortedElementIn(values, mid - 1);
        (sorted[mid - 1] + sorted[mid]) / 2.0
      else sorted[mid]
  }

  /** The median lies between any lower and upper bound of the input. */
  lemma MedianBounds(values: seq<real>, lo: real, hi: real)
    requires |values| > 0
    requires forall i :: 0 <= i < |values| ==> lo <= values[i] <= hi
    ensures lo <= Median(values) <= hi
  {
    var sorted := SortReals(values);
    var mid := |sorted| / 2;
    SortedElementIn(values, mid);
    if |sorted| % 2 == 0 {
      SortedElementIn(values, mid - 1);
    }
  }

  /** The median of a constant sequence is that constant. */
  lemma MedianOfConstant(values: seq<real>, c: real)
    requires |values| > 0
    requires forall i :: 0 <= i < |values| ==> values[i] == c
    ensures Median(values) == c
  {
    MedianBounds(values, c, c);
  }

  /** `Math.ceil` on reals. */
  function Ceil(x: real): int
  {
    if x.Floor as real == x then x.Floor else x.Floor + 1
  }

  /**
    `ss.quantileSorted(x, p)` for a sorted, non-empty `x` and `0 <= p <= 1`:
    the last element for p = 1, the first for p = 0, element `ceil(n p) - 1`
    when `n p` is fractional, otherwise the mean of elements `n p - 1` and
    `n p` for even n and element `n p` for odd n.
   */
  function QuantileSorted(x: seq<real>, p: real): (r: real)
    requires |x| > 0 && 0.0 <= p <= 1.0
    ensures exists i, j :: 0 <= i < |x| && 0 <= j < |x| && x[i] <= r <= x[j]
  {
    var idx := (|x| as real) * p;
    assert 0.0 < p < 1.0 ==> 0.0 < idx < |x| as real by {
      if 0.0 < p < 1.0 {
        assert (|x| as real) * (1.0 - p) > 0.0;
      }
    }
    if p == 1.0 then x[|x| - 1]
    else if p == 0.0 then x[0]
    else if idx.Floor as real != idx then x[Ceil(idx) - 1]
    else if |x| % 2 == 0 then
      var k := idx.Floor;
      var lo := if x[k - 1] <= x[k] then k - 1 else k;
      var hi := if x[k - 1] <= x[k] then k else k - 1;
      assert x[lo] <= (x[k - 1] + x[k]) / 2.0 <= x[hi];
      (x[k - 1] + x[k]) / 2.0
    else x[idx.Floor]
  }

  /** The lowest index whose element a quantile at rank n·p can fall below. */
  function RankLow(n: nat, p: real): int
  {
    var idx := (n as real) * p;
    if idx.Floor as real != idx then Ceil(idx) - 1
    else if n % 2 == 0 then idx.Floor - 1
    else idx.Floor
  }

  /** The highest index whose element a quantile at rank n·p can rise above. */
  function RankHigh(n: nat, p: real): int
  {
    var idx := (n as real) * p;
    if idx.Floor as real != idx then Ceil(idx) - 1 else idx.Floor
  }

  /** Strictly inside (0, 1), a quantile lies between the elements at its low and high rank. */
  lemma QuantileBracket(x: seq<real>, p: real)
    requires |x| > 0 && 0.0 < p < 1.0
    requires forall i, j :: 0 <= i < j < |x| ==> x[i] <= x[j]
    ensures 0 <= RankLow(|x|, p) <= RankHigh(|x|, p) < |x|
    ensures x[RankLow(|x|, p)] <= QuantileSorted(x, p) <= x[RankHigh(|x|, p)]
  {
    var idx := (|x| as real) * p;
    assert (|x| as real) * (1.0 - p) > 0.0;
    assert 0.0 < idx < |x| as real;
  }

  /** A larger p never moves the ranks down: the high rank of p is at most the low rank of q. */
  lemma RanksOrdered(n: nat, p: real, q: real)
    requires n > 0 && 0.0 < p < q < 1.0
    ensures RankHigh(n, p) <= RankLow(n, q)
  {
    var a := (n as real) * p;
    var b := (n as real) * q;
    assert b - a == (n as real) * (q - p) > 0.0;
    assert a.Floor <= b.Floor;
    assert b.Floor as real == b ==> a.Floor < b.Floor;
  }

  /** On a sorted list the quantile never decreases in p. */
  lemma QuantileMonotone(x: seq<real>, p: real, q: real)
    requires |x| > 0 && 0.0 <= p <= q <= 1.0
    requires forall i, j :: 0 <= i < j < |x| ==> x[i] <= x[j]
    ensures QuantileSorted(x, p) <= QuantileSorted(x, q)
  {
    if p == q {
    } else if p == 0.0 {
      if q < 1.0 {
        QuantileBracket(x, q);
      }
    } else if q == 1.0 {
      QuantileBracket(x, p);
    } else {
      QuantileBracket(x, p);
      QuantileBracket(x, q);
      RanksOrdered(|x|, p, q);
    }
  }

  /** The first quartile never exceeds the third, so the interquartile range is never negative. */
  lemma QuartilesOrdered(x: seq<real>)
    requires |x| > 0
    requires forall i, j :: 0 <= i < j < |x| ==> x[i] <= x[j]
    ensures QuantileSorted(x, 0.25) <= QuantileSorted(x, 0.75)
  {
    QuantileMonotone(x, 0.25, 0.75);
  }
}
