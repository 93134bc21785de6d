/**
 * The statistics a pipeline stage derives from its latency samples:
 * the arithmetic mean and nearest-rank percentiles taken on a sorted copy.
 * Latencies are reals (milliseconds); an empty sample list yields 0 everywhere.
 */
module Stats {

  /** Sum of the samples, folded from the left as they were appended. */
  function Sum(s: seq<real>): real
  {
    if s == [] then 0.0 else Sum(s[..|s| - 1]) + s[|s| - 1]
  }

  /** `statistics.mean(latencies) if latencies else 0`. */
  function Mean(s: seq<real>): (m: real)
    ensures s == [] ==> m == 0.0
  {
    if s == [] then 0.0 else Sum(s) / (|s| as real)
  }

  lemma {:induction false} SumBounds(s: seq<real>, lo: real, hi: real)
    requires forall i :: 0 <= i < |s| ==> lo <= s[i] <= hi
    ensures (|s| as real) * lo <= Sum(s) <= (|s| as real) * hi
  {
    if s != [] {
      SumBounds(s[..|s| - 1], lo, hi);
      assert (|s| as real) * lo == ((|s| - 1) as real) * lo + lo;
      assert (|s| as real) * hi == ((|s| - 1) as real) * hi + hi;
    }
  }

  /** The mean of a non-empty sample list lies between any lower and upper bound of its samples. */
  lemma MeanBetween(s: seq<real>, lo: real, hi: real)
    requires s != []
    requires forall i :: 0 <= i < |s| ==> lo <= s[i] <= hi
    ensures lo <= Mean(s) <= hi
  {
    SumBounds(s, lo, hi);
    var n := |s| as real;
    assert n * lo <= Sum(s) <= n * hi;
    assert lo == n * lo / n && hi == n * hi / n;
  }

  ghost predicate Sorted(s: seq<real>)
  {
    forall i, j :: 0 <= i < j < |s| ==> s[i] <= s[j]
  }

  /** Inserts `x` into a sorted list, before the first element not below it. */
  function Insert(x: real, s: seq<real>): (r: seq<real>)
    requires Sorted(s)
    ensures |r| == |s| + 1
    ensures r[0] == if s == [] || x <= s[0] then x else s[0]
    ensures Sorted(r)
    ensures multiset(r) == multiset(s) + multiset{x}
  {
    if s == [] || x <= s[0] then
      [x] + s
    else
      assert s == [s[0]] + s[1..];
      var rest := Insert(x, s[1..]);
      assert forall j :: 0 <= j < |rest| ==> s[0] <= rest[0] <= rest[j];
      [s[0]] + rest
  }

  /** Python's `sorted(latencies)`: the ascending permutation of the samples. */
  function Sort(s: seq<real>): (r: seq<real>)
    ensures Sorted(r)
    ensures multiset(r) == multiset(s)
    ensures |r| == |s|
  {
    if s == [] then []
    else
      assert s == s[..|s| - 1] + [s[|s| - 1]];
      var r := Insert(s[|s| - 1], Sort(s[..|s| - 1]));
      assert |r| == |multiset(r)| == |multiset(s)| == |s|;
      r
  }

  /** Two sorted lists holding the same multiset of samples are the same list. */
  lemma {:induction false} SortedUnique(a: seq<real>, b: seq<real>)
    requires Sorted(a) && Sorted(b)
    requires multiset(a) == multiset(b)
    ensures a == b
  {
    assert |a| == |multiset(a)| == |multiset(b)| == |b|;
    if a != [] {
      assert a[0] in multiset(b);
      assert b[0] in multiset(a);
      assert a[0] == b[0];
      assert a == [a[0]] + a[1..];
      assert b == [b[0]] + b[1..];
      assert multiset(a[1..]) == multiset(a) - multiset{a[0]};
      assert multiset(b[1..]) == multiset(b) - multiset{b[0]};
      SortedUnique(a[1..], b[1..]);
    }
  }

  /** The sorted copy of an already sorted list is the list itself. */
  lemma SortOfSorted(s: seq<real>)
    requires Sorted(s)
    ensures Sort(s) == s
  {
    SortedUnique(Sort(s), s);
  }

  /** Index of the `percent` percentile among `n` samples: `int(n * percent / 100)`. */
  function Rank(n: nat, percent: nat): nat
  {
    n * percent / 100
  }

  lemma RankBelow(n: nat, percent: nat)
    requires 1 <= n && percent < 100
    ensures Rank(n, percent) < n
  {
    assert n * percent <= n * 99 < n * 100;
  }

  lemma RankMonotone(n: nat, p: nat, q: nat)
    requires p <= q
    ensures Rank(n, p) <= Rank(n, q)
  {
    assert n * p <= n * q;
  }

  /** Element at rank `k` of the sorted samples; always one of the samples. */
  function NearestRank(s: seq<real>, k: nat): (r: real)
    requires k < |s|
    ensures r in s
  {
    var sorted := Sort(s);
    assert sorted[k] in multiset(sorted);
    sorted[k]
  }

  /** A higher rank never selects a smaller sample. */
  lemma NearestRankMonotone(s: seq<real>, j: nat, k: nat)
    requires j <= k < |s|
    ensures NearestRank(s, j) <= NearestRank(s, k)
  {
    var sorted := Sort(s);
    assert Sorted(sorted);
  }

  /** `p50`: the sample at index `int(n * 0.50)` of the sorted samples, or 0 when there are none. */
  function P50(s: seq<real>): (r: real)
    ensures s == [] ==> r == 0.0
    ensures s != [] ==> r in s
  {
    if s == [] then 0.0 else RankBelow(|s|, 50); NearestRank(s, Rank(|s|, 50))
  }

  /** `p95`: the sample at index `int(n * 0.95)` of the sorted samples, or 0 when there are none. */
  function P95(s: seq<real>): (r: real)
    ensures s == [] ==> r == 0.0
    ensures s != [] ==> r in s
  {
    if s == [] then 0.0 else RankBelow(|s|, 95); NearestRank(s, Rank(|s|, 95))
  }

  /** Index used by `p99`: `min(int(n * 0.99), n - 1)`. */
  function P99Index(n: nat): (k: nat)
    requires 1 <= n
    ensures k < n
  {
    if Rank(n, 99) < n - 1 then Rank(n, 99) else n - 1
  }

  /** `p99`: the sample at the clamped index of the sorted samples, or 0 when there are none. */
  function P99(s: seq<real>): (r: real)
    ensures s == [] ==> r == 0.0
    ensures s != [] ==> r in s
  {
    if s == [] then 0.0 else NearestRank(s, P99Index(|s|))
  }

  /** With exact integer ranks the clamp on the p99 index never changes it. */
  lemma P99ClampInactive(n: nat)
    requires 1 <= n
    ensures P99Index(n) == Rank(n, 99)
  {
    RankBelow(n, 99);
  }

  /** The three percentiles are ordered: p50 <= p95 <= p99. */
  lemma PercentilesOrdered(s: seq<real>)
    ensures P50(s) <= P95(s) <= P99(s)
  {
    if s != [] {
      var n := |s|;
      RankMonotone(n, 50, 95);
      RankBelow(n, 50);
      RankBelow(n, 95);
      P99ClampInactive(n);
      RankMonotone(n, 95, 99);
      NearestRankMonotone(s, Rank(n, 50), Rank(n, 95));
      NearestRankMonotone(s, Rank(n, 95), P99Index(n));
    }
  }

  /** Every percentile lies between the smallest and the largest sample. */
  lemma PercentilesWithinSamples(s: seq<real>, lo: real, hi: real)
    requires s != []
    requires forall i :: 0 <= i < |s| ==> lo <= s[i] <= hi
    ensures lo <= P50(s) <= hi && lo <= P95(s) <= hi && lo <= P99(s) <= hi
  {
  }

  /** The percentiles depend only on which samples were recorded, not on their order. */
  lemma PercentilesIgnoreOrder(s: seq<real>, t: seq<real>)
    requires multiset(s) == multiset(t)
    ensures P50(s) == P50(t) && P95(s) == P95(t) && P99(s) == P99(t)
  {
    SortedUnique(Sort(s), Sort(t));
    assert |s| == |multiset(s)| == |multiset(t)| == |t|;
  }

  /** The samples 0.0, 1.0, ..., (n-1).0. */
  function Range(n: nat): seq<real>
  {
    seq(n, i => i as real)
  }

  lemma {:induction false} SumRange(n: nat)
    ensures Sum(Range(n)) == (n as real) * ((n as real) - 1.0) / 2.0
  {
    if n > 0 {
      assert Range(n)[..n - 1] == Range(n - 1);
      SumRange(n - 1);
    }
  }

  /** On the samples 0..n-1 each percentile is the value of its rank. */
  lemma RangePercentiles(n: nat)
    requires 1 <= n
    ensures P50(Range(n)) == Rank(n, 50) as real
    ensures P95(Range(n)) == Rank(n, 95) as real
    ensures P99(Range(n)) == P99Index(n) as real
  {
    var s := Range(n);
    assert |s| == n && Sorted(s);
    SortOfSorted(s);
    var k50, k95, k99 := Rank(n, 50), Rank(n, 95), P99Index(n);
    RankBelow(n, 50);
    RankBelow(n, 95);
    assert P50(s) == NearestRank(s, k50) == s[k50];
    assert P95(s) == NearestRank(s, k95) == s[k95];
    assert P99(s) == NearestRank(s, k99) == s[k99];
  }

  lemma MulDivCancel(m: real, x: real)
    requires m > 0.0
    ensures (m * x) / m == x
  {
  }

  /** On the samples 0..n-1 the mean is (n-1)/2. */
  lemma RangeMean(n: nat)
    requires 1 <= n
    ensures Mean(Range(n)) == ((n as real) - 1.0) / 2.0
  {
    SumRange(n);
    var m := n as real;
    var half := (m - 1.0) / 2.0;
    assert m >= 1.0;
    assert Sum(Range(n)) == m * half;
    MulDivCancel(m, half);
  }

  /** One hundred samples valued 0..99: p50 is 50, p95 is 95 and the mean is 49.5. */
  lemma HundredSamples()
    ensures P50(Range(100)) == 50.0
    ensures P95(Range(100)) == 95.0
    ensures P99(Range(100)) == 99.0
    ensures Mean(Range(100)) == 49.5
  {
    RangePercentiles(100);
    RangeMean(100);
  }
}
