/** The log-spaced latency histogram: its buckets, its quantile, and what quantisation costs. */
module Histogram {
  import opened Numbers
  import opened Seqs

  const HIST_MIN_MS := 0.5
  const HIST_BUCKETS := 128

  /** The upper edge of bucket `i`; `growth` is the ratio of neighbouring edges. */
  function Edge(growth: real, i: nat): real {
    if i == 0 then HIST_MIN_MS else Edge(growth, i - 1) * growth
  }

  /** The first bucket from `i` on whose upper edge lies above `ms`, and the last one for anything larger. */
  function IndexFrom(growth: real, ms: real, i: nat): (r: nat)
    requires i < HIST_BUCKETS
    ensures i <= r < HIST_BUCKETS
    decreases HIST_BUCKETS - i
  {
    if i == HIST_BUCKETS - 1 || ms < Edge(growth, i) then i else IndexFrom(growth, ms, i + 1)
  }

  function BucketIndex(growth: real, ms: real): (r: nat)
    ensures r < HIST_BUCKETS
  {
    if ms <= HIST_MIN_MS then 0 else IndexFrom(growth, ms, 1)
  }

  lemma Times(a: real, b: real, g: real)
    requires a <= b && 0.0 <= g
    ensures a * g <= b * g
  {
  }

  lemma Grows(a: real, g: real)
    requires 0.0 <= a && 1.0 <= g
    ensures a <= a * g
  {
  }

  lemma {:induction false} EdgePositive(growth: real, i: nat)
    requires 1.0 <= growth
    ensures HIST_MIN_MS <= Edge(growth, i)
  {
    if i != 0 {
      EdgePositive(growth, i - 1);
      Grows(Edge(growth, i - 1), growth);
    }
  }

  lemma {:induction false} EdgesIncrease(growth: real, i: nat, j: nat)
    requires 1.0 <= growth && i <= j
    ensures Edge(growth, i) <= Edge(growth, j)
  {
    if i < j {
      EdgesIncrease(growth, i, j - 1);
      EdgePositive(growth, j - 1);
      Grows(Edge(growth, j - 1), growth);
    }
  }

  // ---- one observation ----

  lemma {:induction false} IndexFromAbove(growth: real, ms: real, i: nat)
    requires i < HIST_BUCKETS
    ensures var r := IndexFrom(growth, ms, i);
            && (r < HIST_BUCKETS - 1 ==> ms < Edge(growth, r))
            && (i < r ==> Edge(growth, r - 1) <= ms)
    decreases HIST_BUCKETS - i
  {
    if !(i == HIST_BUCKETS - 1 || ms < Edge(growth, i)) {
      IndexFromAbove(growth, ms, i + 1);
    }
  }

  lemma {:induction false} IndexFromMonotone(growth: real, a: real, b: real, i: nat)
    requires i < HIST_BUCKETS && a <= b
    ensures IndexFrom(growth, a, i) <= IndexFrom(growth, b, i)
    decreases HIST_BUCKETS - i
  {
    if !(i == HIST_BUCKETS - 1 || a < Edge(growth, i)) {
      IndexFromMonotone(growth, a, b, i + 1);
    }
  }

  /** Bucketing preserves order. */
  lemma IndexMonotone(growth: real, a: real, b: real)
    requires a <= b
    ensures BucketIndex(growth, a) <= BucketIndex(growth, b)
  {
    if HIST_MIN_MS < a {
      IndexFromMonotone(growth, a, b, 1);
    }
  }

  /** The upper edge understates an observation exactly when it lies beyond the last edge. */
  lemma NeverUnderstatesIff(growth: real, ms: real)
    requires 1.0 <= growth
    ensures ms <= Edge(growth, BucketIndex(growth, ms)) <==> ms <= Edge(growth, HIST_BUCKETS - 1)
  {
    var r := BucketIndex(growth, ms);
    EdgesIncrease(growth, r, HIST_BUCKETS - 1);
    EdgePositive(growth, HIST_BUCKETS - 1);
    if HIST_MIN_MS < ms {
      IndexFromAbove(growth, ms, 1);
    }
  }

  /** Above the smallest edge it overstates by at most one growth factor. */
  lemma OverstatesByOneFactor(growth: real, ms: real)
    requires 1.0 <= growth && HIST_MIN_MS < ms
    ensures Edge(growth, BucketIndex(growth, ms)) <= ms * growth
  {
    LowerEdge(growth, ms);
    NextEdge(growth, BucketIndex(growth, ms), ms);
  }

  lemma NextEdge(growth: real, i: nat, ms: real)
    requires 0.0 <= growth && 1 <= i && Edge(growth, i - 1) <= ms
    ensures Edge(growth, i) <= ms * growth
  {
    Times(Edge(growth, i - 1), ms, growth);
  }

  lemma LowerEdge(growth: real, ms: real)
    requires HIST_MIN_MS < ms
    ensures 1 <= BucketIndex(growth, ms) && Edge(growth, BucketIndex(growth, ms) - 1) <= ms
  {
    IndexFromAbove(growth, ms, 1);
    assert Edge(growth, 0) == HIST_MIN_MS;
  }

  // ---- the quantile ----

  /** How many observations the buckets up to `i` hold. */
  function Cumulative(hist: seq<nat>, i: nat): nat
    requires i < |hist|
  {
    hist[i] + if i == 0 then 0 else Cumulative(hist, i - 1)
  }

  /** The rank that a quantile asks for. */
  function Target(q: real, total: nat): int {
    Ceil(q * total as real)
  }

  /** Bucket `i` ends the search for `target`: it is not empty and the count has reached the target. */
  predicate Stops(hist: seq<nat>, target: int, i: nat)
    requires i < |hist|
  {
    hist[i] != 0 && target <= Cumulative(hist, i)
  }

  /** `r` is the edge of the first bucket that ends the search, or the last edge if none does. */
  ghost predicate IsQuantile(growth: real, hist: seq<nat>, target: int, r: real)
    requires |hist| == HIST_BUCKETS
  {
    exists i :: 0 <= i < HIST_BUCKETS && r == Edge(growth, i)
                && (forall j :: 0 <= j < i ==> !Stops(hist, target, j))
                && (Stops(hist, target, i) || i == HIST_BUCKETS - 1)
  }

  method QuantileMs(growth: real, hist: seq<nat>, total: nat, q: real) returns (r: real)
    requires |hist| == HIST_BUCKETS
    ensures total == 0 ==> r == 0.0
    ensures total != 0 ==> IsQuantile(growth, hist, Target(q, total), r)
  {
    if total == 0 {
      return 0.0;
    }
    var target := Target(q, total);
    var seen := 0;
    for i := 0 to |hist|
      invariant seen == if i == 0 then 0 else Cumulative(hist, i - 1)
      invariant forall j :: 0 <= j < i ==> !Stops(hist, target, j)
    {
      if hist[i] != 0 {
        seen := seen + hist[i];
        if target <= seen {
          return Edge(growth, i);
        }
      }
    }
    r := Edge(growth, HIST_BUCKETS - 1);
  }

  /** `hist` counts the durations `ds` by bucket. */
  ghost predicate Counts(growth: real, hist: seq<nat>, ds: seq<real>) {
    && |hist| == HIST_BUCKETS
    && forall i :: 0 <= i < HIST_BUCKETS ==> hist[i] == CountIf(ds, d => BucketIndex(growth, d) == i)
  }

  /** `v` is the k-th smallest of `ds`. */
  ghost predicate OrderStatistic(ds: seq<real>, k: int, v: real) {
    v in ds && CountIf(ds, d => d < v) < k <= CountIf(ds, d => d <= v)
  }

  /** The cumulative count of bucket `i` counts the durations of the buckets up to `i`. */
  lemma {:induction false} CumulativeCounts(growth: real, hist: seq<nat>, ds: seq<real>, i: nat)
    requires Counts(growth, hist, ds) && i < HIST_BUCKETS
    ensures Cumulative(hist, i) == CountIf(ds, d => BucketIndex(growth, d) <= i)
  {
    if i == 0 {
      CountIfSame(ds, d => BucketIndex(growth, d) == 0, d => BucketIndex(growth, d) <= 0);
    } else {
      CumulativeCounts(growth, hist, ds, i - 1);
      CountIfSplit(ds, d => BucketIndex(growth, d) <= i - 1, d => BucketIndex(growth, d) == i, d => BucketIndex(growth, d) <= i);
    }
  }

  /** Before the bucket of the target-th smallest duration the count has not reached the target. */
  lemma NotBefore(growth: real, hist: seq<nat>, ds: seq<real>, target: int, v: real, j: nat)
    requires Counts(growth, hist, ds) && OrderStatistic(ds, target, v) && j < BucketIndex(growth, v)
    ensures Cumulative(hist, j) < target
  {
    CumulativeCounts(growth, hist, ds, j);
    forall n | 0 <= n < |ds| && BucketIndex(growth, ds[n]) <= j ensures ds[n] < v {
      if v <= ds[n] {
        IndexMonotone(growth, v, ds[n]);
      }
    }
    CountIfAtMost(ds, d => BucketIndex(growth, d) <= j, d => d < v);
  }

  /** In that bucket it has. */
  lemma ReachedThere(growth: real, hist: seq<nat>, ds: seq<real>, target: int, v: real)
    requires Counts(growth, hist, ds) && OrderStatistic(ds, target, v)
    ensures Stops(hist, target, BucketIndex(growth, v))
  {
    var b := BucketIndex(growth, v);
    CumulativeCounts(growth, hist, ds, b);
    forall n | 0 <= n < |ds| && ds[n] <= v ensures BucketIndex(growth, ds[n]) <= b {
      IndexMonotone(growth, ds[n], v);
    }
    CountIfAtMost(ds, d => d <= v, d => BucketIndex(growth, d) <= b);
    var n :| 0 <= n < |ds| && ds[n] == v;
    CountIfSome(ds, d => BucketIndex(growth, d) == b, n);
  }

  /** The reported quantile is the edge of the bucket of the target-th smallest duration. */
  lemma QuantileIsEdge(growth: real, hist: seq<nat>, ds: seq<real>, target: int, v: real, r: real)
    requires Counts(growth, hist, ds) && OrderStatistic(ds, target, v) && IsQuantile(growth, hist, target, r)
    ensures r == Edge(growth, BucketIndex(growth, v))
  {
    var i :| 0 <= i < HIST_BUCKETS && r == Edge(growth, i)
             && (forall j :: 0 <= j < i ==> !Stops(hist, target, j))
             && (Stops(hist, target, i) || i == HIST_BUCKETS - 1);
    ReachedThere(growth, hist, ds, target, v);
    if i < BucketIndex(growth, v) {
      NotBefore(growth, hist, ds, target, v, i);
      assert false;
    }
  }

  /** So it understates the nearest-rank quantile only of a duration beyond the last edge, and overstates
      it by at most one growth factor. */
  lemma QuantileBrackets(growth: real, hist: seq<nat>, ds: seq<real>, target: int, v: real, r: real)
    requires 1.0 <= growth
    requires Counts(growth, hist, ds) && OrderStatistic(ds, target, v) && IsQuantile(growth, hist, target, r)
    ensures v <= r <==> v <= Edge(growth, HIST_BUCKETS - 1)
    ensures HIST_MIN_MS < v ==> r <= v * growth
  {
    QuantileIsEdge(growth, hist, ds, target, v, r);
    NeverUnderstatesIff(growth, v);
    if HIST_MIN_MS < v {
      OverstatesByOneFactor(growth, v);
    }
  }

  /** Every rank from 1 to the sample size has its order statistic: sorting finds it. */
  lemma OrderStatisticExists(ds: seq<real>, k: int) returns (v: real)
    requires 1 <= k <= |ds|
    ensures OrderStatistic(ds, k, v)
  {
    var key := (d: real) => d;
    var s := SortBy(key, ds);
    SortByMembers(key, ds);
    v := s[k-1];
    assert v in s;
    SortByCount(key, ds, d => d < v);
    SortByCount(key, ds, d => d <= v);
    assert SortedReals(s) by {
      SortBySorted(key, ds);
      forall i, j | 0 <= i < j < |s| ensures s[i] <= s[j] {
        assert key(s[i]) <= key(s[j]);
      }
    }
    SortedCounts(s, k);
  }

  /** And only one. */
  lemma OrderStatisticUnique(ds: seq<real>, k: int, v: real, w: real)
    requires OrderStatistic(ds, k, v) && OrderStatistic(ds, k, w)
    ensures v == w
  {
    if v < w {
      CountIfAtMost(ds, d => d <= v, d => d < w);
    } else if w < v {
      CountIfAtMost(ds, d => d <= w, d => d < v);
    }
  }

  /** The rank of a quantile lies within the sample. */
  lemma TargetInRange(q: real, total: nat)
    requires 0.0 < q <= 1.0 && 0 < total
    ensures 1 <= Target(q, total) <= total
    ensures (Target(q, total) - 1) as real < q * total as real <= Target(q, total) as real
  {
    assert 0.0 < q * total as real <= total as real;
  }

  /** `r` is reported for `v`: not below it unless it lies beyond the last edge, and at most one factor above. */
  predicate ReportedFor(growth: real, v: real, r: real) {
    (v <= r <==> v <= Edge(growth, HIST_BUCKETS - 1)) && (HIST_MIN_MS < v ==> r <= v * growth)
  }

  /** `v` is the nearest-rank quantile of `ds`: the k-th smallest, where k is the least rank that covers the share `q`. */
  ghost predicate NearestRank(ds: seq<real>, q: real, k: int, v: real) {
    (k - 1) as real < q * |ds| as real <= k as real && OrderStatistic(ds, k, v)
  }

  /** `r` is reported for it. */
  ghost predicate BracketsQuantile(growth: real, ds: seq<real>, q: real, r: real) {
    exists k: int, v: real :: NearestRank(ds, q, k, v) && ReportedFor(growth, v, r)
  }

  ghost predicate SortedReals(s: seq<real>) {
    forall i, j :: 0 <= i < j < |s| ==> s[i] <= s[j]
  }

  lemma SortedCounts(s: seq<real>, k: int)
    requires SortedReals(s) && 1 <= k <= |s|
    ensures CountIf(s, d => d < s[k-1]) < k <= CountIf(s, d => d <= s[k-1])
  {
    FewerBelow(s, k);
    EnoughUpTo(s, k);
  }

  lemma FewerBelow(s: seq<real>, k: int)
    requires SortedReals(s) && 1 <= k <= |s|
    ensures CountIf(s, d => d < s[k-1]) < k
  {
    var p := (d: real) => d < s[k-1];
    assert s == s[..k-1] + s[k-1..];
    CountIfConcat(s[..k-1], s[k-1..], p);
    CountIfNone(s[k-1..], p);
    CountIfBound(s[..k-1], p);
    CountIfSame(s, p, d => d < s[k-1]);
  }

  lemma EnoughUpTo(s: seq<real>, k: int)
    requires SortedReals(s) && 1 <= k <= |s|
    ensures k <= CountIf(s, d => d <= s[k-1])
  {
    CountIfPrefix(s, k, d => d <= s[k-1]);
  }

  lemma CountIfPrefix<T>(s: seq<T>, k: nat, p: T -> bool)
    requires k <= |s| && forall i :: 0 <= i < k ==> p(s[i])
    ensures k <= CountIf(s, p)
  {
    assert s == s[..k] + s[k..];
    CountIfConcat(s[..k], s[k..], p);
    CountIfAll(s[..k], p);
  }
}
