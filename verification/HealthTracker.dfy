/** The health tracker in place: constant work per outcome and per read, equal to counting the whole history. */
module HealthTracker {
  import opened Numbers
  import opened Classes
  import opened Seqs
  import opened Histogram
  import opened HealthRing

  function BucketTest(growth: real, i: nat): Outcome -> bool {
    o => InBucket(growth, o, i)
  }

  /** The bucket that holds exactly the outcomes of one epoch. */
  function Summary(growth: real, history: seq<Obs>, e: int): Bucket {
    Bucket(e, AtEpoch(history, e, IsServed), AtEpoch(history, e, IsError), AtEpoch(history, e, IsRejected),
           AtEpoch(history, e, IsAbandoned), seq(HIST_BUCKETS, i requires 0 <= i => AtEpoch(history, e, BucketTest(growth, i))))
  }

  function Bump(hist: seq<nat>, i: nat): seq<nat>
    requires i < |hist|
  {
    hist[i := hist[i] + 1]
  }

  /** One more outcome in a bucket. */
  function Added(growth: real, b: Bucket, o: Outcome): Bucket
    requires |b.hist| == HIST_BUCKETS
  {
    match o
    case Served(ms, ok) =>
      b.(served := b.served + 1, hist := Bump(b.hist, BucketIndex(growth, ms)), errors := if ok then b.errors else b.errors + 1)
    case Rejected => b.(rejected := b.rejected + 1, errors := b.errors + 1)
    case Abandoned => b.(abandoned := b.abandoned + 1)
  }

  lemma AtEpochAppend(history: seq<Obs>, o: Obs, e: int, p: Outcome -> bool)
    ensures AtEpoch(history + [o], e, p) == AtEpoch(history, e, p) + if o.epoch == e && p(o.outcome) then 1 else 0
  {
    assert (history + [o])[..|history + [o]|-1] == history;
  }

  lemma SummaryAppend(growth: real, history: seq<Obs>, o: Obs, e: int)
    ensures Summary(growth, history + [o], e)
            == if o.epoch == e then Added(growth, Summary(growth, history, e), o.outcome) else Summary(growth, history, e)
  {
    AtEpochAppend(history, o, e, IsServed);
    AtEpochAppend(history, o, e, IsError);
    AtEpochAppend(history, o, e, IsRejected);
    AtEpochAppend(history, o, e, IsAbandoned);
    var before, after := Summary(growth, history, e), Summary(growth, history + [o], e);
    forall i | 0 <= i < HIST_BUCKETS
      ensures after.hist[i] == before.hist[i] + if o.epoch == e && InBucket(growth, o.outcome, i) then 1 else 0
    {
      AtEpochAppend(history, o, e, BucketTest(growth, i));
    }
    if o.epoch == e && o.outcome.Served? {
      assert after.hist == Bump(before.hist, BucketIndex(growth, o.outcome.ms));
    } else {
      assert after.hist == before.hist;
    }
  }

  /** An epoch without outcomes is summarised by a reset bucket. */
  lemma SummaryEmpty(growth: real, history: seq<Obs>, e: int)
    requires forall i :: 0 <= i < |history| ==> history[i].epoch != e
    ensures Summary(growth, history, e) == Reset(e)
  {
    CountIfNone(history, EpochIs(e, IsServed));
    CountIfNone(history, EpochIs(e, IsError));
    CountIfNone(history, EpochIs(e, IsRejected));
    CountIfNone(history, EpochIs(e, IsAbandoned));
    forall i | 0 <= i < HIST_BUCKETS ensures AtEpoch(history, e, BucketTest(growth, i)) == 0 {
      CountIfNone(history, EpochIs(e, BucketTest(growth, i)));
    }
    assert Summary(growth, history, e).hist == EmptyHist();
  }

  /** Every slot summarises the epoch that it holds. */
  ghost predicate Summarised(growth: real, history: seq<Obs>, bs: seq<Bucket>) {
    bs != [] && forall k :: 0 <= k < |bs| ==> bs[k] == Summary(growth, history, SlotEpochs(history, |bs|)[k])
  }

  /** Once the outcome is in its bucket, every slot again summarises the epoch it holds. */
  lemma RecordKeeps(growth: real, h: seq<Obs>, last: int, obs: Obs, bs: seq<Bucket>)
    requires Ordered(h, last) && 0 <= obs.epoch && last <= obs.epoch && Summarised(growth, h, bs)
    ensures var r := bs[obs.epoch % |bs| := Added(growth, Summary(growth, h, obs.epoch), obs.outcome)];
            Summarised(growth, h + [obs], r) && Ordered(h + [obs], obs.epoch)
  {
    var j, es := obs.epoch % |bs|, SlotEpochs(h, |bs|);
    assert (h + [obs])[..|h + [obs]|-1] == h;
    SlotFacts(h, |bs|, last);
    var r := bs[j := Added(growth, Summary(growth, h, obs.epoch), obs.outcome)];
    forall k | 0 <= k < |bs| ensures r[k] == Summary(growth, h + [obs], SlotEpochs(h + [obs], |bs|)[k]) {
      SummaryAppend(growth, h, obs, if k == j then obs.epoch else es[k]);
    }
  }

  function Live(bs: seq<Bucket>, lo: int, hi: int): seq<Bucket> {
    if bs == [] then [] else
    Live(bs[..|bs|-1], lo, hi) + if lo <= bs[|bs|-1].epoch <= hi then [bs[|bs|-1]] else []
  }

  /** Adding a field up over the live buckets is adding the ring up. */
  lemma {:induction false} LiveSum(growth: real, history: seq<Obs>, bs: seq<Bucket>, es: seq<int>, lo: int, hi: int, f: Bucket -> int, p: Outcome -> bool)
    requires |bs| == |es| && forall j :: 0 <= j < |bs| ==> bs[j] == Summary(growth, history, es[j])
    requires forall e: int :: f(Summary(growth, history, e)) == AtEpoch(history, e, p)
    ensures Sum(Live(bs, lo, hi), f) == RingSum(history, es, lo, hi, p)
  {
    if bs != [] {
      var k := |bs| - 1;
      LiveSum(growth, history, bs[..k], es[..k], lo, hi, f, p);
      assert bs[k] == Summary(growth, history, es[k]);
      if lo <= bs[k].epoch <= hi {
        SumAppend(Live(bs[..k], lo, hi), bs[k], f);
      } else {
        assert Live(bs[..k], lo, hi) + [] == Live(bs[..k], lo, hi);
      }
    }
  }

  lemma SumAppend<T>(s: seq<T>, x: T, f: T -> int)
    ensures Sum(s + [x], f) == Sum(s, f) + f(x)
  {
    assert (s + [x])[..|s + [x]|-1] == s;
  }

  const SERVED: Bucket -> int := (b: Bucket) => b.served
  const ERRORS: Bucket -> int := (b: Bucket) => b.errors
  const REJECTED: Bucket -> int := (b: Bucket) => b.rejected
  const ABANDONED: Bucket -> int := (b: Bucket) => b.abandoned

  function Cell(i: nat): Bucket -> int {
    (b: Bucket) => if i < |b.hist| then b.hist[i] else 0
  }

  datatype WindowStats = WindowStats(
    served: int, errors: int, rejected: int, abandoned: int, p50: real, p99: real, errRate: real)

  function Ratio(errors: int, total: int): real {
    if total == 0 then 0.0 else errors as real / total as real
  }

  /** Python's `round`: to the nearest integer, ties to the even one. */
  function Round(x: real): int {
    var f := x.Floor;
    if x - f as real < 0.5 then f else if x - f as real > 0.5 then f + 1 else if f % 2 == 0 then f else f + 1
  }

  // ---- seconds ----

  /** Every outcome carries the number of its bucket: bucket `e` covers the seconds from `e` to `e + 1` widths. */
  ghost predicate Timed(history: seq<Obs>, width: real) {
    forall i :: 0 <= i < |history| ==> InSlice(history[i].epoch, history[i].at, width)
  }

  predicate InSlice(epoch: int, at: real, width: real) {
    epoch as real * width <= at < (epoch + 1) as real * width
  }

  /** `n` counts the rolling window: everything that is at most the window less one bucket old, and nothing that is as
      old as the window. */
  ghost predicate CountsWindow(history: seq<Obs>, now: real, windowS: real, bucketS: real, p: Outcome -> bool, n: int) {
    && CountIf(history, (o: Obs) => now - o.at <= windowS - bucketS && p(o.outcome)) <= n
    && n <= CountIf(history, (o: Obs) => now - o.at < windowS && p(o.outcome))
  }

  /** `n` counts the error window of length `errS`: everything at least one bucket and at most `errS` old, and nothing
      that is one bucket older. */
  ghost predicate CountsErrorWindow(history: seq<Obs>, now: real, errS: real, bucketS: real, p: Outcome -> bool, n: int) {
    && CountIf(history, (o: Obs) => bucketS <= now - o.at <= errS && p(o.outcome)) <= n
    && n <= CountIf(history, (o: Obs) => 0.0 < now - o.at < errS + bucketS && p(o.outcome))
  }

  /** `rate` is the share of errors among the requests of the error window that were served or shed, and 0 if there
      were none. */
  ghost predicate IsErrorRate(history: seq<Obs>, now: real, errS: real, bucketS: real, rate: real) {
    exists errors: nat, served: nat, rejected: nat ::
      && CountsErrorWindow(history, now, errS, bucketS, IsError, errors)
      && CountsErrorWindow(history, now, errS, bucketS, IsServed, served)
      && CountsErrorWindow(history, now, errS, bucketS, IsRejected, rejected)
      && IsShare(errors, served + rejected, rate)
  }

  predicate IsShare(part: nat, whole: nat, share: real) {
    if whole == 0 then share == 0.0 else share * whole as real == part as real
  }

  lemma RatioIsShare(part: nat, whole: nat)
    ensures IsShare(part, whole, Ratio(part, whole))
  {
  }

  /** A slice that starts `k` slices before the one of `now` is more than `k - 1` and less than `k + 1` widths old. */
  lemma SliceAge(e: int, at: real, h: int, now: real, width: real, k: int)
    requires 0.0 < width && InSlice(e, at, width) && InSlice(h, now, width)
    ensures now - at <= Mul(k as real, width) ==> h - k <= e
    ensures e <= h - k ==> Mul((k - 1) as real, width) < now - at
    ensures Mul(k as real, width) <= now - at ==> e <= h - k
  {
    MulDiff(h, k, width);
    if e < h - k {
      MulMonotone(e + 1, h - k, width);
    }
    if h - k < e {
      MulMonotone(h - k + 1, e, width);
      MulDiff(h + 1, k, width);
    }
    if e <= h - k {
      MulMonotone(e + 1, h - k + 1, width);
      MulDiff(h, k - 1, width);
    }
  }

  /** The bucket number is the whole part of the quotient. */
  lemma SliceOf(now: real, width: real)
    requires 0.0 < width
    ensures InSlice((now / width).Floor, now, width)
  {
    var q := now / width;
    assert q * width == now;
    Below(q.Floor as real, q, width);
    StrictlyBelow(q, (q.Floor + 1) as real, width);
  }

  lemma Below(x: real, y: real, width: real)
    requires x <= y && 0.0 < width
    ensures x * width <= y * width
  {
  }

  lemma StrictlyBelow(x: real, y: real, width: real)
    requires x < y && 0.0 < width
    ensures x * width < y * width
  {
  }

  lemma OneWidth(width: real)
    ensures Mul(1.0, width) == width && Mul(0.0, width) == 0.0
  {
  }

  /** The outcomes of the last `n` buckets, in seconds. */
  lemma WindowInSeconds(history: seq<Obs>, last: int, now: real, h: int, width: real, n: nat, p: Outcome -> bool)
    requires 0.0 < width && Timed(history, width) && Ordered(history, last) && last <= h && InSlice(h, now, width)
    ensures CountsWindow(history, now, Mul(n as real, width), width, p, Within(history, h - n + 1, h, p))
  {
    var windowS := Mul(n as real, width);
    MulDiff(n, 1, width);
    OneWidth(width);
    forall i | 0 <= i < |history|
      ensures now - history[i].at <= windowS - width ==> h - n + 1 <= history[i].epoch
      ensures h - n + 1 <= history[i].epoch ==> now - history[i].at < windowS
    {
      SliceAge(history[i].epoch, history[i].at, h, now, width, n - 1);
      SliceAge(history[i].epoch, history[i].at, h, now, width, n);
    }
    CountIfAtMost(history, (o: Obs) => now - o.at <= windowS - width && p(o.outcome), EpochIn(h - n + 1, h, p));
    CountIfAtMost(history, EpochIn(h - n + 1, h, p), (o: Obs) => now - o.at < windowS && p(o.outcome));
  }

  /** The outcomes of the `n` buckets before the current one, in seconds. */
  lemma ErrorWindowInSeconds(history: seq<Obs>, last: int, now: real, h: int, width: real, n: nat, p: Outcome -> bool)
    requires 0.0 < width && Timed(history, width) && Ordered(history, last) && last <= h && InSlice(h, now, width)
    ensures CountsErrorWindow(history, now, Mul(n as real, width), width, p, Within(history, h - n, h - 1, p))
  {
    var errS := Mul(n as real, width);
    MulDiff(n, -1, width);
    MulDiff(0, 1, width);
    OneWidth(width);
    forall i | 0 <= i < |history|
      ensures width <= now - history[i].at <= errS ==> h - n <= history[i].epoch <= h - 1
      ensures h - n <= history[i].epoch <= h - 1 ==> 0.0 < now - history[i].at < errS + width
    {
      SliceAge(history[i].epoch, history[i].at, h, now, width, n);
      SliceAge(history[i].epoch, history[i].at, h, now, width, n + 1);
      SliceAge(history[i].epoch, history[i].at, h, now, width, 1);
    }
    CountIfAtMost(history, (o: Obs) => width <= now - o.at <= errS && p(o.outcome), EpochIn(h - n, h - 1, p));
    CountIfAtMost(history, EpochIn(h - n, h - 1, p), (o: Obs) => 0.0 < now - o.at < errS + width && p(o.outcome));
  }

  lemma ErrorRateInSeconds(history: seq<Obs>, last: int, now: real, h: int, width: real, n: nat)
    requires 0.0 < width && Timed(history, width) && Ordered(history, last) && last <= h && InSlice(h, now, width)
    ensures IsErrorRate(history, now, Mul(n as real, width), width,
                        Ratio(Within(history, h - n, h - 1, IsError),
                              Within(history, h - n, h - 1, IsServed) + Within(history, h - n, h - 1, IsRejected)))
  {
    ErrorWindowInSeconds(history, last, now, h, width, n, IsError);
    ErrorWindowInSeconds(history, last, now, h, width, n, IsServed);
    ErrorWindowInSeconds(history, last, now, h, width, n, IsRejected);
    RatioIsShare(Within(history, h - n, h - 1, IsError),
                 Within(history, h - n, h - 1, IsServed) + Within(history, h - n, h - 1, IsRejected));
  }

  lemma TimedAppend(history: seq<Obs>, o: Obs, width: real)
    requires Timed(history, width) && InSlice(o.epoch, o.at, width)
    ensures Timed(history + [o], width)
  {
  }

  lemma MulDiff(a: int, b: int, width: real)
    ensures Mul((a - b) as real, width) == Mul(a as real, width) - Mul(b as real, width)
  {
  }

  lemma MulMonotone(a: int, b: int, width: real)
    requires a <= b && 0.0 < width
    ensures Mul(a as real, width) <= Mul(b as real, width)
  {
  }

  /** To the nearest integer, and of two nearest to the even one. */
  lemma RoundIsNearest(x: real)
    ensures -0.5 <= x - Round(x) as real <= 0.5
    ensures x - Round(x) as real == 0.5 || x - Round(x) as real == -0.5 ==> Round(x) % 2 == 0
  {
  }

  /** `n` buckets are within half a bucket of one second, or a single bucket is already longer. */
  predicate IsErrorWindow(bucketS: real, n: int) {
    1 <= n && (n == 1 || Mul(n as real, bucketS) - 1.0 <= bucketS / 2.0) && 1.0 - Mul(n as real, bucketS) <= bucketS / 2.0
  }

  /** The error window is the whole number of buckets that comes closest to one second, and at least one bucket. */
  lemma ErrorWindowIsASecond(bucketS: real, n: nat)
    requires 0.0 < bucketS
    requires n == if Round(1.0 / bucketS) < 1 then 1 else Round(1.0 / bucketS)
    ensures IsErrorWindow(bucketS, n)
  {
    var q := 1.0 / bucketS;
    assert q * bucketS == 1.0;
    RoundIsNearest(q);
    NotShort(bucketS, n as real, q);
    if n != 1 {
      NotLong(bucketS, n as real, q);
    }
  }

  lemma NotLong(b: real, n: real, q: real)
    requires 0.0 < b && q * b == 1.0 && n <= q + 0.5
    ensures Mul(n, b) - 1.0 <= b / 2.0
  {
    Below(n, q + 0.5, b);
    HalfMore(q, b);
  }

  lemma NotShort(b: real, n: real, q: real)
    requires 0.0 < b && q * b == 1.0 && q <= n + 0.5
    ensures 1.0 - Mul(n, b) <= b / 2.0
  {
    Below(q, n + 0.5, b);
    HalfMore(n, b);
  }

  lemma HalfMore(x: real, b: real)
    ensures (x + 0.5) * b == x * b + b / 2.0
  {
  }

  class Tracker {
    const windowS: real
    const nBuckets: nat
    const growth: real
    const bucketS: real
    const nErrBuckets: nat
    const buckets: array<Bucket>
    ghost var history: seq<Obs>
    ghost var last: int

    ghost predicate Valid()
      reads this, buckets
    {
      && 0 < nBuckets == buckets.Length && 0.0 < bucketS && 0 < nErrBuckets
      && bucketS * nBuckets as real == windowS
      && Timed(history, bucketS)
      && Ordered(history, last)
      && Summarised(growth, history, buckets[..])
    }

    constructor (windowS: real, nBuckets: nat, growth: real)
      requires 0.0 < windowS && 0 < nBuckets
      ensures Valid() && fresh(buckets) && history == [] && last == 0
      ensures this.windowS == windowS && this.nBuckets == nBuckets && this.growth == growth
      ensures bucketS == windowS / nBuckets as real
      ensures nErrBuckets == if Round(1.0 / bucketS) < 1 then 1 else Round(1.0 / bucketS)
      ensures IsErrorWindow(bucketS, nErrBuckets)
    {
      this.windowS, this.nBuckets, this.growth := windowS, nBuckets, growth;
      var width := windowS / nBuckets as real;
      bucketS := width;
      nErrBuckets := if Round(1.0 / width) < 1 then 1 else Round(1.0 / width);
      buckets := new Bucket[nBuckets](_ => Reset(-1));
      history, last := [], 0;
      new;
      ErrorWindowIsASecond(bucketS, nErrBuckets);
      SummaryEmpty(growth, [], -1);
    }

    /** The epoch of an instant of the monotonic clock. */
    function Epoch(now: real): int
      requires bucketS != 0.0
    {
      (now / bucketS).Floor
    }

    /** The current bucket, reset if its slot still holds an older epoch. */
    method Current(now: real) returns (j: nat)
      requires Valid() && 0 <= Epoch(now) && last <= Epoch(now)
      modifies buckets
      ensures j == Epoch(now) % nBuckets && j < buckets.Length
      ensures buckets[..] == old(buckets[..])[j := Summary(growth, history, Epoch(now))]
    {
      var epoch := Epoch(now);
      j := epoch % nBuckets;
      assert buckets[..][j] == buckets[j];
      SlotFacts(history, nBuckets, last);
      if buckets[j].epoch != epoch {
        buckets[j] := Reset(epoch);
        forall i | 0 <= i < |history| ensures history[i].epoch != epoch {
          assert history[i].epoch <= SlotEpochs(history, nBuckets)[history[i].epoch % nBuckets];
        }
        SummaryEmpty(growth, history, epoch);
      }
    }

    method Record(now: real, o: Outcome)
      requires Valid() && 0 <= Epoch(now) && last <= Epoch(now)
      modifies this, buckets
      ensures Valid() && history == old(history) + [Obs(Epoch(now), o, now)] && last == Epoch(now)
    {
      ghost var obs := Obs(Epoch(now), o, now);
      SliceOf(now, bucketS);
      TimedAppend(history, obs, bucketS);
      RecordKeeps(growth, history, last, obs, buckets[..]);
      var j := Current(now);
      assert buckets[..][j] == buckets[j];
      buckets[j] := Added(growth, buckets[j], o);
      history, last := history + [obs], Epoch(now);
    }

    method LiveBuckets(nowEpoch: int, span: nat) returns (live: seq<Bucket>)
      requires Valid()
      ensures live == Live(buckets[..], nowEpoch - span + 1, nowEpoch)
    {
      var oldest := nowEpoch - span + 1;
      live := [];
      for k := 0 to buckets.Length
        invariant live == Live(buckets[..k], oldest, nowEpoch)
      {
        assert buckets[..k+1][..k] == buckets[..k];
        if oldest <= buckets[k].epoch <= nowEpoch {
          live := live + [buckets[k]];
        }
      }
      assert buckets[..buckets.Length] == buckets[..];
    }

    lemma SumsAgree(lo: int, hi: int, f: Bucket -> int, p: Outcome -> bool)
      requires Valid()
      requires forall e: int :: f(Summary(growth, history, e)) == AtEpoch(history, e, p)
      ensures Sum(Live(buckets[..], lo, hi), f) == RingSum(history, SlotEpochs(history, nBuckets), lo, hi, p)
    {
      LiveSum(growth, history, buckets[..], SlotEpochs(history, nBuckets), lo, hi, f, p);
    }

    /** The window in seconds: what is at most the window less one bucket old is counted, and nothing that is as
        old as the window; the error rate lags by at most one bucket. */
    method Stats(now: real) returns (w: WindowStats, ghost hist: seq<nat>)
      requires Valid() && last <= Epoch(now)
      ensures var hi := Epoch(now);
              var lo := hi - nBuckets + 1;
              && w.served == Within(history, lo, hi, IsServed)
              && w.errors == Within(history, lo, hi, IsError)
              && w.rejected == Within(history, lo, hi, IsRejected)
              && w.abandoned == Within(history, lo, hi, IsAbandoned)
              && |hist| == HIST_BUCKETS
              && (forall i :: 0 <= i < HIST_BUCKETS ==> hist[i] == Within(history, lo, hi, BucketTest(growth, i)))
              && (w.served == 0 ==> w.p50 == 0.0 && w.p99 == 0.0)
              && (w.served != 0 ==> IsQuantile(growth, hist, Target(0.50, w.served), w.p50)
                                    && IsQuantile(growth, hist, Target(0.99, w.served), w.p99))
      ensures 1.0 <= growth && w.served != 0 ==>
                var ds := Durations(history, Epoch(now) - nBuckets + 1, Epoch(now));
                BracketsQuantile(growth, ds, 0.50, w.p50) && BracketsQuantile(growth, ds, 0.99, w.p99)
      ensures nErrBuckets < nBuckets ==>
                w.errRate == Ratio(Within(history, Epoch(now) - nErrBuckets, Epoch(now) - 1, IsError),
                                   Within(history, Epoch(now) - nErrBuckets, Epoch(now) - 1, IsServed)
                                   + Within(history, Epoch(now) - nErrBuckets, Epoch(now) - 1, IsRejected))
      ensures CountsWindow(history, now, windowS, bucketS, IsServed, w.served)
      ensures CountsWindow(history, now, windowS, bucketS, IsError, w.errors)
      ensures CountsWindow(history, now, windowS, bucketS, IsRejected, w.rejected)
      ensures CountsWindow(history, now, windowS, bucketS, IsAbandoned, w.abandoned)
      ensures nErrBuckets < nBuckets ==>
                IsErrorRate(history, now, Mul(nErrBuckets as real, bucketS), bucketS, w.errRate)
    {
      w, hist := EpochStats(now);
      InSeconds(now);
    }

    /** The window's counts and quantiles, each equal to what the full history of the last `nBuckets` epochs
        gives; the error rate is over the `nErrBuckets` epochs before the current one. */
    method EpochStats(now: real) returns (w: WindowStats, ghost hist: seq<nat>)
      requires Valid() && last <= Epoch(now)
      ensures var hi := Epoch(now);
              var lo := hi - nBuckets + 1;
              && w.served == Within(history, lo, hi, IsServed)
              && w.errors == Within(history, lo, hi, IsError)
              && w.rejected == Within(history, lo, hi, IsRejected)
              && w.abandoned == Within(history, lo, hi, IsAbandoned)
              && |hist| == HIST_BUCKETS
              && (forall i :: 0 <= i < HIST_BUCKETS ==> hist[i] == Within(history, lo, hi, BucketTest(growth, i)))
              && (w.served == 0 ==> w.p50 == 0.0 && w.p99 == 0.0)
              && (w.served != 0 ==> IsQuantile(growth, hist, Target(0.50, w.served), w.p50)
                                    && IsQuantile(growth, hist, Target(0.99, w.served), w.p99))
      ensures 1.0 <= growth && w.served != 0 ==>
                var ds := Durations(history, Epoch(now) - nBuckets + 1, Epoch(now));
                BracketsQuantile(growth, ds, 0.50, w.p50) && BracketsQuantile(growth, ds, 0.99, w.p99)
      ensures nErrBuckets < nBuckets ==>
                w.errRate == Ratio(Within(history, Epoch(now) - nErrBuckets, Epoch(now) - 1, IsError),
                                   Within(history, Epoch(now) - nErrBuckets, Epoch(now) - 1, IsServed)
                                   + Within(history, Epoch(now) - nErrBuckets, Epoch(now) - 1, IsRejected))
    {
      var nowEpoch := Epoch(now);
      var served, errors, rejected, abandoned := WindowCounts(nowEpoch);
      var merged := WindowHistogram(nowEpoch);
      hist := merged;
      var p50 := WindowQuantile(nowEpoch, served, merged, 0.50);
      var p99 := WindowQuantile(nowEpoch, served, merged, 0.99);
      var errRate := ErrorRate(nowEpoch);
      w := WindowStats(served, errors, rejected, abandoned, p50, p99, errRate);
    }

    method WindowQuantile(nowEpoch: int, served: nat, merged: seq<nat>, q: real) returns (r: real)
      requires 0.0 < q <= 1.0 && |merged| == HIST_BUCKETS
      requires served == Within(history, nowEpoch - nBuckets + 1, nowEpoch, IsServed)
      requires forall i :: 0 <= i < HIST_BUCKETS ==>
                 merged[i] == Within(history, nowEpoch - nBuckets + 1, nowEpoch, BucketTest(growth, i))
      ensures if served == 0 then r == 0.0 else IsQuantile(growth, merged, Target(q, served), r)
      ensures 1.0 <= growth && served != 0 ==>
                BracketsQuantile(growth, Durations(history, nowEpoch - nBuckets + 1, nowEpoch), q, r)
    {
      r := QuantileMs(growth, merged, served, q);
      if 1.0 <= growth && served != 0 {
        QuantileBracketsHistory(growth, history, nowEpoch - nBuckets + 1, nowEpoch, merged, q, r);
      }
    }

    method WindowCounts(nowEpoch: int) returns (served: nat, errors: nat, rejected: nat, abandoned: nat)
      requires Valid() && last <= nowEpoch
      ensures var lo := nowEpoch - nBuckets + 1;
              && served == Within(history, lo, nowEpoch, IsServed)
              && errors == Within(history, lo, nowEpoch, IsError)
              && rejected == Within(history, lo, nowEpoch, IsRejected)
              && abandoned == Within(history, lo, nowEpoch, IsAbandoned)
    {
      var live := LiveBuckets(nowEpoch, nBuckets);
      CountsAgree(nowEpoch - nBuckets + 1, nowEpoch);
      served, errors, rejected, abandoned := Totals(live);
    }

    method WindowHistogram(nowEpoch: int) returns (merged: seq<nat>)
      requires Valid() && last <= nowEpoch
      ensures |merged| == HIST_BUCKETS
      ensures forall i :: 0 <= i < HIST_BUCKETS ==>
                merged[i] == Within(history, nowEpoch - nBuckets + 1, nowEpoch, BucketTest(growth, i))
    {
      var live := LiveBuckets(nowEpoch, nBuckets);
      CellsAgree(nowEpoch - nBuckets + 1, nowEpoch);
      merged := Merge(live);
    }

    /** Only fully elapsed epochs count, so the rate lags by at most one epoch. */
    method ErrorRate(nowEpoch: int) returns (r: real)
      requires Valid() && last <= nowEpoch
      ensures nErrBuckets < nBuckets ==>
                r == Ratio(Within(history, nowEpoch - nErrBuckets, nowEpoch - 1, IsError),
                           Within(history, nowEpoch - nErrBuckets, nowEpoch - 1, IsServed)
                           + Within(history, nowEpoch - nErrBuckets, nowEpoch - 1, IsRejected))
    {
      var errServed, errErrors, errRejected := ErrorCounts(nowEpoch);
      r := Ratio(errErrors, errServed + errRejected);
    }

    method ErrorCounts(nowEpoch: int) returns (served: nat, errors: nat, rejected: nat)
      requires Valid() && last <= nowEpoch
      ensures nErrBuckets < nBuckets ==>
                && errors == Within(history, nowEpoch - nErrBuckets, nowEpoch - 1, IsError)
                && served == Within(history, nowEpoch - nErrBuckets, nowEpoch - 1, IsServed)
                && rejected == Within(history, nowEpoch - nErrBuckets, nowEpoch - 1, IsRejected)
    {
      var errWindow := LiveBuckets(nowEpoch - 1, nErrBuckets);
      if nErrBuckets < nBuckets {
        CountsAgree(nowEpoch - nErrBuckets, nowEpoch - 1);
      }
      var left: nat;
      served, errors, rejected, left := Totals(errWindow);
    }

    lemma InSeconds(now: real)
      requires Valid() && last <= Epoch(now)
      ensures var h := Epoch(now);
              var lo, errLo := h - nBuckets + 1, h - nErrBuckets;
              && CountsWindow(history, now, windowS, bucketS, IsServed, Within(history, lo, h, IsServed))
              && CountsWindow(history, now, windowS, bucketS, IsError, Within(history, lo, h, IsError))
              && CountsWindow(history, now, windowS, bucketS, IsRejected, Within(history, lo, h, IsRejected))
              && CountsWindow(history, now, windowS, bucketS, IsAbandoned, Within(history, lo, h, IsAbandoned))
              && IsErrorRate(history, now, Mul(nErrBuckets as real, bucketS), bucketS,
                             Ratio(Within(history, errLo, h - 1, IsError),
                                   Within(history, errLo, h - 1, IsServed) + Within(history, errLo, h - 1, IsRejected)))
    {
      var h := Epoch(now);
      SliceOf(now, bucketS);
      assert Mul(nBuckets as real, bucketS) == windowS;
      WindowInSeconds(history, last, now, h, bucketS, nBuckets, IsServed);
      WindowInSeconds(history, last, now, h, bucketS, nBuckets, IsError);
      WindowInSeconds(history, last, now, h, bucketS, nBuckets, IsRejected);
      WindowInSeconds(history, last, now, h, bucketS, nBuckets, IsAbandoned);
      ErrorRateInSeconds(history, last, now, h, bucketS, nErrBuckets);
    }

    lemma CountsAgree(lo: int, hi: int)
      requires Valid() && last - nBuckets < lo
      ensures Sum(Live(buckets[..], lo, hi), SERVED) == Within(history, lo, hi, IsServed)
      ensures Sum(Live(buckets[..], lo, hi), ERRORS) == Within(history, lo, hi, IsError)
      ensures Sum(Live(buckets[..], lo, hi), REJECTED) == Within(history, lo, hi, IsRejected)
      ensures Sum(Live(buckets[..], lo, hi), ABANDONED) == Within(history, lo, hi, IsAbandoned)
    {
      SumsAgree(lo, hi, SERVED, IsServed);
      SumsAgree(lo, hi, ERRORS, IsError);
      SumsAgree(lo, hi, REJECTED, IsRejected);
      SumsAgree(lo, hi, ABANDONED, IsAbandoned);
      RingAgrees(history, nBuckets, last, lo, hi, IsServed);
      RingAgrees(history, nBuckets, last, lo, hi, IsError);
      RingAgrees(history, nBuckets, last, lo, hi, IsRejected);
      RingAgrees(history, nBuckets, last, lo, hi, IsAbandoned);
    }

    lemma CellsAgree(lo: int, hi: int)
      requires Valid() && last - nBuckets < lo
      ensures forall i :: 0 <= i < HIST_BUCKETS ==>
                Sum(Live(buckets[..], lo, hi), Cell(i)) == Within(history, lo, hi, BucketTest(growth, i))
    {
      forall i | 0 <= i < HIST_BUCKETS
        ensures Sum(Live(buckets[..], lo, hi), Cell(i)) == Within(history, lo, hi, BucketTest(growth, i))
      {
        SumsAgree(lo, hi, Cell(i), BucketTest(growth, i));
        RingAgrees(history, nBuckets, last, lo, hi, BucketTest(growth, i));
      }
    }
  }

  /** A tracker, unless its window is empty or it would have no buckets. */
  method NewTracker(windowS: real, nBuckets: int, growth: real) returns (t: Option<Tracker>)
    ensures t.Some? <==> 0.0 < windowS && 1 <= nBuckets
    ensures t.Some? ==> fresh(t.value) && fresh(t.value.buckets) && t.value.Valid() && t.value.history == []
    ensures t.Some? ==>
              && t.value.windowS == windowS && t.value.nBuckets == nBuckets && t.value.growth == growth
              && Mul(nBuckets as real, t.value.bucketS) == windowS && IsErrorWindow(t.value.bucketS, t.value.nErrBuckets)
  {
    if windowS <= 0.0 || nBuckets < 1 {
      return None;
    }
    var tracker := new Tracker(windowS, nBuckets, growth);
    t := Some(tracker);
  }

  method Totals(live: seq<Bucket>) returns (served: nat, errors: nat, rejected: nat, abandoned: nat)
    ensures served == Sum(live, SERVED) && errors == Sum(live, ERRORS)
    ensures rejected == Sum(live, REJECTED) && abandoned == Sum(live, ABANDONED)
  {
    served, errors, rejected, abandoned := 0, 0, 0, 0;
    for k := 0 to |live|
      invariant served == Sum(live[..k], SERVED) && errors == Sum(live[..k], ERRORS)
      invariant rejected == Sum(live[..k], REJECTED) && abandoned == Sum(live[..k], ABANDONED)
    {
      assert live[..k+1][..k] == live[..k];
      served := served + live[k].served;
      errors := errors + live[k].errors;
      rejected := rejected + live[k].rejected;
      abandoned := abandoned + live[k].abandoned;
    }
    assert live[..|live|] == live;
  }

  /** The histograms of the buckets, added cell by cell. */
  method Merge(live: seq<Bucket>) returns (merged: seq<nat>)
    ensures |merged| == HIST_BUCKETS && forall i :: 0 <= i < HIST_BUCKETS ==> merged[i] == Sum(live, Cell(i))
  {
    var cells := new nat[HIST_BUCKETS](_ => 0);
    for k := 0 to |live|
      invariant forall i :: 0 <= i < HIST_BUCKETS ==> cells[i] == Sum(live[..k], Cell(i))
    {
      var hist := live[k].hist;
      assert live[..k+1][..k] == live[..k];
      for n := 0 to HIST_BUCKETS
        invariant forall i :: 0 <= i < n ==> cells[i] == Sum(live[..k+1], Cell(i))
        invariant forall i :: n <= i < HIST_BUCKETS ==> cells[i] == Sum(live[..k], Cell(i))
      {
        if n < |hist| {
          cells[n] := cells[n] + hist[n];
        }
        assert Sum(live[..k+1], Cell(n)) == Sum(live[..k], Cell(n)) + Cell(n)(live[k]);
      }
    }
    assert live[..|live|] == live;
    merged := cells[..];
  }

  // ---- what the reported quantile means for the recorded durations ----

  /** The durations of the requests served in the epochs `lo` to `hi`, in recording order. */
  function Durations(history: seq<Obs>, lo: int, hi: int): seq<real> {
    if history == [] then [] else
    var o := history[|history|-1];
    Durations(history[..|history|-1], lo, hi) + if lo <= o.epoch <= hi && o.outcome.Served? then [o.outcome.ms] else []
  }

  lemma WithinStep(history: seq<Obs>, lo: int, hi: int, p: Outcome -> bool)
    requires history != []
    ensures var o := history[|history|-1];
            Within(history, lo, hi, p)
            == Within(history[..|history|-1], lo, hi, p) + if lo <= o.epoch <= hi && p(o.outcome) then 1 else 0
  {
  }

  lemma {:induction false} DurationsCounted(growth: real, history: seq<Obs>, lo: int, hi: int, i: nat)
    ensures CountIf(Durations(history, lo, hi), d => BucketIndex(growth, d) == i) == Within(history, lo, hi, BucketTest(growth, i))
    ensures |Durations(history, lo, hi)| == Within(history, lo, hi, IsServed)
  {
    if history != [] {
      var init, o := history[..|history|-1], history[|history|-1];
      DurationsCounted(growth, init, lo, hi, i);
      WithinStep(history, lo, hi, BucketTest(growth, i));
      WithinStep(history, lo, hi, IsServed);
      if lo <= o.epoch <= hi && o.outcome.Served? {
        var ds := Durations(init, lo, hi);
        assert (ds + [o.outcome.ms])[..|ds|] == ds;
      } else {
        assert Durations(init, lo, hi) + [] == Durations(init, lo, hi);
      }
    }
  }

  /** The p99 that the controller reads is an upper bound on the nearest-rank p99 of the durations of the
      window, unless that lies beyond the histogram, and at most one growth factor above it. */
  lemma QuantileOfHistory(growth: real, history: seq<Obs>, lo: int, hi: int, hist: seq<nat>, q: real, v: real, r: real)
    requires 1.0 <= growth && |hist| == HIST_BUCKETS
    requires forall i :: 0 <= i < HIST_BUCKETS ==> hist[i] == Within(history, lo, hi, BucketTest(growth, i))
    requires IsQuantile(growth, hist, Target(q, Within(history, lo, hi, IsServed)), r)
    requires OrderStatistic(Durations(history, lo, hi), Target(q, Within(history, lo, hi, IsServed)), v)
    ensures v <= r <==> v <= Edge(growth, HIST_BUCKETS - 1)
    ensures HIST_MIN_MS < v ==> r <= v * growth
  {
    var ds := Durations(history, lo, hi);
    assert Counts(growth, hist, ds) by {
      forall i | 0 <= i < HIST_BUCKETS ensures hist[i] == CountIf(ds, d => BucketIndex(growth, d) == i) {
        DurationsCounted(growth, history, lo, hi, i);
      }
    }
    QuantileBrackets(growth, hist, ds, Target(q, Within(history, lo, hi, IsServed)), v, r);
  }

  /** Whenever the window holds a served request, the reported quantile is bracketed by the nearest-rank quantile
      of the durations in it. */
  lemma QuantileBracketsHistory(growth: real, history: seq<Obs>, lo: int, hi: int, hist: seq<nat>, q: real, r: real)
    requires 1.0 <= growth && |hist| == HIST_BUCKETS && 0.0 < q <= 1.0
    requires forall i :: 0 <= i < HIST_BUCKETS ==> hist[i] == Within(history, lo, hi, BucketTest(growth, i))
    requires 0 < Within(history, lo, hi, IsServed)
    requires IsQuantile(growth, hist, Target(q, Within(history, lo, hi, IsServed)), r)
    ensures BracketsQuantile(growth, Durations(history, lo, hi), q, r)
  {
    var ds := Durations(history, lo, hi);
    DurationsCounted(growth, history, lo, hi, 0);
    TargetInRange(q, |ds|);
    var v := OrderStatisticExists(ds, Target(q, |ds|));
    QuantileOfHistory(growth, history, lo, hi, hist, q, v, r);
    assert NearestRank(ds, q, Target(q, |ds|), v) && ReportedFor(growth, v, r);
  }

  predicate FailedService(o: Outcome) { o.Served? && !o.ok }

  /** The errors of a window are the requests that were shed and those that were served badly; a client that left is
      neither. So there are never more errors than requests. */
  lemma ErrorsAre(history: seq<Obs>, lo: int, hi: int)
    ensures Within(history, lo, hi, IsError) == Within(history, lo, hi, IsRejected) + Within(history, lo, hi, FailedService)
    ensures Within(history, lo, hi, IsError) <= Within(history, lo, hi, IsRejected) + Within(history, lo, hi, IsServed)
  {
    forall i | 0 <= i < |history|
      ensures EpochIn(lo, hi, IsError)(history[i]) <==> EpochIn(lo, hi, IsRejected)(history[i]) || EpochIn(lo, hi, FailedService)(history[i])
      ensures !(EpochIn(lo, hi, IsRejected)(history[i]) && EpochIn(lo, hi, FailedService)(history[i]))
      ensures EpochIn(lo, hi, FailedService)(history[i]) ==> EpochIn(lo, hi, IsServed)(history[i])
    {
      var o := history[i].outcome;
      assert IsError(o) <==> IsRejected(o) || FailedService(o);
      assert FailedService(o) ==> IsServed(o) && !IsRejected(o);
    }
    CountIfSplit(history, EpochIn(lo, hi, IsRejected), EpochIn(lo, hi, FailedService), EpochIn(lo, hi, IsError));
    CountIfAtMost(history, EpochIn(lo, hi, FailedService), EpochIn(lo, hi, IsServed));
  }
}
