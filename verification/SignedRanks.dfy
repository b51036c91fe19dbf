/** What the ranks, the statistic and the exact p-value of the signed-rank test mean for the differences themselves:
    by their squares, and by their pairwise sums (the Walsh averages). */
module SignedRanks {
  import opened Numbers
  import opened Classes
  import opened Seqs
  import opened Wilcoxon

  // ---- ranks, by squares ----

  lemma AbsOrder(x: real, y: real)
    ensures Abs(x) < Abs(y) <==> x * x < y * y
    ensures Abs(x) == Abs(y) <==> x * x == y * y
  {
    var a, b := Abs(x), Abs(y);
    assert a * a == x * x && b * b == y * y;
    SquareOrder(a, b);
    SquareOrder(b, a);
  }

  lemma SquareOrder(a: real, b: real)
    requires 0.0 <= a && 0.0 <= b
    ensures a < b ==> a * a < b * b
  {
    if a < b {
      assert b * b - a * a == (b - a) * (b + a);
      PositiveProduct(b - a, b + a);
    }
  }

  lemma PositiveProduct(x: real, y: real)
    requires 0.0 < x && 0.0 < y
    ensures 0.0 < x * y
  {
  }

  lemma {:induction false} CountMagnitudes(ds: seq<real>, p: real -> bool, q: real -> bool)
    requires forall i :: 0 <= i < |ds| ==> p(ds[i]) == q(Abs(ds[i]))
    ensures CountIf(ds, p) == CountIf(Magnitudes(ds), q)
  {
    if ds != [] {
      var init, ms := ds[..|ds|-1], Magnitudes(ds);
      assert ms[..|ms|-1] == Magnitudes(init);
      CountMagnitudes(init, p, q);
    }
  }

  function Smaller(d: real): real -> bool { (x: real) => x * x < d * d }
  function SameSize(d: real): real -> bool { (x: real) => x * x == d * d }

  /** Twice the rank of a difference is one more than twice the number of smaller squares plus the number of equal
      ones: the average of the ranks that a run of ties takes up. */
  lemma RankCounts(ds: seq<real>, i: nat)
    requires i < |ds|
    ensures DoubledRanks(ds)[i] == 2 * CountIf(ds, Smaller(ds[i])) + CountIf(ds, SameSize(ds[i])) + 1
  {
    var d := ds[i];
    forall k | 0 <= k < |ds|
      ensures Smaller(d)(ds[k]) == (Abs(ds[k]) < Abs(d)) && SameSize(d)(ds[k]) == (Abs(ds[k]) == Abs(d))
    {
      AbsOrder(ds[k], d);
    }
    CountMagnitudes(ds, Smaller(d), (m: real) => m < Abs(d));
    CountMagnitudes(ds, SameSize(d), (m: real) => m == Abs(d));
    WeightIs(ds, Abs(d));
  }

  lemma WeightIs(ds: seq<real>, x: real)
    ensures Weight(Magnitudes(ds), x)
            == 2 * CountIf(Magnitudes(ds), (m: real) => m < x) + CountIf(Magnitudes(ds), (m: real) => m == x)
  {
    CountIfSame(Magnitudes(ds), (m: real) => m < x, (m: real) => m < x);
    CountIfSame(Magnitudes(ds), (m: real) => m == x, (m: real) => m == x);
  }

  /** The larger difference ranks higher, and differences of one size share a rank. */
  lemma RanksFollowSize(ds: seq<real>, i: nat, j: nat)
    requires i < |ds| && j < |ds|
    ensures DoubledRanks(ds)[i] < DoubledRanks(ds)[j] <==> ds[i] * ds[i] < ds[j] * ds[j]
    ensures DoubledRanks(ds)[i] == DoubledRanks(ds)[j] <==> ds[i] * ds[i] == ds[j] * ds[j]
  {
    AbsOrder(ds[i], ds[j]);
    AbsOrder(ds[j], ds[i]);
    var ms := Magnitudes(ds);
    if Abs(ds[i]) < Abs(ds[j]) {
      assert ms[i] == Abs(ds[i]);
      WeightGrows(ms, Abs(ds[i]), Abs(ds[j]), i);
    } else if Abs(ds[j]) < Abs(ds[i]) {
      assert ms[j] == Abs(ds[j]);
      WeightGrows(ms, Abs(ds[j]), Abs(ds[i]), j);
    }
  }

  lemma WeightGrows(ms: seq<real>, x: real, y: real, i: nat)
    requires x < y && i < |ms| && ms[i] == x
    ensures Weight(ms, x) < Weight(ms, y)
  {
    CountIfSplit(ms, (m: real) => m < x, (m: real) => m == x, (m: real) => m <= x);
    CountIfAtMost(ms, (m: real) => m <= x, (m: real) => m < y);
    CountIfSome(ms, (m: real) => m == x, i);
  }

  // ---- the statistic, by pairwise sums ----

  /** A pair counts double if its sum is positive, and once if it is zero. */
  function PairScore(x: real, y: real): nat {
    if 0.0 < x + y then 2 else if x + y == 0.0 then 1 else 0
  }

  function Row(es: seq<real>, d: real): nat {
    if es == [] then 0 else Row(es[..|es|-1], d) + PairScore(es[|es|-1], d)
  }

  /** Twice the number of pairs, each difference with itself and with every later one, whose sum is positive; zero
      sums count half. */
  function Walsh(ds: seq<real>): nat {
    if ds == [] then 0 else
    var init, d := ds[..|ds|-1], ds[|ds|-1];
    Walsh(init) + Row(init, d) + PairScore(d, d)
  }

  /** The doubled ranks, among the magnitudes `ms`, of the positive ones of `es`. */
  function PlusWeight(ms: seq<real>, es: seq<real>): nat {
    if es == [] then 0 else
    PlusWeight(ms, es[..|es|-1]) + if 0.0 < es[|es|-1] then Weight(ms, Abs(es[|es|-1])) + 1 else 0
  }

  /** What one more magnitude adds to them. */
  function PlusShare(m: real, es: seq<real>): nat {
    if es == [] then 0 else
    PlusShare(m, es[..|es|-1]) + if 0.0 < es[|es|-1] then Share(m, Abs(es[|es|-1])) else 0
  }

  lemma {:induction false} PlusSumIsWeight(ms: seq<real>, es: seq<real>)
    ensures PlusSum(Signs(es), seq(|es|, i requires 0 <= i < |es| => Weight(ms, Abs(es[i])) + 1)) == PlusWeight(ms, es)
  {
    if es != [] {
      var init := es[..|es|-1];
      PlusSumIsWeight(ms, init);
      var ranks := seq(|es|, i requires 0 <= i < |es| => Weight(ms, Abs(es[i])) + 1);
      assert Signs(es)[..|es|-1] == Signs(init);
      assert ranks[..|es|-1] == seq(|init|, i requires 0 <= i < |init| => Weight(ms, Abs(init[i])) + 1);
    }
  }

  lemma {:induction false} PlusWeightAppend(ms: seq<real>, m: real, es: seq<real>)
    ensures PlusWeight(ms + [m], es) == PlusWeight(ms, es) + PlusShare(m, es)
  {
    if es != [] {
      PlusWeightAppend(ms, m, es[..|es|-1]);
      WeightAppend(ms, m, Abs(es[|es|-1]));
    }
  }

  /** Of a pair of non-zero differences, the sign of the larger one decides; of two of one size, both do. */
  lemma PairShares(e: real, d: real)
    requires e != 0.0 && d != 0.0
    ensures (if 0.0 < e then Share(Abs(d), Abs(e)) else 0) + (if 0.0 < d then Share(Abs(e), Abs(d)) else 0) == PairScore(e, d)
  {
  }

  lemma {:induction false} RowIsShares(es: seq<real>, d: real)
    requires d != 0.0 && forall i :: 0 <= i < |es| ==> es[i] != 0.0
    ensures Row(es, d) == PlusShare(Abs(d), es) + if 0.0 < d then Weight(Magnitudes(es), Abs(d)) else 0
  {
    if es != [] {
      var init, e := es[..|es|-1], es[|es|-1];
      RowIsShares(init, d);
      PairShares(e, d);
      assert Magnitudes(es) == Magnitudes(init) + [Abs(e)];
      WeightAppend(Magnitudes(init), Abs(e), Abs(d));
    }
  }

  lemma {:induction false} WeightIsWalsh(ds: seq<real>)
    requires forall i :: 0 <= i < |ds| ==> ds[i] != 0.0
    ensures PlusWeight(Magnitudes(ds), ds) == Walsh(ds)
  {
    if ds != [] {
      var init, d := ds[..|ds|-1], ds[|ds|-1];
      WeightIsWalsh(init);
      assert Magnitudes(ds) == Magnitudes(init) + [Abs(d)];
      PlusWeightAppend(Magnitudes(init), Abs(d), init);
      WeightAppend(Magnitudes(init), Abs(d), Abs(d));
      RowIsShares(init, d);
    }
  }

  /** The rank sum of the positive differences is the number of positive pairwise sums. */
  lemma PlusSumIsWalsh(ds: seq<real>)
    requires forall i :: 0 <= i < |ds| ==> ds[i] != 0.0
    ensures PlusSum(Signs(ds), DoubledRanks(ds)) == Walsh(ds)
  {
    PlusSumIsWeight(Magnitudes(ds), ds);
    WeightIsWalsh(ds);
  }

  /** The smaller of the number of positive and the number of negative pairwise sums, doubled. */
  function PairStatistic(ds: seq<real>): int {
    MinInt(Walsh(ds), |ds| * (|ds| + 1) - Walsh(ds))
  }

  lemma StatisticIsPairs(ds: seq<real>)
    requires forall i :: 0 <= i < |ds| ==> ds[i] != 0.0
    ensures Statistic(Signs(ds), DoubledRanks(ds)) == PairStatistic(ds)
  {
    PlusSumIsWalsh(ds);
    RankTotal(ds);
  }

  // ---- which differences are tested ----

  function AndNonZero(p: real -> bool): real -> bool { (x: real) => x != 0.0 && p(x) }

  lemma CountAppend(s: seq<real>, x: real, p: real -> bool)
    ensures CountIf(s + [x], p) == CountIf(s, p) + if p(x) then 1 else 0
  {
    assert (s + [x])[..|s|] == s;
  }

  /** Dropping the zeros keeps all others, as often as they occur. */
  lemma {:induction false} NonZeroKeeps(ds: seq<real>, p: real -> bool)
    ensures CountIf(NonZero(ds), p) == CountIf(ds, AndNonZero(p))
  {
    if ds != [] {
      var init, d := ds[..|ds|-1], ds[|ds|-1];
      NonZeroKeeps(init, p);
      CountAppend(NonZero(init), d, p);
      CountAppend(init, d, AndNonZero(p));
      assert ds == init + [d] && NonZero(init) + [] == NonZero(init);
    }
  }

  lemma {:induction false} NonZeroIs(ds: seq<real>)
    ensures forall i :: 0 <= i < |NonZero(ds)| ==> NonZero(ds)[i] != 0.0
  {
    if ds != [] {
      NonZeroIs(ds[..|ds|-1]);
    }
  }

  /** The reported statistic counts pairwise sums of the differences that are not zero. */
  lemma ResultCountsPairs(a: seq<real>, b: seq<real>)
    requires |a| == |b| && a != []
    ensures var ds := NonZero(seq(|a|, i requires 0 <= i < |a| => a[i] - b[i]));
            var r := TestOf(a, b);
            && r.Some? && r.value.n == |ds| && r.value.n + r.value.dropped == |a|
            && r.value.doubledStatistic == PairStatistic(ds)
            && (ds != [] ==> (r.value.p.Exact? <==> |ds| <= 20))
            && (r.value.p.Exact? && ds != [] ==> r.value.p.p == ExactP(ds))
  {
    var diffs := seq(|a|, i requires 0 <= i < |a| => a[i] - b[i]);
    assert Minus(a, b) == diffs;
    NonZeroIs(diffs);
    NonZeroShorter(diffs);
    StatisticIsPairs(NonZero(diffs));
  }

  // ---- the exact p-value, by permutation ----

  /** The same sizes under other signs. */
  function Resigned(ds: seq<real>, signs: seq<bool>): (r: seq<real>)
    requires |signs| == |ds|
    ensures |r| == |ds|
  {
    seq(|ds|, i requires 0 <= i < |ds| => if signs[i] == (0.0 < ds[i]) then ds[i] else -ds[i])
  }

  predicate AsExtreme(ds: seq<real>, signs: seq<bool>) {
    |signs| == |ds| && PairStatistic(Resigned(ds, signs)) <= PairStatistic(ds)
  }

  lemma ResignedStatistic(ds: seq<real>, signs: seq<bool>)
    requires |signs| == |ds| && forall i :: 0 <= i < |ds| ==> ds[i] != 0.0
    ensures Statistic(signs, DoubledRanks(ds)) == PairStatistic(Resigned(ds, signs))
  {
    var es := Resigned(ds, signs);
    assert Signs(es) == signs;
    assert Magnitudes(es) == Magnitudes(ds);
    assert DoubledRanks(es) == DoubledRanks(ds);
    StatisticIsPairs(es);
  }

  /** The exact p-value is the share, among all ways to sign the differences, of those whose statistic is no larger
      than the observed one. */
  lemma ExactPIsPermutation(ds: seq<real>)
    requires forall i :: 0 <= i < |ds| ==> ds[i] != 0.0
    ensures Mul(ExactP(ds), |AllSigns(|ds|)| as real) == CountIf(AllSigns(|ds|), (s: seq<bool>) => AsExtreme(ds, s)) as real
  {
    CountIsPermutations(ds);
    SignsDistinct(|ds|);
    PTimesAll(ds);
  }

  lemma PTimesAll(ds: seq<real>)
    ensures Mul(ExactP(ds), Pow2(|ds|) as real) == ExactCount(ds) as real
  {
    PowPositive(|ds|);
    Cancel(ExactCount(ds) as real, Pow2(|ds|) as real);
  }

  lemma Cancel(x: real, y: real)
    requires y != 0.0
    ensures Mul(x / y, y) == x
  {
  }

  lemma CountIsPermutations(ds: seq<real>)
    requires forall i :: 0 <= i < |ds| ==> ds[i] != 0.0
    ensures ExactCount(ds) == CountIf(AllSigns(|ds|), (s: seq<bool>) => AsExtreme(ds, s))
  {
    var ranks, all := DoubledRanks(ds), AllSigns(|ds|);
    var observed := Statistic(Signs(ds), ranks);
    StatisticIsPairs(ds);
    forall s: seq<bool> ensures Extreme(s, ranks, observed) == AsExtreme(ds, s) {
      if |s| == |ds| {
        ResignedStatistic(ds, s);
      }
    }
    CountIfSame(all, (s: seq<bool>) => Extreme(s, ranks, observed), (s: seq<bool>) => AsExtreme(ds, s));
  }
}
