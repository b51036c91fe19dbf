/** The exact two-sided Wilcoxon signed-rank test. Ranks are doubled, so that tied averages are integers. */
module Wilcoxon {
  import opened Numbers
  import opened Classes
  import opened Seqs

  function Abs(x: real): real { if x < 0.0 then -x else x }

  /** Differences `a - b`, or nothing for data that is not paired. */
  function PairedDifferences(a: seq<real>, b: seq<real>): Option<seq<real>> {
    if |a| != |b| || a == [] then None else Some(Minus(a, b))
  }

  function Minus(a: seq<real>, b: seq<real>): seq<real>
    requires |a| == |b|
  {
    seq(|a|, i requires 0 <= i < |a| => a[i] - b[i])
  }

  function NonZero(ds: seq<real>): seq<real> {
    if ds == [] then [] else
    NonZero(ds[..|ds|-1]) + if ds[|ds|-1] != 0.0 then [ds[|ds|-1]] else []
  }

  // ---- ranks ----

  /** Twice the number of smaller magnitudes plus the number of equal ones: one less than twice the average rank. */
  function Weight(ms: seq<real>, x: real): nat {
    2 * CountIf(ms, (m: real) => m < x) + CountIf(ms, (m: real) => m == x)
  }

  function Magnitudes(ds: seq<real>): seq<real> {
    seq(|ds|, i requires 0 <= i < |ds| => Abs(ds[i]))
  }

  /** Twice the tie-averaged rank of each difference. */
  function DoubledRanks(ds: seq<real>): seq<int> {
    seq(|ds|, i requires 0 <= i < |ds| => Weight(Magnitudes(ds), Abs(ds[i])) + 1)
  }

  function WeightSum(ms: seq<real>, es: seq<real>): nat {
    if es == [] then 0 else WeightSum(ms, es[..|es|-1]) + Weight(ms, es[|es|-1])
  }

  function Share(y: real, x: real): nat {
    if y < x then 2 else if y == x then 1 else 0
  }

  lemma WeightAppend(ms: seq<real>, y: real, x: real)
    ensures Weight(ms + [y], x) == Weight(ms, x) + Share(y, x)
  {
    assert (ms + [y])[..|ms + [y]|-1] == ms;
  }

  /** What one more magnitude adds to the weights of all the others. */
  lemma {:induction false} WeightSumAppend(ms: seq<real>, y: real, es: seq<real>)
    ensures WeightSum(ms + [y], es)
            == WeightSum(ms, es) + 2 * CountIf(es, (e: real) => y < e) + CountIf(es, (e: real) => e == y)
  {
    if es != [] {
      WeightSumAppend(ms, y, es[..|es|-1]);
      WeightAppend(ms, y, es[|es|-1]);
    }
  }

  lemma {:induction false} Trichotomy(es: seq<real>, y: real)
    ensures CountIf(es, (e: real) => e < y) + CountIf(es, (e: real) => e == y) + CountIf(es, (e: real) => y < e) == |es|
  {
    if es != [] {
      Trichotomy(es[..|es|-1], y);
    }
  }

  /** Of every two magnitudes one outweighs the other or they tie: the weights add up to the square. */
  lemma {:induction false} WeightsSquare(ms: seq<real>)
    ensures WeightSum(ms, ms) == |ms| * |ms|
  {
    if ms != [] {
      var init, y := ms[..|ms|-1], ms[|ms|-1];
      WeightsSquare(init);
      WeightSumAppend(init, y, init);
      WeightAppend(init, y, y);
      Trichotomy(init, y);
      assert ms == init + [y];
      NextSquare(|init|);
    }
  }

  lemma NextSquare(n: nat)
    ensures (n + 1) * (n + 1) == n * n + 2 * n + 1
  {
  }

  lemma {:induction false} RanksSum(ms: seq<real>, es: seq<real>)
    ensures SumInts(seq(|es|, i requires 0 <= i < |es| => Weight(ms, es[i]) + 1)) == WeightSum(ms, es) + |es|
  {
    if es != [] {
      var init := es[..|es|-1];
      RanksSum(ms, init);
      var s := seq(|es|, i requires 0 <= i < |es| => Weight(ms, es[i]) + 1);
      assert s[..|s|-1] == seq(|init|, i requires 0 <= i < |init| => Weight(ms, init[i]) + 1);
    }
  }

  /** The tie-averaged ranks add up to n(n+1)/2, whatever the ties. */
  lemma RankTotal(ds: seq<real>)
    ensures SumInts(DoubledRanks(ds)) == |ds| * (|ds| + 1)
  {
    var ms := Magnitudes(ds);
    RanksSum(ms, ms);
    WeightsSquare(ms);
    assert DoubledRanks(ds) == seq(|ms|, i requires 0 <= i < |ms| => Weight(ms, ms[i]) + 1);
  }

  // ---- the ranking loop ----

  datatype Mag = Mag(mag: real, index: nat)

  const MAG_KEY: Mag -> real := (m: Mag) => m.mag
  const MAG_INDEX: Mag -> nat := (m: Mag) => m.index

  function Enumerate(ds: seq<real>): seq<Mag> {
    seq(|ds|, i requires 0 <= i < |ds| => Mag(Abs(ds[i]), i))
  }

  lemma {:induction false} EnumerateCount(ds: seq<real>, p: Mag -> bool, q: real -> bool)
    requires forall i :: 0 <= i < |ds| ==> p(Mag(Abs(ds[i]), i)) == q(Abs(ds[i]))
    ensures CountIf(Enumerate(ds), p) == CountIf(Magnitudes(ds), q)
  {
    if ds != [] {
      var init := ds[..|ds|-1];
      EnumerateCount(init, p, q);
      assert Enumerate(ds)[..|ds|-1] == Enumerate(init) && Magnitudes(ds)[..|ds|-1] == Magnitudes(init);
    }
  }

  /** The sorted list is a permutation of the differences' indices, in order of magnitude. */
  lemma SortedFacts(ds: seq<real>)
    ensures var s := SortBy(MAG_KEY, Enumerate(ds));
            && (forall p :: 0 <= p < |s| ==> s[p].index < |ds| && s[p].mag == Abs(ds[s[p].index]))
            && (forall p, r :: 0 <= p < r < |s| ==> s[p].mag <= s[r].mag && s[p].index != s[r].index)
            && (forall k :: 0 <= k < |ds| ==> Mag(Abs(ds[k]), k) in s)
  {
    var e, s := Enumerate(ds), SortBy(MAG_KEY, Enumerate(ds));
    SortBySorted(MAG_KEY, e);
    SortByMembers(MAG_KEY, e);
    SortByDistinct(MAG_KEY, MAG_INDEX, e);
    forall p | 0 <= p < |s| ensures s[p].index < |ds| && s[p].mag == Abs(ds[s[p].index]) {
      assert s[p] in s && s[p] in e;
    }
    forall p, r | 0 <= p < r < |s| ensures s[p].mag <= s[r].mag && s[p].index != s[r].index {
      assert MAG_KEY(s[p]) <= MAG_KEY(s[r]) && MAG_INDEX(s[p]) != MAG_INDEX(s[r]);
    }
    forall k | 0 <= k < |ds| ensures Mag(Abs(ds[k]), k) in s {
      assert e[k] in e;
    }
  }

  /** The entries `i` to `j` are a maximal run of equal magnitudes. */
  ghost predicate TieRun(s: seq<Mag>, i: nat, j: nat) {
    && i <= j < |s| && s[i].mag == s[j].mag
    && (0 < i ==> s[i-1].mag < s[i].mag) && (j + 1 < |s| ==> s[j].mag < s[j+1].mag)
  }

  /** Such a run in the sorted list shares the doubled rank `i + j + 2`. */
  lemma TieRank(ds: seq<real>, i: nat, j: nat)
    requires TieRun(SortBy(MAG_KEY, Enumerate(ds)), i, j)
    ensures Weight(Magnitudes(ds), SortBy(MAG_KEY, Enumerate(ds))[i].mag) + 1 == i + j + 2
  {
    var s := SortBy(MAG_KEY, Enumerate(ds));
    SortedFacts(ds);
    RunCounts(s, i, j);
    var x := s[i].mag;
    SortByCount(MAG_KEY, Enumerate(ds), Below(x));
    SortByCount(MAG_KEY, Enumerate(ds), Equal(x));
    EnumerateCount(ds, Below(x), (m: real) => m < x);
    EnumerateCount(ds, Equal(x), (m: real) => m == x);
  }

  function Below(x: real): Mag -> bool { (m: Mag) => m.mag < x }

  function Equal(x: real): Mag -> bool { (m: Mag) => m.mag == x }

  lemma RunCounts(s: seq<Mag>, i: nat, j: nat)
    requires TieRun(s, i, j) && forall p, r :: 0 <= p < r < |s| ==> s[p].mag <= s[r].mag
    ensures CountIf(s, Below(s[i].mag)) == i && CountIf(s, Equal(s[i].mag)) == j + 1 - i
  {
    var x := s[i].mag;
    Block(s, 0, i, Below(x));
    Block(s, i, j + 1, Equal(x));
  }

  /** A test that holds on exactly one stretch of a list counts its length. */
  lemma {:induction false} Block(s: seq<Mag>, i: nat, j: nat, p: Mag -> bool)
    requires i <= j <= |s|
    requires forall k :: 0 <= k < |s| ==> (p(s[k]) <==> i <= k < j)
    ensures CountIf(s, p) == j - i
  {
    if s != [] {
      var n := |s| - 1;
      Block(s[..n], if i < n then i else n, if j < n then j else n, p);
    }
  }

  method Ranks(ds: seq<real>) returns (ranks: array<int>)
    ensures fresh(ranks) && ranks[..] == DoubledRanks(ds)
  {
    var magnitudes := SortBy(MAG_KEY, Enumerate(ds));
    SortedFacts(ds);
    forall i: nat, j: nat | TieRun(magnitudes, i, j) ensures SharesRank(magnitudes, DoubledRanks(ds), i, j) {
      RunShares(ds, i, j);
    }
    ranks := RankSorted(magnitudes, DoubledRanks(ds));
    AllRanked(ds, ranks[..]);
  }

  ghost predicate SharesRank(s: seq<Mag>, rs: seq<int>, i: nat, j: nat) {
    |rs| == |s| && j < |s| && forall p :: i <= p <= j ==> s[p].index < |s| && rs[s[p].index] == i + j + 2
  }

  /** The ranking loop: one run of ties after another. */
  method RankSorted(magnitudes: seq<Mag>, ghost rs: seq<int>) returns (ranks: array<int>)
    requires Permuted(magnitudes) && |rs| == |magnitudes|
    requires forall p, r :: 0 <= p < r < |magnitudes| ==> magnitudes[p].mag <= magnitudes[r].mag
    requires forall i: nat, j: nat :: TieRun(magnitudes, i, j) ==> SharesRank(magnitudes, rs, i, j)
    ensures fresh(ranks) && RankedUpTo(magnitudes, rs, ranks[..], |magnitudes|)
  {
    var n := |magnitudes|;
    ranks := new int[n](_ => 0);
    var i := 0;
    while i < n
      invariant 0 <= i <= n && ranks.Length == n
      invariant 0 < i < n ==> magnitudes[i-1].mag < magnitudes[i].mag
      invariant RankedUpTo(magnitudes, rs, ranks[..], i)
    {
      var j := RunEnd(magnitudes, i);
      assert SharesRank(magnitudes, rs, i, j);
      var average := i + j + 2;
      FillRun(magnitudes, rs, ranks, i, j, average);
      i := j + 1;
    }
  }

  /** In the sorted list every entry of the run has the rank `i + j + 2`. */
  lemma RunShares(ds: seq<real>, i: nat, j: nat)
    requires TieRun(SortBy(MAG_KEY, Enumerate(ds)), i, j)
    ensures SharesRank(SortBy(MAG_KEY, Enumerate(ds)), DoubledRanks(ds), i, j)
  {
    var s := SortBy(MAG_KEY, Enumerate(ds));
    SortedFacts(ds);
    TieRank(ds, i, j);
    forall p | i <= p <= j ensures s[p].index < |s| && DoubledRanks(ds)[s[p].index] == i + j + 2 {
      RankAt(ds, i, j, p);
    }
  }

  lemma RankAt(ds: seq<real>, i: nat, j: nat, p: nat)
    requires TieRun(SortBy(MAG_KEY, Enumerate(ds)), i, j) && i <= p <= j
    requires Weight(Magnitudes(ds), SortBy(MAG_KEY, Enumerate(ds))[i].mag) + 1 == i + j + 2
    ensures var s := SortBy(MAG_KEY, Enumerate(ds)); s[p].index < |s| && DoubledRanks(ds)[s[p].index] == i + j + 2
  {
    var s := SortBy(MAG_KEY, Enumerate(ds));
    SortedFacts(ds);
    assert s[i].mag <= s[p].mag <= s[j].mag;
  }

  /** The indices of the list are its positions, in some order. */
  ghost predicate Permuted(s: seq<Mag>) {
    && (forall p :: 0 <= p < |s| ==> s[p].index < |s|)
    && (forall p, r :: 0 <= p < r < |s| ==> s[p].index != s[r].index)
  }

  /** The last entry of the run of ties that starts at `i`. */
  method RunEnd(s: seq<Mag>, i: nat) returns (j: nat)
    requires i < |s| && (0 < i ==> s[i-1].mag < s[i].mag)
    requires forall p, r :: 0 <= p < r < |s| ==> s[p].mag <= s[r].mag
    ensures TieRun(s, i, j)
  {
    j := i;
    while j + 1 < |s| && s[j+1].mag == s[i].mag
      invariant i <= j < |s| && s[j].mag == s[i].mag
    {
      j := j + 1;
    }
  }

  /** Enter the shared rank of one run. */
  method FillRun(s: seq<Mag>, ghost rs: seq<int>, ranks: array<int>, i: nat, j: nat, average: int)
    requires Permuted(s) && i <= j < |s| && RankedUpTo(s, rs, ranks[..], i)
    requires forall p :: i <= p <= j ==> rs[s[p].index] == average
    modifies ranks
    ensures RankedUpTo(s, rs, ranks[..], j + 1)
  {
    for k := i to j + 1
      invariant RankedUpTo(s, rs, ranks[..], k)
    {
      ranks[s[k].index] := average;
    }
  }

  /** The first `k` of the sorted magnitudes have their ranks entered. */
  ghost predicate RankedUpTo(s: seq<Mag>, rs: seq<int>, ranks: seq<int>, k: int) {
    && |s| == |ranks| == |rs| && 0 <= k <= |s|
    && (forall p :: 0 <= p < |s| ==> s[p].index < |s|)
    && forall p :: 0 <= p < k ==> ranks[s[p].index] == rs[s[p].index]
  }

  lemma AllRanked(ds: seq<real>, ranks: seq<int>)
    requires RankedUpTo(SortBy(MAG_KEY, Enumerate(ds)), DoubledRanks(ds), ranks, |ds|)
    ensures ranks == DoubledRanks(ds)
  {
    var s := SortBy(MAG_KEY, Enumerate(ds));
    SortedFacts(ds);
    forall k | 0 <= k < |ds| ensures ranks[k] == DoubledRanks(ds)[k] {
      var p :| 0 <= p < |s| && s[p] == Mag(Abs(ds[k]), k);
    }
  }

  // ---- sign assignments ----

  function Pow2(n: nat): nat {
    if n == 0 then 1 else 2 * Pow2(n - 1)
  }

  function Prepend(b: bool, ss: seq<seq<bool>>): seq<seq<bool>> {
    seq(|ss|, i requires 0 <= i < |ss| => [b] + ss[i])
  }

  /** All assignments of a sign to each of `n` ranks, in the order of the product of (0, 1) with itself. */
  function AllSigns(n: nat): (ss: seq<seq<bool>>)
    ensures |ss| == Pow2(n)
  {
    if n == 0 then [[]] else Prepend(false, AllSigns(n - 1)) + Prepend(true, AllSigns(n - 1))
  }

  /** Every assignment occurs, and none twice. */
  lemma {:induction false} SignsComplete(n: nat, s: seq<bool>)
    requires |s| == n
    ensures s in AllSigns(n)
  {
    if n == 0 {
      assert s == [];
    } else {
      SignsComplete(n - 1, s[1..]);
      var ss := AllSigns(n - 1);
      var i :| 0 <= i < |ss| && ss[i] == s[1..];
      assert s == [s[0]] + s[1..];
      assert Prepend(s[0], ss)[i] == s;
      assert s in Prepend(s[0], ss);
    }
  }

  lemma {:induction false} SignsDistinct(n: nat)
    ensures forall i, j :: 0 <= i < j < |AllSigns(n)| ==> AllSigns(n)[i] != AllSigns(n)[j]
    ensures forall i :: 0 <= i < |AllSigns(n)| ==> |AllSigns(n)[i]| == n
  {
    if n != 0 {
      SignsDistinct(n - 1);
      var ss, m := AllSigns(n - 1), |AllSigns(n - 1)|;
      var all := AllSigns(n);
      assert forall i :: 0 <= i < m ==> all[i] == [false] + ss[i] && all[m + i] == [true] + ss[i];
      forall i, j | 0 <= i < j < |all| ensures all[i] != all[j] {
        var a, b := ss[if i < m then i else i - m], ss[if j < m then j else j - m];
        assert all[i][1..] == a && all[j][1..] == b;
        assert all[i][0] == (m <= i) && all[j][0] == (m <= j);
      }
    }
  }

  /** The (doubled) sum of the ranks whose sign is positive. */
  function PlusSum(signs: seq<bool>, ranks: seq<int>): int
    requires |signs| == |ranks|
  {
    if signs == [] then 0 else
    PlusSum(signs[..|signs|-1], ranks[..|ranks|-1]) + if signs[|signs|-1] then ranks[|ranks|-1] else 0
  }

  function Flip(signs: seq<bool>): (r: seq<bool>)
    ensures |r| == |signs|
  {
    seq(|signs|, i requires 0 <= i < |signs| => !signs[i])
  }

  /** The two-sided statistic of an assignment. */
  function Statistic(signs: seq<bool>, ranks: seq<int>): int
    requires |signs| == |ranks|
  {
    MinInt(PlusSum(signs, ranks), SumInts(ranks) - PlusSum(signs, ranks))
  }

  function Signs(ds: seq<real>): seq<bool> {
    seq(|ds|, i requires 0 <= i < |ds| => 0.0 < ds[i])
  }

  /** Is the assignment at least as extreme as one with statistic `observed`? */
  predicate Extreme(signs: seq<bool>, ranks: seq<int>, observed: int) {
    |signs| == |ranks| && Statistic(signs, ranks) <= observed
  }

  /** The number of assignments at least as extreme as the observed one. */
  function ExactCount(ds: seq<real>): nat {
    var ranks := DoubledRanks(ds);
    var observed := Statistic(Signs(ds), ranks);
    CountIf(AllSigns(|ds|), (s: seq<bool>) => Extreme(s, ranks, observed))
  }

  function ExactP(ds: seq<real>): real {
    PowPositive(|ds|);
    ExactCount(ds) as real / Pow2(|ds|) as real
  }

  lemma {:induction false} PowPositive(n: nat)
    ensures 0 < Pow2(n)
  {
    if n != 0 {
      PowPositive(n - 1);
    }
  }

  lemma {:induction false} FlipSum(signs: seq<bool>, ranks: seq<int>)
    requires |signs| == |ranks|
    ensures PlusSum(Flip(signs), ranks) == SumInts(ranks) - PlusSum(signs, ranks)
  {
    if signs != [] {
      FlipSum(signs[..|signs|-1], ranks[..|ranks|-1]);
      assert Flip(signs)[..|signs|-1] == Flip(signs[..|signs|-1]);
    }
  }

  /** Turning every sign around is exactly as extreme. */
  lemma FlipStatistic(signs: seq<bool>, ranks: seq<int>)
    requires |signs| == |ranks|
    ensures Statistic(Flip(signs), ranks) == Statistic(signs, ranks)
  {
    FlipSum(signs, ranks);
  }

  // ---- counting distinct assignments ----

  lemma {:induction false} CountOne(ss: seq<seq<bool>>, x: seq<bool>)
    requires x in ss && forall i, j :: 0 <= i < j < |ss| ==> ss[i] != ss[j]
    ensures CountIf(ss, (s: seq<bool>) => s == x) == 1
  {
    var init, last := ss[..|ss|-1], ss[|ss|-1];
    if last == x {
      CountIfNone(init, (s: seq<bool>) => s == x);
    } else {
      assert ss == init + [last];
      CountOne(init, x);
    }
  }

  function OneOf(x: seq<bool>, y: seq<bool>): seq<bool> -> bool {
    (s: seq<bool>) => s == x || s == y
  }

  lemma CountPair(n: nat, x: seq<bool>, y: seq<bool>)
    requires |x| == |y| == n && x != y
    ensures CountIf(AllSigns(n), OneOf(x, y)) == 2
  {
    SignsComplete(n, x);
    SignsComplete(n, y);
    SignsDistinct(n);
    CountOne(AllSigns(n), x);
    CountOne(AllSigns(n), y);
    CountIfSplit(AllSigns(n), (s: seq<bool>) => s == x, (s: seq<bool>) => s == y, OneOf(x, y));
  }

  // ---- the floor ----

  function Uniform(n: nat, b: bool): seq<bool> { seq(n, _ => b) }

  predicate SameSign(ds: seq<real>) {
    (forall i :: 0 <= i < |ds| ==> 0.0 < ds[i]) || (forall i :: 0 <= i < |ds| ==> ds[i] <= 0.0)
  }

  /** With positive ranks the sum is positive unless every sign is negative. */
  lemma {:induction false} PositiveSum(signs: seq<bool>, ranks: seq<int>)
    requires |signs| == |ranks| && forall i :: 0 <= i < |ranks| ==> 0 < ranks[i]
    ensures 0 <= PlusSum(signs, ranks)
    ensures PlusSum(signs, ranks) == 0 <==> signs == Uniform(|signs|, false)
  {
    if signs != [] {
      var k := |signs| - 1;
      PositiveSum(signs[..k], ranks[..k]);
      if signs == Uniform(|signs|, false) {
        assert signs[..k] == Uniform(k, false);
      }
      if !signs[k] && signs[..k] == Uniform(k, false) {
        assert signs == Uniform(|signs|, false);
      }
    }
  }

  /** Only the two uniform assignments have statistic 0. */
  lemma ZeroStatistic(signs: seq<bool>, ranks: seq<int>)
    requires |signs| == |ranks| && forall i :: 0 <= i < |ranks| ==> 0 < ranks[i]
    ensures 0 <= Statistic(signs, ranks)
    ensures Statistic(signs, ranks) <= 0 <==> signs == Uniform(|signs|, false) || signs == Uniform(|signs|, true)
  {
    PositiveSum(signs, ranks);
    PositiveSum(Flip(signs), ranks);
    FlipSum(signs, ranks);
    FlipUniform(signs);
  }

  lemma FlipUniform(signs: seq<bool>)
    ensures Flip(signs) == Uniform(|signs|, false) <==> signs == Uniform(|signs|, true)
    ensures Flip(signs) == Uniform(|signs|, true) <==> signs == Uniform(|signs|, false)
  {
    assert Flip(Flip(signs)) == signs;
    assert Flip(Uniform(|signs|, true)) == Uniform(|signs|, false);
    assert Flip(Uniform(|signs|, false)) == Uniform(|signs|, true);
  }

  /** The observed assignment and its reverse always count: the p-value is at least 2/2^n. */
  lemma AtLeastTwo(ds: seq<real>)
    requires ds != []
    ensures 2 <= ExactCount(ds)
  {
    var n, ranks, x := |ds|, DoubledRanks(ds), Signs(ds);
    var observed := Statistic(x, ranks);
    FlipStatistic(x, ranks);
    assert Flip(x)[0] != x[0];
    CountPair(n, x, Flip(x));
    CountIfAtMost(AllSigns(n), OneOf(x, Flip(x)), (s: seq<bool>) => Extreme(s, ranks, observed));
  }

  /** The count is the smallest possible exactly when all differences share a sign. */
  lemma FloorIffSameSign(ds: seq<real>)
    requires ds != []
    ensures ExactCount(ds) == 2 <==> SameSign(ds)
  {
    var n, ranks, x := |ds|, DoubledRanks(ds), Signs(ds);
    var no, yes := Uniform(n, false), Uniform(n, true);
    assert no[0] != yes[0];
    assert SameSign(ds) <==> x == no || x == yes by {
      SameSignIs(ds);
    }
    ZeroStatistic(x, ranks);
    SignsDistinct(n);
    CountPair(n, no, yes);
    var p := (s: seq<bool>) => Extreme(s, ranks, Statistic(x, ranks));
    forall i | 0 <= i < Pow2(n) ensures p(AllSigns(n)[i]) || !OneOf(no, yes)(AllSigns(n)[i])
                                ensures SameSign(ds) ==> p(AllSigns(n)[i]) == OneOf(no, yes)(AllSigns(n)[i])
    {
      ZeroStatistic(AllSigns(n)[i], ranks);
    }
    if SameSign(ds) {
      CountIfSame(AllSigns(n), p, OneOf(no, yes));
    } else {
      AtLeastFour(ds, no, yes);
    }
    CountIfSame(AllSigns(n), p, (s: seq<bool>) => Extreme(s, ranks, Statistic(x, ranks)));
  }

  lemma SameSignIs(ds: seq<real>)
    ensures SameSign(ds) <==> Signs(ds) == Uniform(|ds|, false) || Signs(ds) == Uniform(|ds|, true)
  {
    var x := Signs(ds);
    if x == Uniform(|ds|, false) {
      forall i | 0 <= i < |ds| ensures ds[i] <= 0.0 { assert !x[i]; }
    }
    if x == Uniform(|ds|, true) {
      forall i | 0 <= i < |ds| ensures 0.0 < ds[i] { assert x[i]; }
    }
    if forall i :: 0 <= i < |ds| ==> 0.0 < ds[i] {
      assert x == Uniform(|ds|, true);
    }
    if forall i :: 0 <= i < |ds| ==> ds[i] <= 0.0 {
      assert x == Uniform(|ds|, false);
    }
  }

  /** With mixed signs the two uniform assignments count besides the observed one and its reverse. */
  lemma AtLeastFour(ds: seq<real>, no: seq<bool>, yes: seq<bool>)
    requires ds != [] && no == Uniform(|ds|, false) && yes == Uniform(|ds|, true)
    requires Signs(ds) != no && Signs(ds) != yes
    ensures 4 <= ExactCount(ds)
  {
    var n, ranks, x := |ds|, DoubledRanks(ds), Signs(ds);
    var y := Flip(x);
    FlipStatistic(x, ranks);
    ZeroStatistic(x, ranks);
    ZeroStatistic(no, ranks);
    ZeroStatistic(yes, ranks);
    assert y[0] != x[0] && no[0] != yes[0];
    FlipUniform(x);
    CountPair(n, x, y);
    CountPair(n, no, yes);
    var both := (s: seq<bool>) => OneOf(x, y)(s) || OneOf(no, yes)(s);
    CountIfSplit(AllSigns(n), OneOf(x, y), OneOf(no, yes), both);
    CountIfAtMost(AllSigns(n), both, (s: seq<bool>) => Extreme(s, ranks, Statistic(x, ranks)));
  }

  // ---- the test ----

  function MinAchievableP(n: nat): real {
    PowPositive(n);
    if 2.0 / Pow2(n) as real <= 1.0 then 2.0 / Pow2(n) as real else 1.0
  }

  /** No data reaches a smaller p-value than the advertised floor, and the floor is reached exactly by
      differences that all share a sign. */
  lemma PFloor(ds: seq<real>)
    requires ds != []
    ensures MinAchievableP(|ds|) <= ExactP(ds) <= 1.0
    ensures ExactP(ds) == MinAchievableP(|ds|) <==> SameSign(ds)
  {
    var n := |ds|;
    PowPositive(n);
    PowPositive(n - 1);
    AtLeastTwo(ds);
    FloorIffSameSign(ds);
    CountIfBound(AllSigns(n), (s: seq<bool>) => Extreme(s, DoubledRanks(ds), Statistic(Signs(ds), DoubledRanks(ds))));
    QuotientFloor(ExactCount(ds), Pow2(n));
  }

  lemma QuotientFloor(a: nat, c: nat)
    requires 2 <= a <= c
    ensures 2.0 / c as real <= a as real / c as real <= 1.0
    ensures a as real / c as real == 2.0 / c as real <==> a == 2
  {
    var x, y := a as real / c as real, 2.0 / c as real;
    assert x * c as real == a as real && y * c as real == 2.0;
  }

  /** Exchanging the samples turns every difference around and leaves the p-value alone. */
  lemma SwapKeepsP(ds: seq<real>, es: seq<real>)
    requires |ds| == |es| && forall i :: 0 <= i < |ds| ==> ds[i] != 0.0 && es[i] == -ds[i]
    ensures ExactP(es) == ExactP(ds)
  {
    assert Magnitudes(es) == Magnitudes(ds);
    assert DoubledRanks(es) == DoubledRanks(ds);
    assert Signs(es) == Flip(Signs(ds));
    FlipStatistic(Signs(ds), DoubledRanks(ds));
    var ranks := DoubledRanks(ds);
    CountIfSame(AllSigns(|ds|), (s: seq<bool>) => Extreme(s, ranks, Statistic(Signs(ds), ranks)),
                (s: seq<bool>) => Extreme(s, DoubledRanks(es), Statistic(Signs(es), DoubledRanks(es))));
  }

  lemma {:induction false} SwapNonZero(ds: seq<real>, es: seq<real>)
    requires |ds| == |es| && forall i :: 0 <= i < |ds| ==> es[i] == -ds[i]
    ensures |NonZero(ds)| == |NonZero(es)|
    ensures forall i :: 0 <= i < |NonZero(ds)| ==> NonZero(ds)[i] != 0.0 && NonZero(es)[i] == -NonZero(ds)[i]
  {
    if ds != [] {
      SwapNonZero(ds[..|ds|-1], es[..|es|-1]);
    }
  }

  /** Exact, or the two-sided tail of the normal distribution at `deviation / sqrt(squares)`: four times the
      statistic less its mean, and sixteen times its variance, in undoubled ranks. */
  datatype PValue = Exact(p: real) | NormalTail(deviation: int, squares: int)

  datatype PairedTest = PairedTest(doubledStatistic: int, p: PValue, n: nat, dropped: nat, cannotReject: bool)

  const EXACT_LIMIT := 20

  /** The result of the whole test; nothing for data that is not paired. */
  function TestOf(a: seq<real>, b: seq<real>): Option<PairedTest> {
    if |a| != |b| || a == [] then None else Some(TestOfDifferences(Minus(a, b)))
  }

  function NormalOf(ds: seq<real>): PValue {
    NormalTail(2 * Statistic(Signs(ds), DoubledRanks(ds)) - SumInts(DoubledRanks(ds)), SumSquares(DoubledRanks(ds)))
  }

  function SumSquares(s: seq<int>): nat {
    if s == [] then 0 else SumSquares(s[..|s|-1]) + s[|s|-1] * s[|s|-1]
  }

  function TestOfDifferences(diffs: seq<real>): PairedTest {
    NonZeroShorter(diffs);
    var ds := NonZero(diffs);
    if ds == [] then PairedTest(0, Exact(1.0), 0, |diffs|, false)
    else PairedTest(Statistic(Signs(ds), DoubledRanks(ds)),
                    if |ds| <= EXACT_LIMIT then Exact(ExactP(ds)) else NormalOf(ds),
                    |ds|, |diffs| - |ds|, 0.05 < MinAchievableP(|ds|))
  }

  /** Exchanging the samples changes nothing in the result: statistic, p, sample size, dropped pairs and note. */
  lemma TestSymmetric(a: seq<real>, b: seq<real>)
    ensures TestOf(a, b) == TestOf(b, a)
  {
    if |a| == |b| && a != [] {
      var ds, es := NonZero(Minus(a, b)), NonZero(Minus(b, a));
      SwapNonZero(Minus(a, b), Minus(b, a));
      if ds != [] {
        SwapKeepsP(ds, es);
        SwapKeepsStatistic(ds, es);
      }
    }
  }

  lemma SwapKeepsStatistic(ds: seq<real>, es: seq<real>)
    requires |ds| == |es| && forall i :: 0 <= i < |ds| ==> ds[i] != 0.0 && es[i] == -ds[i]
    ensures Statistic(Signs(es), DoubledRanks(es)) == Statistic(Signs(ds), DoubledRanks(ds))
    ensures NormalOf(es) == NormalOf(ds)
  {
    assert Magnitudes(es) == Magnitudes(ds);
    assert DoubledRanks(es) == DoubledRanks(ds);
    assert Signs(es) == Flip(Signs(ds));
    FlipStatistic(Signs(ds), DoubledRanks(ds));
  }

  lemma {:induction false} SquaresPositive(s: seq<int>)
    requires forall i :: 0 <= i < |s| ==> 1 <= s[i]
    ensures |s| <= SumSquares(s)
  {
    if s != [] {
      SquaresPositive(s[..|s|-1]);
      var last := s[|s|-1];
      assert 1 <= last * last by {
        assert 0 <= (last - 1) * (last + 1);
      }
    }
  }

  /** In the normal approximation the variance is never zero, so its guard never applies, and the statistic never
      exceeds its mean n(n+1)/4, which is what makes the lower tail the right one. */
  lemma NormalWellDefined(ds: seq<real>)
    requires ds != []
    ensures NormalOf(ds).NormalTail? && |ds| <= NormalOf(ds).squares
    ensures NormalOf(ds).deviation == 2 * Statistic(Signs(ds), DoubledRanks(ds)) - |ds| * (|ds| + 1) <= 0
  {
    SquaresPositive(DoubledRanks(ds));
    RankTotal(ds);
  }

  lemma {:induction false} PowAtLeast(n: nat)
    requires 6 <= n
    ensures 64 <= Pow2(n)
  {
    if n == 6 {
      assert Pow2(3) == 8 && Pow2(6) == 8 * Pow2(3);
    } else {
      PowAtLeast(n - 1);
    }
  }

  /** The note is attached for at most five pairs only. */
  lemma NoteMeansFew(n: nat)
    requires 0.05 < MinAchievableP(n)
    ensures n <= 5
  {
    if 6 <= n {
      PowAtLeast(n);
      SmallQuotient(Pow2(n));
    }
  }

  lemma SmallQuotient(c: nat)
    requires 64 <= c
    ensures 2.0 / c as real <= 0.05
  {
  }

  /** Whenever the result carries the note that it cannot reject at 0.05, its p is exact and indeed above. */
  lemma NoteIsRight(a: seq<real>, b: seq<real>)
    requires TestOf(a, b).Some? && TestOf(a, b).value.cannotReject
    ensures TestOf(a, b).value.p.Exact? && 0.05 < TestOf(a, b).value.p.p
  {
    var ds := NonZero(Minus(a, b));
    NoteMeansFew(|ds|);
    PFloor(ds);
  }

  method SignedRank(a: seq<real>, b: seq<real>) returns (r: Option<PairedTest>)
    ensures r == TestOf(a, b)
    ensures r.Some? && r.value.cannotReject ==> r.value.p.Exact? && 0.05 < r.value.p.p
    ensures r.Some? <==> |a| == |b| && a != []
  {
    var paired := PairedDifferences(a, b);
    if paired.None? {
      return None;
    }
    r := TestDifferences(paired.value);
    if r.value.cannotReject {
      NoteIsRight(a, b);
    }
  }

  /** The test on the paired differences, zero differences dropped. */
  method TestDifferences(diffs: seq<real>) returns (r: Option<PairedTest>)
    ensures r == Some(TestOfDifferences(diffs))
  {
    NonZeroShorter(diffs);
    var ds := NonZero(diffs);
    var n := |ds|;
    if n == 0 {
      return Some(PairedTest(0, Exact(1.0), 0, |diffs|, false));
    }
    var ranks := Ranks(ds);
    var wPlus, total := SignedSums(ds, ranks[..]);
    var observed := MinInt(wPlus, total - wPlus);
    var p := PValueOf(ds, ranks[..], total, observed);
    return Some(PairedTest(observed, p, n, |diffs| - n, 0.05 < MinAchievableP(n)));
  }

  /** Exact up to the limit, and the normal approximation beyond. */
  method PValueOf(ds: seq<real>, ranks: seq<int>, total: int, observed: int) returns (p: PValue)
    requires ds != []
    requires ranks == DoubledRanks(ds) && total == SumInts(ranks) && observed == Statistic(Signs(ds), ranks)
    ensures p == if |ds| <= EXACT_LIMIT then Exact(ExactP(ds)) else NormalOf(ds)
  {
    if |ds| <= EXACT_LIMIT {
      var exact := ExactTail(ds, ranks, total, observed);
      p := Exact(exact);
    } else {
      var squares := Squares(ranks);
      p := NormalTail(2 * observed - total, squares);
    }
  }

  method Squares(ranks: seq<int>) returns (squares: nat)
    ensures squares == SumSquares(ranks)
  {
    squares := 0;
    for i := 0 to |ranks|
      invariant squares == SumSquares(ranks[..i])
    {
      assert ranks[..i+1][..i] == ranks[..i];
      squares := squares + ranks[i] * ranks[i];
    }
    assert ranks[..|ranks|] == ranks;
  }

  /** The share of the sign vectors that are at least as extreme as the observed one. */
  method ExactTail(ds: seq<real>, ranks: seq<int>, total: int, observed: int) returns (p: real)
    requires ds != []
    requires ranks == DoubledRanks(ds) && total == SumInts(ranks) && observed == Statistic(Signs(ds), ranks)
    ensures p == ExactP(ds)
  {
    var atLeast := CountExtreme(ranks, total, observed);
    PowPositive(|ds|);
    p := atLeast as real / Pow2(|ds|) as real;
    CountIsExact(ds, atLeast, observed);
    PFloor(ds);
    p := if p <= 1.0 then p else 1.0;
  }

  /** The sum of the ranks of the positive differences, and of all ranks. */
  method SignedSums(ds: seq<real>, ranks: seq<int>) returns (wPlus: int, total: int)
    requires |ranks| == |ds|
    ensures wPlus == PlusSum(Signs(ds), ranks) && total == SumInts(ranks)
  {
    wPlus, total := 0, 0;
    ghost var x := Signs(ds);
    for i := 0 to |ds|
      invariant wPlus == PlusSum(x[..i], ranks[..i]) && total == SumInts(ranks[..i])
    {
      assert ranks[..i+1][..i] == ranks[..i] && x[..i+1][..i] == x[..i];
      if 0.0 < ds[i] {
        wPlus := wPlus + ranks[i];
      }
      total := total + ranks[i];
    }
    assert ranks[..|ds|] == ranks && x[..|ds|] == x;
  }

  lemma CountIsExact(ds: seq<real>, atLeast: nat, observed: int)
    requires observed == Statistic(Signs(ds), DoubledRanks(ds))
    requires atLeast == CountIf(AllSigns(|ds|), (s: seq<bool>) => Extreme(s, DoubledRanks(ds), observed))
    ensures atLeast == ExactCount(ds)
  {
    var ranks := DoubledRanks(ds);
    CountIfSame(AllSigns(|ds|), (s: seq<bool>) => Extreme(s, DoubledRanks(ds), observed),
                (s: seq<bool>) => Extreme(s, ranks, Statistic(Signs(ds), ranks)));
  }

  lemma {:induction false} NonZeroShorter(ds: seq<real>)
    ensures |NonZero(ds)| <= |ds|
  {
    if ds != [] {
      NonZeroShorter(ds[..|ds|-1]);
    }
  }

  /** The exact enumeration. */
  method CountExtreme(ranks: seq<int>, total: int, observed: int) returns (atLeast: nat)
    requires total == SumInts(ranks)
    ensures atLeast == CountIf(AllSigns(|ranks|), (s: seq<bool>) => Extreme(s, ranks, observed))
  {
    var all := AllSigns(|ranks|);
    SignsDistinct(|ranks|);
    atLeast := 0;
    for i := 0 to |all|
      invariant atLeast == CountIf(all[..i], (s: seq<bool>) => Extreme(s, ranks, observed))
    {
      assert all[..i+1][..i] == all[..i];
      var plus := PlusSum(all[i], ranks);
      if MinInt(plus, total - plus) <= observed {
        atLeast := atLeast + 1;
      }
    }
    assert all[..|all|] == all;
  }
}
