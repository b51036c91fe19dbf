/** Jain's fairness index of the completion rates: (sum x)^2 / (n * sum x^2). */
module JainIndex {
  import opened Classes
  import opened Numbers
  import opened Seqs

  // ---- products, kept apart ----

  function Sq(a: real): real { Mul(a, a) }

  lemma MulPositive(a: real, b: real)
    requires 0.0 < a && 0.0 < b
    ensures 0.0 < Mul(a, b)
  {
  }

  lemma MulZero(a: real)
    ensures Mul(a, 0.0) == 0.0 && Mul(0.0, a) == 0.0 && Mul(a, 1.0) == a && Mul(1.0, a) == a
  {
  }

  lemma MulSign(a: real, b: real)
    requires 0.0 <= a && 0.0 <= b
    ensures 0.0 <= Mul(a, b) && (Mul(a, b) == 0.0 <==> a == 0.0 || b == 0.0)
  {
    if 0.0 < a && 0.0 < b {
      MulPositive(a, b);
    } else {
      MulZero(a);
      MulZero(b);
    }
  }

  lemma MulAdds(a: real, b: real, x: real)
    ensures Mul(a + b, x) == Mul(a, x) + Mul(b, x) && Mul(x, a + b) == Mul(x, a) + Mul(x, b)
  {
  }

  lemma MulFlips(a: real, b: real)
    ensures Mul(a, b) == Mul(b, a) && Mul(-a, b) == -Mul(a, b) && Mul(a, -b) == -Mul(a, b)
  {
  }

  lemma SqSign(a: real)
    ensures 0.0 <= Sq(a) && (Sq(a) == 0.0 <==> a == 0.0)
  {
    if 0.0 <= a {
      MulSign(a, a);
    } else {
      MulSign(-a, -a);
      MulFlips(a, -a);
      MulFlips(a, a);
    }
  }

  lemma SqOfSum(a: real, x: real)
    ensures Sq(a + x) == Sq(a) + 2.0 * Mul(a, x) + Sq(x)
  {
    MulAdds(a, x, a + x);
    MulAdds(a, x, a);
    MulAdds(a, x, x);
    MulFlips(a, x);
  }

  lemma SqOfDifference(a: real, x: real)
    ensures Sq(a - x) == Sq(a) - 2.0 * Mul(a, x) + Sq(x)
  {
    SqOfSum(a, -x);
    MulFlips(a, x);
    MulFlips(x, -x);
    MulFlips(x, x);
  }

  // ---- the index ----

  function Squares(xs: seq<real>): (r: seq<real>)
    ensures |r| == |xs|
  {
    seq(|xs|, i requires 0 <= i < |xs| => Sq(xs[i]))
  }

  function SumOfSquares(xs: seq<real>): real { SumReals(Squares(xs)) }

  function Index(n: real, square: real, sq: real): real
    requires 0.0 < n && 0.0 < sq
  {
    MulPositive(n, sq);
    square / Mul(n, sq)
  }

  /** The index, or nothing for no values at all. */
  function Jain(xs: seq<real>): Option<real> {
    if xs == [] then None
    else Some(if SumOfSquares(xs) <= 0.0 then 1.0 else Index(|xs| as real, Sq(SumReals(xs)), SumOfSquares(xs)))
  }

  /** What stands between the index and 1: n * sum x^2 - (sum x)^2. */
  function Gap(xs: seq<real>): real {
    Mul(|xs| as real, SumOfSquares(xs)) - Sq(SumReals(xs))
  }

  function Diffs(xs: seq<real>, x: real): (r: seq<real>)
    ensures |r| == |xs|
  {
    seq(|xs|, i requires 0 <= i < |xs| => Sq(xs[i] - x))
  }

  lemma SumsLast(xs: seq<real>, x: real)
    requires xs != []
    ensures var most, last := xs[..|xs|-1], xs[|xs|-1];
            && SumReals(xs) == SumReals(most) + last
            && SumOfSquares(xs) == SumOfSquares(most) + Sq(last)
            && SumReals(Diffs(xs, x)) == SumReals(Diffs(most, x)) + Sq(last - x)
  {
    assert Squares(xs)[..|xs|-1] == Squares(xs[..|xs|-1]);
    assert Diffs(xs, x)[..|xs|-1] == Diffs(xs[..|xs|-1], x);
  }

  /** The squared differences to `x`, expanded. */
  lemma {:induction false} DiffsExpand(xs: seq<real>, x: real)
    ensures SumReals(Diffs(xs, x)) == SumOfSquares(xs) - 2.0 * Mul(SumReals(xs), x) + Mul(|xs| as real, Sq(x))
  {
    if xs == [] {
      MulZero(x);
      MulZero(Sq(x));
    } else {
      var most, last := xs[..|xs|-1], xs[|xs|-1];
      DiffsExpand(most, x);
      SumsLast(xs, x);
      SqOfDifference(last, x);
      MulAdds(SumReals(most), last, x);
      MulAdds(|most| as real, 1.0, Sq(x));
      MulZero(Sq(x));
    }
  }

  /** One more value widens the gap by its squared differences to the others. */
  lemma GapStep(xs: seq<real>)
    requires xs != []
    ensures Gap(xs) == Gap(xs[..|xs|-1]) + SumReals(Diffs(xs[..|xs|-1], xs[|xs|-1]))
  {
    var most, x := xs[..|xs|-1], xs[|xs|-1];
    SumsLast(xs, x);
    DiffsExpand(most, x);
    SqOfSum(SumReals(most), x);
    MulAdds(|most| as real, 1.0, SumOfSquares(xs));
    MulZero(SumOfSquares(xs));
    MulAdds(SumOfSquares(most), Sq(x), |most| as real);
  }

  lemma {:induction false} DiffsSign(xs: seq<real>, x: real)
    ensures 0.0 <= SumReals(Diffs(xs, x))
    ensures SumReals(Diffs(xs, x)) == 0.0 <==> forall i :: 0 <= i < |xs| ==> xs[i] == x
  {
    if xs != [] {
      var most := xs[..|xs|-1];
      DiffsSign(most, x);
      SumsLast(xs, x);
      SqSign(xs[|xs|-1] - x);
      assert forall i :: 0 <= i < |most| ==> most[i] == xs[i];
    }
  }

  predicate AllEqual(xs: seq<real>) {
    forall i, j :: 0 <= i < |xs| && 0 <= j < |xs| ==> xs[i] == xs[j]
  }

  lemma AllEqualLast(xs: seq<real>)
    requires xs != []
    ensures var most := xs[..|xs|-1];
            AllEqual(xs) <==> AllEqual(most) && forall i :: 0 <= i < |most| ==> most[i] == xs[|xs|-1]
  {
    var most := xs[..|xs|-1];
    assert forall i :: 0 <= i < |most| ==> most[i] == xs[i];
    if forall i :: 0 <= i < |most| ==> most[i] == xs[|xs|-1] {
      assert forall i :: 0 <= i < |xs| ==> xs[i] == xs[|xs|-1];
    }
  }

  /** Cauchy-Schwarz, with its case of equality. */
  lemma {:induction false} CauchySchwarz(xs: seq<real>)
    ensures 0.0 <= Gap(xs) && (Gap(xs) == 0.0 <==> AllEqual(xs))
  {
    if xs == [] {
      MulZero(0.0);
    } else {
      CauchySchwarz(xs[..|xs|-1]);
      GapStep(xs);
      DiffsSign(xs[..|xs|-1], xs[|xs|-1]);
      AllEqualLast(xs);
    }
  }

  /** At most one value is not zero. */
  predicate OneTakesAll(xs: seq<real>) {
    forall i, j :: 0 <= i < j < |xs| ==> xs[i] == 0.0 || xs[j] == 0.0
  }

  predicate AllZero(xs: seq<real>) {
    forall i :: 0 <= i < |xs| ==> xs[i] == 0.0
  }

  lemma {:induction false} SumSign(xs: seq<real>)
    requires NonNegative(xs)
    ensures 0.0 <= SumReals(xs) && (SumReals(xs) == 0.0 <==> AllZero(xs))
  {
    if xs != [] {
      var most := xs[..|xs|-1];
      SumSign(most);
      assert forall i :: 0 <= i < |most| ==> most[i] == xs[i];
    }
  }

  lemma SquaresSign(xs: seq<real>)
    ensures 0.0 <= SumOfSquares(xs) && (SumOfSquares(xs) == 0.0 <==> AllZero(xs))
  {
    forall i | 0 <= i < |xs| ensures 0.0 <= Squares(xs)[i] && (Squares(xs)[i] == 0.0 <==> xs[i] == 0.0) {
      SqSign(xs[i]);
    }
    SumSign(Squares(xs));
  }

  lemma OneTakesAllLast(xs: seq<real>)
    requires xs != []
    ensures var most := xs[..|xs|-1];
            OneTakesAll(xs) <==> OneTakesAll(most) && (xs[|xs|-1] == 0.0 || AllZero(most))
  {
    var most, n := xs[..|xs|-1], |xs| - 1;
    assert forall i :: 0 <= i < n ==> most[i] == xs[i];
    if OneTakesAll(most) && (xs[n] == 0.0 || AllZero(most)) {
      forall i, j | 0 <= i < j < |xs| ensures xs[i] == 0.0 || xs[j] == 0.0 {
        assert j < n ==> most[i] == 0.0 || most[j] == 0.0;
      }
    }
  }

  /** The square of a sum of non-negative values is at least the sum of the squares, equal if one takes all. */
  lemma {:induction false} SquareAtLeast(xs: seq<real>)
    requires NonNegative(xs)
    ensures SumOfSquares(xs) <= Sq(SumReals(xs)) && (SumOfSquares(xs) == Sq(SumReals(xs)) <==> OneTakesAll(xs))
  {
    if xs == [] {
      MulZero(0.0);
    } else {
      var most, x := xs[..|xs|-1], xs[|xs|-1];
      SquareAtLeast(most);
      SumsLast(xs, x);
      SqOfSum(SumReals(most), x);
      SumSign(most);
      MulSign(SumReals(most), x);
      OneTakesAllLast(xs);
    }
  }

  lemma Compare(a: real, b: real, y: real)
    requires 0.0 < y && a <= b
    ensures a / y <= b / y && (a / y == b / y <==> a == b)
  {
    assert a / y * y == a && b / y * y == b;
  }

  lemma Cancel(n: real, sq: real)
    requires 0.0 < n && 0.0 < sq && Mul(n, sq) != 0.0
    ensures sq / Mul(n, sq) == 1.0 / n
  {
    var r := 1.0 / n;
    assert r * n == 1.0;
    assert r * (n * sq) == (r * n) * sq == sq;
    assert (r * (n * sq)) / (n * sq) == r;
  }

  /** The bounds of the index, from the bounds of the square of the sum. */
  lemma IndexBetween(n: real, square: real, sq: real)
    requires 0.0 < n && 0.0 < sq && sq <= square <= Mul(n, sq)
    ensures 1.0 / n <= Index(n, square, sq) <= 1.0
    ensures Index(n, square, sq) == 1.0 <==> square == Mul(n, sq)
    ensures Index(n, square, sq) == 1.0 / n <==> square == sq
  {
    MulPositive(n, sq);
    var y := Mul(n, sq);
    assert y / y == 1.0;
    Compare(square, y, y);
    Compare(sq, square, y);
    Cancel(n, sq);
  }

  /** The index of non-negative values that are not all zero lies between 1/n and 1: it is 1 exactly when all are
      equal, and 1/n exactly when one takes all. It is 1 when all are zero. */
  lemma JainRange(xs: seq<real>)
    requires xs != [] && NonNegative(xs)
    ensures var j, least := Jain(xs).value, 1.0 / |xs| as real;
            least <= j <= 1.0 && (j == 1.0 <==> AllEqual(xs)) && (!AllZero(xs) ==> (j == least <==> OneTakesAll(xs)))
  {
    SquaresSign(xs);
    if AllZero(xs) {
      AtMostOne(|xs| as real);
      assert AllEqual(xs);
    } else {
      CauchySchwarz(xs);
      SquareAtLeast(xs);
      IndexBetween(|xs| as real, Sq(SumReals(xs)), SumOfSquares(xs));
    }
  }

  /** By its definition: the index times n times the sum of squares is the square of the sum. */
  lemma JainTimes(xs: seq<real>)
    requires xs != [] && !AllZero(xs)
    ensures Mul(Jain(xs).value, Mul(|xs| as real, SumOfSquares(xs))) == Mul(SumReals(xs), SumReals(xs))
  {
    SquaresSign(xs);
    MulPositive(|xs| as real, SumOfSquares(xs));
    Restore(Sq(SumReals(xs)), Mul(|xs| as real, SumOfSquares(xs)));
  }

  lemma Restore(a: real, b: real)
    requires b != 0.0
    ensures Mul(a / b, b) == a
  {
  }

  /** Only the proportions count. */
  lemma {:induction false} SumsScale(xs: seq<real>, ys: seq<real>, k: real)
    requires |xs| == |ys| && forall i :: 0 <= i < |xs| ==> ys[i] == Mul(k, xs[i])
    ensures SumReals(ys) == Mul(k, SumReals(xs)) && SumOfSquares(ys) == Mul(Sq(k), SumOfSquares(xs))
  {
    if xs == [] {
      assert ys == [] && Squares(xs) == [] && Squares(ys) == [];
      MulZero(k);
      MulZero(Sq(k));
    } else {
      var x, most := xs[|xs|-1], xs[..|xs|-1];
      SumsScale(most, ys[..|ys|-1], k);
      SumsLast(xs, x);
      SumsLast(ys, ys[|ys|-1]);
      MulAdds(SumReals(most), x, k);
      MulAdds(SumOfSquares(most), Sq(x), Sq(k));
      SqOfMul(k, x);
    }
  }

  /** The index does not depend on the unit in which the values are measured. */
  lemma JainScaleFree(xs: seq<real>, ys: seq<real>, k: real)
    requires k != 0.0 && xs != [] && |xs| == |ys| && forall i :: 0 <= i < |xs| ==> ys[i] == Mul(k, xs[i])
    ensures Jain(ys) == Jain(xs)
  {
    SumsScale(xs, ys, k);
    SquaresSign(xs);
    SqSign(k);
    SqOfMul(k, SumReals(xs));
    if 0.0 < SumOfSquares(xs) {
      MulPositive(Sq(k), SumOfSquares(xs));
      MulPositive(|xs| as real, SumOfSquares(xs));
      Reduce(Sq(k), Sq(SumReals(xs)), SumOfSquares(xs), |xs| as real);
    } else {
      MulSign(Sq(k), SumOfSquares(xs));
    }
  }

  lemma Reduce(c: real, a: real, b: real, n: real)
    requires c != 0.0 && Mul(n, b) != 0.0 && Mul(n, Mul(c, b)) != 0.0
    ensures Mul(c, a) / Mul(n, Mul(c, b)) == a / Mul(n, b)
  {
    var q := a / Mul(n, b);
    assert q * (n * b) == a;
    assert q * (n * (c * b)) == c * (q * (n * b));
    assert (q * Mul(n, Mul(c, b))) / Mul(n, Mul(c, b)) == q;
  }

  lemma SqOfMul(k: real, x: real)
    ensures Sq(Mul(k, x)) == Mul(Sq(k), Sq(x))
  {
  }

  lemma AtMostOne(n: real)
    requires 1.0 <= n
    ensures 1.0 / n <= 1.0
  {
  }

  method JainsIndex(xs: seq<real>) returns (j: Option<real>)
    ensures j == Jain(xs)
  {
    if xs == [] {
      return None;
    }
    var total, sq := 0.0, 0.0;
    for i := 0 to |xs|
      invariant total == SumReals(xs[..i]) && sq == SumReals(Squares(xs)[..i])
    {
      assert xs[..i+1][..i] == xs[..i] && Squares(xs)[..i+1][..i] == Squares(xs)[..i];
      total := total + xs[i];
      sq := sq + Sq(xs[i]);
    }
    assert xs[..|xs|] == xs && Squares(xs)[..|xs|] == Squares(xs);
    SquaresSign(xs);
    j := Some(if sq == 0.0 then 1.0 else Index(|xs| as real, Sq(total), sq));
  }
}
