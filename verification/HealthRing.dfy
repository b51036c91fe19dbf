/** The rolling health window: a fixed ring of buckets, and its agreement with the full history of outcomes. */
module HealthRing {
  import opened Seqs
  import opened Histogram

  datatype Outcome = Served(ms: real, ok: bool) | Rejected | Abandoned

  /** One recorded outcome, its instant, and the epoch, the bucket-wide time slice, in which it fell. */
  datatype Obs = Obs(epoch: int, outcome: Outcome, at: real)

  datatype Bucket = Bucket(epoch: int, served: nat, errors: nat, rejected: nat, abandoned: nat, hist: seq<nat>)

  function EmptyHist(): (h: seq<nat>)
    ensures |h| == HIST_BUCKETS && forall i :: 0 <= i < |h| ==> h[i] == 0
  {
    seq(HIST_BUCKETS, _ => 0)
  }

  function Reset(epoch: int): Bucket {
    Bucket(epoch, 0, 0, 0, 0, EmptyHist())
  }

  // ---- what is counted ----

  predicate IsServed(o: Outcome) { o.Served? }
  predicate IsRejected(o: Outcome) { o.Rejected? }
  predicate IsAbandoned(o: Outcome) { o.Abandoned? }

  /** A shed request is an error; a client that left is not. */
  predicate IsError(o: Outcome) { o.Rejected? || (o.Served? && !o.ok) }

  predicate InBucket(growth: real, o: Outcome, i: nat) { o.Served? && BucketIndex(growth, o.ms) == i }

  function EpochIs(epoch: int, p: Outcome -> bool): Obs -> bool {
    (o: Obs) => o.epoch == epoch && p(o.outcome)
  }

  function EpochIn(lo: int, hi: int, p: Outcome -> bool): Obs -> bool {
    (o: Obs) => lo <= o.epoch <= hi && p(o.outcome)
  }

  /** How many outcomes of one epoch satisfy `p`. */
  function AtEpoch(history: seq<Obs>, epoch: int, p: Outcome -> bool): nat {
    CountIf(history, EpochIs(epoch, p))
  }

  /** How many outcomes of the epochs `lo` to `hi` satisfy `p`. */
  function Within(history: seq<Obs>, lo: int, hi: int, p: Outcome -> bool): nat {
    CountIf(history, EpochIn(lo, hi, p))
  }

  // ---- the ring as a function of the history ----

  /** The epoch that each of the `n` slots holds; -1 where nothing has been recorded. */
  function SlotEpochs(history: seq<Obs>, n: nat): (es: seq<int>)
    requires 0 < n
    ensures |es| == n
  {
    if history == [] then seq(n, _ => -1) else
    var e := history[|history|-1].epoch;
    SlotEpochs(history[..|history|-1], n)[e % n := e]
  }

  /** Outcomes are recorded at non-negative, non-decreasing epochs. */
  ghost predicate Ordered(history: seq<Obs>, last: int) {
    && (forall i :: 0 <= i < |history| ==> 0 <= history[i].epoch <= last)
    && (forall i, j :: 0 <= i < j < |history| ==> history[i].epoch <= history[j].epoch)
  }

  /** A slot holds an epoch of its own residue, and no outcome that falls on it is newer. */
  lemma {:induction false} SlotFacts(history: seq<Obs>, n: nat, last: int)
    requires 0 < n && Ordered(history, last)
    ensures var es := SlotEpochs(history, n);
            && (forall j :: 0 <= j < n ==> es[j] == -1 || (0 <= es[j] <= last && es[j] % n == j))
            && (forall i :: 0 <= i < |history| ==> history[i].epoch <= es[history[i].epoch % n])
  {
    if history != [] {
      var init, e := history[..|history|-1], history[|history|-1].epoch;
      SlotFacts(init, n, e);
      assert forall i :: 0 <= i < |init| ==> init[i] == history[i] && init[i].epoch <= e;
    }
  }

  /** An outcome is still in its slot when its epoch is less than one turn of the ring old. */
  lemma Intact(history: seq<Obs>, n: nat, last: int, i: nat)
    requires 0 < n && Ordered(history, last) && i < |history| && last - n < history[i].epoch
    ensures SlotEpochs(history, n)[history[i].epoch % n] == history[i].epoch
  {
    SlotFacts(history, n, last);
    var e := history[i].epoch;
    var s := SlotEpochs(history, n)[e % n];
    assert s % n == e % n && e <= s < e + n;
    SameResidue(e, s, n);
  }

  lemma SameResidue(a: int, b: int, n: nat)
    requires 0 < n && a % n == b % n && a <= b < a + n
    ensures a == b
  {
    assert a == n * (a / n) + a % n && b == n * (b / n) + b % n;
    NoSmallMultiple(n, b / n - a / n);
    assert b - a == n * (b / n) - n * (a / n) == n * (b / n - a / n);
  }

  lemma NoSmallMultiple(n: nat, k: int)
    requires 0 < n
    ensures 0 <= n * k < n ==> k == 0
  {
    if 1 <= k {
      assert n * k >= n * 1;
    } else if k <= -1 {
      assert n * k <= n * -1;
    }
  }

  /** What a reader adds up: over the slots whose epoch is in the window, the outcomes of that epoch. */
  function RingSum(history: seq<Obs>, es: seq<int>, lo: int, hi: int, p: Outcome -> bool): nat {
    if es == [] then 0 else
    var e := es[|es|-1];
    RingSum(history, es[..|es|-1], lo, hi, p) + if lo <= e <= hi then AtEpoch(history, e, p) else 0
  }

  /** Every outcome of the window is in its slot: nothing newer has taken the slot over. */
  ghost predicate AllIntact(history: seq<Obs>, n: nat, lo: int, hi: int)
    requires 0 < n
  {
    forall i :: 0 <= i < |history| && lo <= history[i].epoch <= hi ==>
      SlotEpochs(history, n)[history[i].epoch % n] == history[i].epoch
  }

  lemma SlotStep(history: seq<Obs>, n: nat, last: int, lo: int, hi: int, p: Outcome -> bool, j: nat)
    requires 0 < n && Ordered(history, last) && AllIntact(history, n, lo, hi) && j < n
    ensures var e := SlotEpochs(history, n)[j];
            CountIf(history, (o: Obs) => lo <= o.epoch <= hi && o.epoch % n == j && p(o.outcome))
            == if lo <= e <= hi then AtEpoch(history, e, p) else 0
  {
    SlotFacts(history, n, last);
    var e := SlotEpochs(history, n)[j];
    var here := (o: Obs) => lo <= o.epoch <= hi && o.epoch % n == j && p(o.outcome);
    if lo <= e <= hi {
      CountIfSame(history, here, EpochIs(e, p));
    } else {
      CountIfNone(history, here);
    }
    CountIfSame(history, here, (o: Obs) => lo <= o.epoch <= hi && o.epoch % n == j && p(o.outcome));
  }

  lemma {:induction false} SlotsCount(history: seq<Obs>, n: nat, last: int, lo: int, hi: int, p: Outcome -> bool, j: nat)
    requires 0 < n && Ordered(history, last) && AllIntact(history, n, lo, hi) && j <= n
    ensures RingSum(history, SlotEpochs(history, n)[..j], lo, hi, p)
            == CountIf(history, (o: Obs) => lo <= o.epoch <= hi && o.epoch % n < j && p(o.outcome))
  {
    var es := SlotEpochs(history, n);
    if j == 0 {
      CountIfNone(history, (o: Obs) => lo <= o.epoch <= hi && o.epoch % n < 0 && p(o.outcome));
    } else {
      SlotsCount(history, n, last, lo, hi, p, j - 1);
      SlotStep(history, n, last, lo, hi, p, j - 1);
      assert es[..j][..j-1] == es[..j-1];
      CountIfSplit(history,
                   (o: Obs) => lo <= o.epoch <= hi && o.epoch % n < j - 1 && p(o.outcome),
                   (o: Obs) => lo <= o.epoch <= hi && o.epoch % n == j - 1 && p(o.outcome),
                   (o: Obs) => lo <= o.epoch <= hi && o.epoch % n < j && p(o.outcome));
    }
  }

  /** The ring agrees with the whole history on every window that is less than one turn old. */
  lemma RingAgrees(history: seq<Obs>, n: nat, last: int, lo: int, hi: int, p: Outcome -> bool)
    requires 0 < n && Ordered(history, last) && last - n < lo
    ensures RingSum(history, SlotEpochs(history, n), lo, hi, p) == Within(history, lo, hi, p)
  {
    forall i | 0 <= i < |history| && lo <= history[i].epoch <= hi
      ensures SlotEpochs(history, n)[history[i].epoch % n] == history[i].epoch
    {
      Intact(history, n, last, i);
    }
    SlotsCount(history, n, last, lo, hi, p, n);
    var es := SlotEpochs(history, n);
    assert es[..n] == es;
    CountIfSame(history, (o: Obs) => lo <= o.epoch <= hi && o.epoch % n < n && p(o.outcome),
                EpochIn(lo, hi, p));
  }

  /** The error window of `nErr` elapsed epochs can be trusted for every history exactly when it is
      shorter than the ring: otherwise the current epoch may have taken over its oldest slot. */
  lemma ErrorWindowTrustedIff(n: nat, nErr: nat)
    requires 0 < n && 0 < nErr
    ensures nErr < n <==>
            forall history: seq<Obs>, now: int :: Ordered(history, now) ==>
              RingSum(history, SlotEpochs(history, n), now - nErr, now - 1, IsError) == Within(history, now - nErr, now - 1, IsError)
  {
    if nErr < n {
      forall history: seq<Obs>, now: int | Ordered(history, now)
        ensures RingSum(history, SlotEpochs(history, n), now - nErr, now - 1, IsError) == Within(history, now - nErr, now - 1, IsError)
      {
        RingAgrees(history, n, now, now - nErr, now - 1, IsError);
      }
    } else {
      Overwritten(n, nErr);
      var h := [Obs(0, Rejected, 0.0), Obs(n, Rejected, n as real)];
      assert Ordered(h, n);
      assert RingSum(h, SlotEpochs(h, n), n - nErr, n - 1, IsError) != Within(h, n - nErr, n - 1, IsError);
    }
  }

  /** A rejection at epoch 0 and one at epoch n share a slot: the first is lost to the window before n. */
  lemma Overwritten(n: nat, nErr: nat)
    requires 0 < n <= nErr
    ensures var h := [Obs(0, Rejected, 0.0), Obs(n, Rejected, n as real)];
            && RingSum(h, SlotEpochs(h, n), n - nErr, n - 1, IsError) == 0
            && Within(h, n - nErr, n - 1, IsError) == 1
  {
    var h := [Obs(0, Rejected, 0.0), Obs(n, Rejected, n as real)];
    var es := SlotEpochs(h, n);
    assert h[..1] == [Obs(0, Rejected, 0.0)] && h[..1][..0] == [];
    assert n % n == 0;
    assert es == SlotEpochs(h[..1], n)[0 := n];
    assert SlotEpochs(h[..1], n) == SlotEpochs([], n)[0 := 0];
    forall j | 0 <= j < n ensures es[j] == n || es[j] == -1 {}
    ZeroSum(h, es, n - nErr, n - 1);
    var p := EpochIn(n - nErr, n - 1, IsError);
    assert CountIf(h, p) == CountIf(h[..1], p) + (if p(h[1]) then 1 else 0);
    assert CountIf(h[..1], p) == CountIf(h[..1][..0], p) + (if p(h[0]) then 1 else 0);
  }

  lemma {:induction false} ZeroSum(h: seq<Obs>, es: seq<int>, lo: int, hi: int)
    requires forall i :: 0 <= i < |h| ==> 0 <= h[i].epoch
    requires forall j :: 0 <= j < |es| ==> es[j] == -1 || hi < es[j]
    ensures RingSum(h, es, lo, hi, IsError) == 0
  {
    if es != [] {
      ZeroSum(h, es[..|es|-1], lo, hi);
      if es[|es|-1] == -1 {
        CountIfNone(h, EpochIs(-1, IsError));
      }
    }
  }
}
