/** Run configuration and the admission window of a class (C2). */
module Window {
  import opened Classes
  import opened Numbers

  datatype Mode = NoneMode | Baseline | Aaac

  datatype AdmissionConfig = AdmissionConfig(
    wBase: real,
    kappa: map<AccessClass, real>,
    wMax: real,
    alphaMin: real,
    alphaMax: real,
    alphaIncrease: real,
    alphaDecrease: real,
    controlTick: real,
    targetOriginP95: real,
    targetOriginErrRate: real,
    maxAttempts: int,
    pollIntervalMs: int
  )

  datatype RunConfig = RunConfig(
    mode: Mode,
    admission: AdmissionConfig,
    classMix: map<AccessClass, real>,
    concurrencyLimit: nat
  )

  function Min(x: real, y: real): real { if x <= y then x else y }

  function Max(x: real, y: real): real { if x <= y then y else x }

  function Kappa(cfg: AdmissionConfig, c: AccessClass): real {
    if c in cfg.kappa then cfg.kappa[c] else 1.0
  }

  function WindowFor(c: AccessClass, cfg: AdmissionConfig, mode: Mode): real {
    if mode != Aaac then cfg.wBase else Min(Mul(cfg.wBase, Kappa(cfg, c)), cfg.wMax)
  }

  function WindowsForAll(cfg: AdmissionConfig, mode: Mode): AccessClass -> real {
    c => WindowFor(c, cfg, mode)
  }

  function WeightedMeanWindow(counts: Tally, cfg: AdmissionConfig, mode: Mode): real {
    if counts.high + counts.medium + counts.low == 0 then cfg.wBase else
    WeightedMean(counts.high as real, counts.medium as real, counts.low as real,
                 WindowFor(HIGH, cfg, mode), WindowFor(MEDIUM, cfg, mode), WindowFor(LOW, cfg, mode))
  }

  function WeightedMean(h: real, m: real, l: real, x: real, y: real, z: real): real
    requires h + m + l != 0.0
  {
    (h * x + m * y + l * z) / (h + m + l)
  }

  /** `w` is the promised window of class `c`: flat outside `aaac`; inside it the base times the multiplier of the
      class, one if none is configured, but never above the ceiling. */
  predicate IsWindow(cfg: AdmissionConfig, mode: Mode, c: AccessClass, w: real) {
    if mode == NoneMode || mode == Baseline then w == cfg.wBase
    else
      var product := cfg.wBase * (if c in cfg.kappa then cfg.kappa[c] else 1.0);
      w <= product && w <= cfg.wMax && (w == product || w == cfg.wMax)
  }

  lemma WindowIs(c: AccessClass, cfg: AdmissionConfig, mode: Mode)
    ensures IsWindow(cfg, mode, c, WindowFor(c, cfg, mode))
  {
  }

  /** The multipliers do not fall as the link gets worse. */
  predicate KappaNonDecreasing(cfg: AdmissionConfig) {
    Kappa(cfg, HIGH) <= Kappa(cfg, MEDIUM) <= Kappa(cfg, LOW)
  }

  /** A worse class never gets a shorter window, so a downgrade never shortens one. */
  lemma WindowGrowsWithRank(c: AccessClass, d: AccessClass, cfg: AdmissionConfig, mode: Mode)
    requires KappaNonDecreasing(cfg) && 0.0 <= cfg.wBase
    requires c.Rank() <= d.Rank()
    ensures WindowFor(c, cfg, mode) <= WindowFor(d, cfg, mode)
  {
    CapGrows(cfg.wBase, Kappa(cfg, c), Kappa(cfg, d), cfg.wMax);
  }

  lemma CapGrows(base: real, k: real, l: real, cap: real)
    requires 0.0 <= base && k <= l
    ensures Min(Mul(base, k), cap) <= Min(Mul(base, l), cap)
  {
    Scale(base, k, l);
  }

  lemma Scale(n: real, x: real, y: real)
    requires 0.0 <= n && x <= y
    ensures n * x <= n * y
  {
  }

  lemma AddThree(a: real, b: real, c: real, a': real, b': real, c': real)
    requires a <= a' && b <= b' && c <= c'
    ensures a + b + c <= a' + b' + c'
  {
  }

  lemma SumScale(h: real, m: real, l: real, x: real, y: real, z: real, x': real, y': real, z': real)
    requires 0.0 <= h && 0.0 <= m && 0.0 <= l
    requires x <= x' && y <= y' && z <= z'
    ensures h * x + m * y + l * z <= h * x' + m * y' + l * z'
  {
    Scale(h, x, x');
    Scale(m, y, y');
    Scale(l, z, z');
    AddThree(h * x, m * y, l * z, h * x', m * y', l * z');
  }

  lemma Quotient(sum: real, n: real, lo: real)
    requires 0.0 < n
    ensures n * lo <= sum ==> lo <= sum / n
    ensures sum <= n * lo ==> sum / n <= lo
  {
    var q := sum / n;
    assert n * q == sum;
    assert q < lo ==> n * q < n * lo;
    assert lo < q ==> n * lo < n * q;
  }

  lemma Distribute(h: real, m: real, l: real, w: real)
    ensures (h + m + l) * w == h * w + m * w + l * w
  {
  }

  lemma MeanAtLeast(h: real, m: real, l: real, x: real, y: real, z: real, lo: real)
    requires 0.0 <= h && 0.0 <= m && 0.0 <= l && 0.0 < h + m + l
    requires lo <= x && lo <= y && lo <= z
    ensures lo <= WeightedMean(h, m, l, x, y, z)
  {
    SumScale(h, m, l, lo, lo, lo, x, y, z);
    Distribute(h, m, l, lo);
    Quotient(h * x + m * y + l * z, h + m + l, lo);
  }

  lemma MeanAtMost(h: real, m: real, l: real, x: real, y: real, z: real, hi: real)
    requires 0.0 <= h && 0.0 <= m && 0.0 <= l && 0.0 < h + m + l
    requires x <= hi && y <= hi && z <= hi
    ensures WeightedMean(h, m, l, x, y, z) <= hi
  {
    SumScale(h, m, l, x, y, z, hi, hi, hi);
    Distribute(h, m, l, hi);
    Quotient(h * x + m * y + l * z, h + m + l, hi);
  }

  /** The weighted mean stays between any bounds that hold for every class window. */
  lemma WeightedMeanBetween(counts: Tally, cfg: AdmissionConfig, mode: Mode, lo: real, hi: real)
    requires 0 <= counts.high && 0 <= counts.medium && 0 <= counts.low
    requires forall c: AccessClass :: lo <= WindowFor(c, cfg, mode) <= hi
    requires lo <= cfg.wBase <= hi
    ensures lo <= WeightedMeanWindow(counts, cfg, mode) <= hi
  {
    if counts.high + counts.medium + counts.low != 0 {
      var h, m, l := counts.high as real, counts.medium as real, counts.low as real;
      var x, y, z := WindowFor(HIGH, cfg, mode), WindowFor(MEDIUM, cfg, mode), WindowFor(LOW, cfg, mode);
      MeanAtLeast(h, m, l, x, y, z, lo);
      MeanAtMost(h, m, l, x, y, z, hi);
    }
  }
}
