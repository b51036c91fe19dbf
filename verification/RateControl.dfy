/** The controller's arithmetic over many ticks: the admission rate (AIMD), the completion estimate (EWMA)
    and the concurrency cap. */
module RateControl {
  import opened Numbers
  import opened Classes
  import opened Window
  import opened QueueStore
  import opened Admission

  /** A geometric sequence: each element is `d` times the one before. */
  ghost predicate Powers(g: seq<real>, d: real) {
    forall i, j :: 0 <= i && j == i + 1 && j < |g| ==> g[j] == Cut(g[i], d)
  }

  // ---- products ----

  lemma Shrink(x: real, d: real)
    requires 0.0 <= x && 0.0 <= d <= 1.0
    ensures 0.0 <= x * d && x * d <= x
  {
  }

  lemma CutShrinks(x: real, d: real)
    requires 0.0 <= x && 0.0 <= d <= 1.0
    ensures 0.0 <= Cut(x, d) <= x
  {
    Shrink(x, d);
  }

  lemma Diff(a: real, x: real, y: real)
    ensures a * (x - y) == a * x - a * y
  {
  }

  lemma Halves(a: real, x: real)
    ensures a * x + (1.0 - a) * x == x
  {
  }

  lemma PowersStep(g: seq<real>, d: real, i: nat)
    requires Powers(g, d) && 0.0 <= d <= 1.0 && i + 1 < |g| && 0.0 <= g[i]
    ensures 0.0 <= g[i+1] <= g[i]
  {
    CutShrinks(g[i], d);
  }

  /** The elements of a geometric sequence with a factor in [0, 1] stay between 0 and its start. */
  lemma {:induction false} PowersShrink(g: seq<real>, d: real, k: nat)
    requires Powers(g, d) && 0.0 <= d <= 1.0 && k < |g| && 0.0 <= g[0]
    ensures 0.0 <= g[k] <= g[0]
  {
    if k != 0 {
      PowersShrink(g, d, k - 1);
      PowersStep(g, d, k - 1);
    }
  }

  // ---- AIMD ----

  /** `rates` is what the controller goes through while it sees `hs`. */
  ghost predicate RateTrace(cfg: RunConfig, rates: seq<real>, hs: seq<Health>) {
    && |rates| == |hs| + 1
    && InRange(cfg, rates[0])
    && forall i, j :: 0 <= i < |hs| && j == i + 1 ==> rates[j] == NextAlpha(cfg, rates[i], hs[i])
  }

  predicate InRange(cfg: RunConfig, alpha: real) {
    cfg.admission.alphaMin <= alpha <= cfg.admission.alphaMax
  }

  lemma Clamp(lo: real, hi: real, x: real, xd: real, lod: real, m: real)
    requires lo <= hi && 0.0 <= xd <= x <= hi && lod <= lo
    requires m == if lo <= x then xd else lod
    ensures Max(lo, Min(m, hi)) == Max(lo, xd)
  {
  }

  lemma DecayStep(x: real, d: real, lo: real, hi: real)
    requires 0.0 <= lo <= hi && 0.0 <= x <= hi && 0.0 <= d <= 1.0
    ensures Max(lo, Min(Cut(Max(lo, x), d), hi)) == Max(lo, Cut(x, d))
  {
    CutShrinks(x, d);
    CutShrinks(lo, d);
    Clamp(lo, hi, x, Cut(x, d), Cut(lo, d), Cut(Max(lo, x), d));
  }

  lemma NextUnhealthy(cfg: RunConfig, alpha: real, h: Health, x: real)
    requires !Healthy(cfg, h) && 0.0 <= cfg.admission.alphaMin <= cfg.admission.alphaMax && 0.0 <= cfg.admission.alphaDecrease <= 1.0
    requires alpha == Max(cfg.admission.alphaMin, x) && 0.0 <= x <= cfg.admission.alphaMax
    ensures NextAlpha(cfg, alpha, h) == Max(cfg.admission.alphaMin, Cut(x, cfg.admission.alphaDecrease))
  {
    DecayStep(x, cfg.admission.alphaDecrease, cfg.admission.alphaMin, cfg.admission.alphaMax);
  }

  /** `k` unhealthy samples in a row: geometric decay down to the minimum, and no further. */
  lemma {:induction false} UnhealthyDecay(cfg: RunConfig, rates: seq<real>, hs: seq<Health>, g: seq<real>, k: nat)
    requires RateTrace(cfg, rates, hs) && forall i :: 0 <= i < |hs| ==> !Healthy(cfg, hs[i])
    requires 0.0 <= cfg.admission.alphaMin && 0.0 <= cfg.admission.alphaDecrease <= 1.0
    requires |g| == |rates| && g[0] == rates[0] && Powers(g, cfg.admission.alphaDecrease)
    requires k < |rates|
    ensures rates[k] == Max(cfg.admission.alphaMin, g[k])
  {
    if k != 0 {
      UnhealthyDecay(cfg, rates, hs, g, k - 1);
      PowersShrink(g, cfg.admission.alphaDecrease, k - 1);
      NextUnhealthy(cfg, rates[k-1], hs[k-1], g[k-1]);
      assert g[k] == Cut(g[k-1], cfg.admission.alphaDecrease);
      assert rates[k] == NextAlpha(cfg, rates[k-1], hs[k-1]);
    }
  }

  /** `k` healthy samples in a row: linear growth up to the maximum. */
  lemma {:induction false} HealthyGrowth(cfg: RunConfig, rates: seq<real>, hs: seq<Health>, k: nat)
    requires RateTrace(cfg, rates, hs) && forall i :: 0 <= i < |hs| ==> Healthy(cfg, hs[i])
    requires 0.0 <= cfg.admission.alphaIncrease && k < |rates|
    ensures rates[k] == Min(cfg.admission.alphaMax, rates[0] + Mul(k as real, cfg.admission.alphaIncrease))
  {
    if k != 0 {
      HealthyGrowth(cfg, rates, hs, k - 1);
      Multiple(k - 1, cfg.admission.alphaIncrease);
      NextHealthy(cfg, rates[k-1], hs[k-1], rates[0] + Mul((k - 1) as real, cfg.admission.alphaIncrease));
      assert rates[k] == NextAlpha(cfg, rates[k-1], hs[k-1]);
    }
  }

  lemma NextHealthy(cfg: RunConfig, alpha: real, h: Health, x: real)
    requires Healthy(cfg, h) && 0.0 <= cfg.admission.alphaIncrease
    requires alpha == Min(cfg.admission.alphaMax, x) && cfg.admission.alphaMin <= x && cfg.admission.alphaMin <= cfg.admission.alphaMax
    ensures NextAlpha(cfg, alpha, h) == Min(cfg.admission.alphaMax, x + cfg.admission.alphaIncrease)
  {
  }

  lemma Multiple(k: nat, inc: real)
    ensures Mul((k + 1) as real, inc) == Mul(k as real, inc) + inc && Mul(0.0, inc) == 0.0
    ensures 0.0 <= inc ==> 0.0 <= Mul(k as real, inc)
  {
    assert (k + 1) as real == k as real + 1.0;
  }

  /** I4: over every run, whatever the steps, the rate stays between its bounds. */
  lemma {:induction false} AlphaStaysInRange(cfg: RunConfig, y: System, steps: seq<Step>)
    requires Known(y.store) && 0.0 < cfg.admission.controlTick && InRange(cfg, y.alpha)
    ensures InRange(cfg, Run(cfg, y, steps).alpha)
    decreases |steps|
  {
    if steps != [] {
      AlphaStep(cfg, y, steps[0]);
      AlphaStaysInRange(cfg, Next(cfg, y, steps[0]), steps[1..]);
    }
  }

  lemma AlphaStep(cfg: RunConfig, y: System, step: Step)
    requires Known(y.store) && 0.0 < cfg.admission.controlTick && InRange(cfg, y.alpha)
    ensures InRange(cfg, Next(cfg, y, step).alpha)
  {
  }

  // ---- EWMA ----

  function Weight(cfg: RunConfig): real {
    Min(1.0, cfg.admission.controlTick / MU_HAT_HORIZON)
  }

  /** `ms` is what the estimate goes through while the ticks see `comps` completions. */
  ghost predicate EstimateTrace(cfg: RunConfig, ms: seq<real>, comps: seq<nat>)
    requires 0.0 < cfg.admission.controlTick
  {
    && |ms| == |comps| + 1
    && forall i, j :: 0 <= i < |comps| && j == i + 1 ==> ms[j] == NextMuHat(cfg, ms[i], comps[i])
  }

  lemma BlendLow(a: real, x: real, m: real)
    requires 0.0 <= a <= 1.0 && 0.0 <= x && 0.0 <= m
    ensures 0.0 <= a * x + (1.0 - a) * m
  {
    Product(a, x);
    Product(1.0 - a, m);
  }

  lemma BlendHigh(a: real, x: real, m: real, hi: real)
    requires 0.0 <= a <= 1.0 && x <= hi && m <= hi
    ensures a * x + (1.0 - a) * m <= hi
  {
    BlendLow(a, hi - x, hi - m);
    Diff(a, hi, x);
    Diff(1.0 - a, hi, m);
    Halves(a, hi);
  }

  lemma BlendAbove(a: real, x: real, m: real, lo: real)
    requires 0.0 <= a <= 1.0 && lo <= x && lo <= m
    ensures lo <= a * x + (1.0 - a) * m
  {
    BlendLow(a, x - lo, m - lo);
    Diff(a, x, lo);
    Diff(1.0 - a, m, lo);
    Halves(a, lo);
  }

  lemma WeightInUnit(cfg: RunConfig)
    requires 0.0 < cfg.admission.controlTick
    ensures 0.0 <= Weight(cfg) <= 1.0 && Weight(cfg) <= cfg.admission.controlTick / MU_HAT_HORIZON
  {
  }

  lemma NextMuHatBetween(cfg: RunConfig, m: real, n: nat, low: real, top: real)
    requires 0.0 < cfg.admission.controlTick && low <= m <= top
    requires low <= n as real / cfg.admission.controlTick <= top
    ensures low <= NextMuHat(cfg, m, n) <= top
  {
    WeightInUnit(cfg);
    BlendAbove(Weight(cfg), n as real / cfg.admission.controlTick, m, low);
    BlendHigh(Weight(cfg), n as real / cfg.admission.controlTick, m, top);
  }

  /** The estimate never leaves the range of what was observed, on either side. */
  lemma {:induction false} EstimateBetween(cfg: RunConfig, ms: seq<real>, comps: seq<nat>, low: real, top: real, k: nat)
    requires 0.0 < cfg.admission.controlTick && EstimateTrace(cfg, ms, comps) && low <= ms[0] <= top
    requires forall i :: 0 <= i < |comps| ==> low <= comps[i] as real / cfg.admission.controlTick <= top
    requires k < |ms|
    ensures low <= ms[k] <= top
  {
    if k != 0 {
      EstimateBetween(cfg, ms, comps, low, top, k - 1);
      NextMuHatBetween(cfg, ms[k-1], comps[k-1], low, top);
      assert ms[k] == NextMuHat(cfg, ms[k-1], comps[k-1]);
    }
  }

  lemma GapStep(cfg: RunConfig, m: real, n: nat)
    requires 0.0 < cfg.admission.controlTick
    ensures var r := n as real / cfg.admission.controlTick;
            r - NextMuHat(cfg, m, n) == Cut(r - m, 1.0 - Weight(cfg))
  {
    var r, a := n as real / cfg.admission.controlTick, Weight(cfg);
    Halves(a, r);
    Diff(1.0 - a, r, m);
  }

  /** At a steady completion rate the distance of the estimate from it shrinks by the same factor every tick, so after
      `k` ticks it is the k-th element of the geometric sequence that starts at the present distance. */
  lemma {:induction false} EstimateConverges(cfg: RunConfig, ms: seq<real>, comps: seq<nat>, n: nat, g: seq<real>, k: nat)
    requires 0.0 < cfg.admission.controlTick && EstimateTrace(cfg, ms, comps)
    requires (forall i :: 0 <= i < |comps| ==> comps[i] == n) && k < |ms| == |g|
    requires g[0] == n as real / cfg.admission.controlTick - ms[0] && Powers(g, 1.0 - Weight(cfg))
    ensures n as real / cfg.admission.controlTick - ms[k] == g[k]
  {
    if k != 0 {
      EstimateConverges(cfg, ms, comps, n, g, k - 1);
      GapStep(cfg, ms[k-1], n);
      assert ms[k] == NextMuHat(cfg, ms[k-1], comps[k-1]);
      assert g[k] == Cut(g[k-1], 1.0 - Weight(cfg));
    }
  }

  lemma IdleStep(cfg: RunConfig, m: real)
    requires 0.0 < cfg.admission.controlTick
    ensures NextMuHat(cfg, m, 0) == m * (1.0 - Weight(cfg))
  {
    assert 0.0 / cfg.admission.controlTick == 0.0;
  }

  /** One idle tick costs at most the fraction `a` of the value that the pause started from. */
  lemma LossStep(x: real, g: real, a: real)
    requires 0.0 <= g <= x && 0.0 <= a <= 1.0
    ensures g - x * a <= g * (1.0 - a)
    ensures 0.0 <= g * (1.0 - a) && g * (1.0 - a) <= g
  {
    Product(a, x - g);
    Diff(a, x, g);
    Shrink(g, 1.0 - a);
  }

  lemma LossSum(x: real, loss: real, k: nat, g: real, next: real)
    requires 0 < k && x - Mul((k - 1) as real, loss) <= g && g - loss <= next
    ensures x - Mul(k as real, loss) <= next
  {
    Multiple(k - 1, loss);
  }

  /** The estimate outlives a pause: `k` idle ticks cost at most k times the fraction tick / horizon of it. */
  lemma {:induction false} IdleLoss(cfg: RunConfig, ms: seq<real>, comps: seq<nat>, k: nat)
    requires 0.0 < cfg.admission.controlTick && EstimateTrace(cfg, ms, comps) && 0.0 <= ms[0]
    requires (forall i :: 0 <= i < |comps| ==> comps[i] == 0) && k < |ms|
    ensures ms[0] - Mul(k as real, Mul(ms[0], Weight(cfg))) <= ms[k] && 0.0 <= ms[k] <= ms[0]
    ensures Weight(cfg) <= cfg.admission.controlTick / MU_HAT_HORIZON
  {
    WeightInUnit(cfg);
    if k != 0 {
      IdleLoss(cfg, ms, comps, k - 1);
      IdleStep(cfg, ms[k-1]);
      LossStep(ms[0], ms[k-1], Weight(cfg));
      LossSum(ms[0], Mul(ms[0], Weight(cfg)), k, ms[k-1], NextMuHat(cfg, ms[k-1], 0));
      assert ms[k] == NextMuHat(cfg, ms[k-1], comps[k-1]);
    }
  }

  // ---- the ticks of a run ----

  /** The step is the count of a tick. */
  predicate Counts(y: System, step: Step) { step.TickCount? && y.phase == Idle }

  /** The rate at the start of a run and after each count. */
  function Alphas(cfg: RunConfig, y: System, steps: seq<Step>): (r: seq<real>)
    requires Known(y.store) && 0.0 < cfg.admission.controlTick
    ensures r != [] && r[0] == y.alpha
    decreases |steps|
  {
    if steps == [] then [y.alpha]
    else
      var y' := Next(cfg, y, steps[0]);
      StepKeepsRates(cfg, y, steps[0]);
      if Counts(y, steps[0]) then [y.alpha] + Alphas(cfg, y', steps[1..]) else Alphas(cfg, y', steps[1..])
  }

  /** What the counts saw of the origin. */
  function Healths(cfg: RunConfig, y: System, steps: seq<Step>): seq<Health>
    requires Known(y.store) && 0.0 < cfg.admission.controlTick
    decreases |steps|
  {
    if steps == [] then []
    else
      (if Counts(y, steps[0]) then [steps[0].health] else []) + Healths(cfg, Next(cfg, y, steps[0]), steps[1..])
  }

  /** The estimate at the start of a run and after each count. */
  function Estimates(cfg: RunConfig, y: System, steps: seq<Step>): (r: seq<real>)
    requires Known(y.store) && 0.0 < cfg.admission.controlTick
    ensures r != [] && r[0] == y.muHat
    decreases |steps|
  {
    if steps == [] then [y.muHat]
    else
      var y' := Next(cfg, y, steps[0]);
      StepKeepsRates(cfg, y, steps[0]);
      if Counts(y, steps[0]) then [y.muHat] + Estimates(cfg, y', steps[1..]) else Estimates(cfg, y', steps[1..])
  }

  /** The completions that the counts consumed. */
  function Completions(cfg: RunConfig, y: System, steps: seq<Step>): seq<nat>
    requires Known(y.store) && 0.0 < cfg.admission.controlTick
    decreases |steps|
  {
    if steps == [] then []
    else (if Counts(y, steps[0]) then [y.completions] else []) + Completions(cfg, Next(cfg, y, steps[0]), steps[1..])
  }

  /** Only a count changes the rate and the estimate. */
  lemma StepKeepsRates(cfg: RunConfig, y: System, step: Step)
    requires Known(y.store) && 0.0 < cfg.admission.controlTick
    ensures var y' := Next(cfg, y, step);
            && y'.alpha == (if Counts(y, step) then NextAlpha(cfg, y.alpha, step.health) else y.alpha)
            && y'.muHat == if Counts(y, step) then NextMuHat(cfg, y.muHat, y.completions) else y.muHat
  {
  }

  lemma RateTraceCons(cfg: RunConfig, a: real, h: Health, rates: seq<real>, hs: seq<Health>)
    requires InRange(cfg, a) && RateTrace(cfg, rates, hs) && rates[0] == NextAlpha(cfg, a, h)
    ensures RateTrace(cfg, [a] + rates, [h] + hs)
  {
    var rs, gs := [a] + rates, [h] + hs;
    forall i, j | 0 <= i < |gs| && j == i + 1 ensures rs[j] == NextAlpha(cfg, rs[i], gs[i]) {
      assert i != 0 ==> rs[j] == rates[i] && rs[i] == rates[i-1] && gs[i] == hs[i-1];
    }
  }

  lemma EstimateTraceCons(cfg: RunConfig, m: real, n: nat, ms: seq<real>, ns: seq<nat>)
    requires 0.0 < cfg.admission.controlTick && EstimateTrace(cfg, ms, ns) && ms[0] == NextMuHat(cfg, m, n)
    ensures EstimateTrace(cfg, [m] + ms, [n] + ns)
  {
    var xs, ks := [m] + ms, [n] + ns;
    forall i, j | 0 <= i < |ks| && j == i + 1 ensures xs[j] == NextMuHat(cfg, xs[i], ks[i]) {
      assert i != 0 ==> xs[j] == ms[i] && xs[i] == ms[i-1] && ks[i] == ns[i-1];
    }
  }

  /** The rates of a run, whatever else happens between its ticks, are a trace of the rate control, and it ends with
      the last of them. */
  lemma {:induction false} RunIsRateTrace(cfg: RunConfig, y: System, steps: seq<Step>)
    requires Known(y.store) && 0.0 < cfg.admission.controlTick && InRange(cfg, y.alpha)
    ensures var rates := Alphas(cfg, y, steps);
            RateTrace(cfg, rates, Healths(cfg, y, steps)) && Run(cfg, y, steps).alpha == rates[|rates|-1]
    decreases |steps|
  {
    if steps != [] {
      var y' := Next(cfg, y, steps[0]);
      StepKeepsRates(cfg, y, steps[0]);
      AlphaStep(cfg, y, steps[0]);
      RunIsRateTrace(cfg, y', steps[1..]);
      if Counts(y, steps[0]) {
        RateTraceCons(cfg, y.alpha, steps[0].health, Alphas(cfg, y', steps[1..]), Healths(cfg, y', steps[1..]));
      } else {
        assert [] + Healths(cfg, y', steps[1..]) == Healths(cfg, y', steps[1..]);
      }
    }
  }

  /** The estimates of a run are a trace of the estimator, and it ends with the last of them. */
  lemma {:induction false} RunIsEstimateTrace(cfg: RunConfig, y: System, steps: seq<Step>)
    requires Known(y.store) && 0.0 < cfg.admission.controlTick
    ensures var ms := Estimates(cfg, y, steps);
            EstimateTrace(cfg, ms, Completions(cfg, y, steps)) && Run(cfg, y, steps).muHat == ms[|ms|-1]
    decreases |steps|
  {
    if steps != [] {
      var y' := Next(cfg, y, steps[0]);
      StepKeepsRates(cfg, y, steps[0]);
      RunIsEstimateTrace(cfg, y', steps[1..]);
      if Counts(y, steps[0]) {
        EstimateTraceCons(cfg, y.muHat, y.completions, Estimates(cfg, y', steps[1..]), Completions(cfg, y', steps[1..]));
      } else {
        assert [] + Completions(cfg, y', steps[1..]) == Completions(cfg, y', steps[1..]);
      }
    }
  }

  /** A run whose ticks all find the origin unhealthy ends with the decayed rate, one factor for each tick. */
  lemma RunDecays(cfg: RunConfig, y: System, steps: seq<Step>, hs: seq<Health>, g: seq<real>)
    requires Known(y.store) && 0.0 < cfg.admission.controlTick && InRange(cfg, y.alpha)
    requires 0.0 <= cfg.admission.alphaMin && 0.0 <= cfg.admission.alphaDecrease <= 1.0
    requires hs == Healths(cfg, y, steps) && forall i :: 0 <= i < |hs| ==> !Healthy(cfg, hs[i])
    requires |g| == |hs| + 1 && g[0] == y.alpha && Powers(g, cfg.admission.alphaDecrease)
    ensures Run(cfg, y, steps).alpha == Max(cfg.admission.alphaMin, g[|hs|])
  {
    var rates := RunRates(cfg, y, steps, hs);
    UnhealthyDecay(cfg, rates, hs, g, |hs|);
  }

  lemma RunRates(cfg: RunConfig, y: System, steps: seq<Step>, hs: seq<Health>) returns (rates: seq<real>)
    requires Known(y.store) && 0.0 < cfg.admission.controlTick && InRange(cfg, y.alpha) && hs == Healths(cfg, y, steps)
    ensures RateTrace(cfg, rates, hs) && rates[0] == y.alpha && rates[|hs|] == Run(cfg, y, steps).alpha
  {
    rates := Alphas(cfg, y, steps);
    RunIsRateTrace(cfg, y, steps);
  }

  /** A run whose ticks all find it healthy ends with the grown rate, one increment for each tick. */
  lemma RunGrows(cfg: RunConfig, y: System, steps: seq<Step>, hs: seq<Health>)
    requires Known(y.store) && 0.0 < cfg.admission.controlTick && InRange(cfg, y.alpha) && 0.0 <= cfg.admission.alphaIncrease
    requires hs == Healths(cfg, y, steps) && forall i :: 0 <= i < |hs| ==> Healthy(cfg, hs[i])
    ensures Run(cfg, y, steps).alpha == Min(cfg.admission.alphaMax, y.alpha + Mul(|hs| as real, cfg.admission.alphaIncrease))
  {
    var rates := RunRates(cfg, y, steps, hs);
    HealthyGrowth(cfg, rates, hs, |hs|);
  }

  lemma RunMuHats(cfg: RunConfig, y: System, steps: seq<Step>, ns: seq<nat>) returns (ms: seq<real>)
    requires Known(y.store) && 0.0 < cfg.admission.controlTick && ns == Completions(cfg, y, steps)
    ensures EstimateTrace(cfg, ms, ns) && ms[0] == y.muHat && ms[|ns|] == Run(cfg, y, steps).muHat
  {
    ms := Estimates(cfg, y, steps);
    RunIsEstimateTrace(cfg, y, steps);
  }

  /** Over every run the estimate stays between the smallest and the largest rate that a tick has seen. */
  lemma RunEstimates(cfg: RunConfig, y: System, steps: seq<Step>, ns: seq<nat>, low: real, top: real)
    requires Known(y.store) && 0.0 < cfg.admission.controlTick && low <= y.muHat <= top && ns == Completions(cfg, y, steps)
    requires forall i :: 0 <= i < |ns| ==> low <= ns[i] as real / cfg.admission.controlTick <= top
    ensures low <= Run(cfg, y, steps).muHat <= top
  {
    var ms := RunMuHats(cfg, y, steps, ns);
    EstimateBetween(cfg, ms, ns, low, top, |ns|);
  }

  /** A run whose ticks see no completions keeps what that many ticks cannot take. */
  lemma RunIdles(cfg: RunConfig, y: System, steps: seq<Step>, ns: seq<nat>)
    requires Known(y.store) && 0.0 < cfg.admission.controlTick && 0.0 <= y.muHat && ns == Completions(cfg, y, steps)
    requires forall i :: 0 <= i < |ns| ==> ns[i] == 0
    ensures y.muHat - Mul(|ns| as real, Mul(y.muHat, Weight(cfg))) <= Run(cfg, y, steps).muHat <= y.muHat
  {
    var ms := RunMuHats(cfg, y, steps, ns);
    IdleLoss(cfg, ms, ns, |ns|);
  }

  // ---- the cap ----

  lemma CeilMonotone(x: real, y: real)
    requires x <= y
    ensures Ceil(x) <= Ceil(y)
  {
  }

  lemma ProductMonotone(a: real, b: real, w: real, hi: real)
    requires 0.0 <= a <= b && 0.0 <= w <= hi
    ensures a * w <= b * hi
  {
    assert a * w <= a * hi by { Scale(a, w, hi); }
    assert hi * a <= hi * b by { Scale(hi, a, b); }
  }

  /** The cap lies between its floor and the larger of the floor and what the best observed rate fills in
      the longest window. */
  lemma CapBetween(cfg: RunConfig, muHat: real, top: real, waiting: nat, lo: real, hi: real)
    requires 0.0 <= muHat <= top && 0.0 <= lo
    requires forall c: AccessClass :: 0.0 <= Mix(cfg, c, 0.33) && 0.0 <= Mix(cfg, c, 0.34)
    requires forall c: AccessClass :: lo <= WindowFor(c, cfg.admission, cfg.mode) <= hi
    requires lo <= cfg.admission.wBase <= hi
    ensures MinCMax(cfg) <= CMax(cfg, muHat, waiting) <= MaxInt(MinCMax(cfg), Ceil(top * hi))
  {
    var w := WeightedMeanWindow(WaitingMix(cfg, waiting), cfg.admission, cfg.mode);
    assert lo <= w <= hi by { MeanWindowBetween(cfg, waiting, lo, hi); }
    CapBelow(muHat, top, w, hi, MinCMax(cfg));
  }

  lemma MeanWindowBetween(cfg: RunConfig, waiting: nat, lo: real, hi: real)
    requires forall c: AccessClass :: 0.0 <= Mix(cfg, c, 0.33) && 0.0 <= Mix(cfg, c, 0.34)
    requires forall c: AccessClass :: lo <= WindowFor(c, cfg.admission, cfg.mode) <= hi
    requires lo <= cfg.admission.wBase <= hi
    ensures lo <= WeightedMeanWindow(WaitingMix(cfg, waiting), cfg.admission, cfg.mode) <= hi
  {
    MixNonNegative(cfg, waiting);
    WeightedMeanBetween(WaitingMix(cfg, waiting), cfg.admission, cfg.mode, lo, hi);
  }

  lemma CapBelow(m: real, top: real, w: real, hi: real, floor: int)
    requires 0.0 <= m <= top && 0.0 <= w <= hi
    ensures CapFor(m, w, floor) <= MaxInt(floor, Ceil(top * hi))
  {
    ProductMonotone(m, top, w, hi);
    CeilMonotone(m * w, top * hi);
  }

  lemma MixNonNegative(cfg: RunConfig, waiting: nat)
    requires forall c: AccessClass :: 0.0 <= Mix(cfg, c, 0.33) && 0.0 <= Mix(cfg, c, 0.34)
    ensures var t := WaitingMix(cfg, waiting); 0 <= t.high && 0 <= t.medium && 0 <= t.low
  {
    PortionNonNegative(waiting, Mix(cfg, HIGH, 0.33));
    PortionNonNegative(waiting, Mix(cfg, MEDIUM, 0.33));
    PortionNonNegative(waiting, Mix(cfg, LOW, 0.34));
  }

  lemma PortionNonNegative(total: nat, share: real)
    requires 0.0 <= share
    ensures 0 <= Portion(total, share)
  {
    Product(total as real, share);
  }
}
