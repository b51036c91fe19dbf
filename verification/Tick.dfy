/** What one control tick does, in the terms of its configuration: the rate, the estimate, the cap, how many tickets
    it admits, and the window that each of them gets. */
module Tick {
  import opened Numbers
  import opened Classes
  import opened Window
  import opened Seqs
  import opened QueueStore
  import opened Admission
  import opened Invariants
  import opened Exactness
  import opened Fairness
  import opened Capacity

  // ---- the rate ----

  predicate OnTarget(adm: AdmissionConfig, h: Health) {
    match h
    case Unreachable => false
    case Sample(p99, errRate) => p99 < adm.targetOriginP95 && errRate < adm.targetOriginErrRate
  }

  /** I4 in one tick: an origin within both targets raises the rate by the increment, up to the maximum; any other,
      and one that cannot be reached, cuts it by the factor, down to the minimum. */
  lemma CountMovesRate(cfg: RunConfig, y: System, now: real, h: Health)
    requires 0.0 < cfg.admission.controlTick && y.phase == Idle
    requires cfg.admission.alphaMin <= y.alpha <= cfg.admission.alphaMax
    ensures var a, a', adm := y.alpha, DoCount(cfg, y, now, h).alpha, cfg.admission;
            && (OnTarget(adm, h) && 0.0 <= adm.alphaIncrease ==>
                  a' <= a + adm.alphaIncrease && a' <= adm.alphaMax && (a' == a + adm.alphaIncrease || a' == adm.alphaMax))
            && (!OnTarget(adm, h) && a * adm.alphaDecrease <= a ==>
                  a * adm.alphaDecrease <= a' && adm.alphaMin <= a' && (a' == a * adm.alphaDecrease || a' == adm.alphaMin))
  {
    CountFields(cfg, y, now, h);
    NextAlphaMoves(cfg, y.alpha, h, Cut(y.alpha, cfg.admission.alphaDecrease));
    CutIs(y.alpha, cfg.admission.alphaDecrease);
  }

  lemma CutIs(a: real, d: real)
    ensures Cut(a, d) == a * d
  {
  }

  lemma NextAlphaMoves(cfg: RunConfig, a: real, h: Health, cut: real)
    requires cfg.admission.alphaMin <= a <= cfg.admission.alphaMax && cut == Cut(a, cfg.admission.alphaDecrease)
    ensures var a', adm := NextAlpha(cfg, a, h), cfg.admission;
            && (OnTarget(adm, h) && 0.0 <= adm.alphaIncrease ==>
                  a' <= a + adm.alphaIncrease && a' <= adm.alphaMax && (a' == a + adm.alphaIncrease || a' == adm.alphaMax))
            && (!OnTarget(adm, h) && cut <= a ==> cut <= a' && adm.alphaMin <= a' && (a' == cut || a' == adm.alphaMin))
  {
  }

  /** The fields that a count sets. */
  lemma CountFields(cfg: RunConfig, y: System, now: real, h: Health)
    requires 0.0 < cfg.admission.controlTick && y.phase == Idle
    ensures var y' := DoCount(cfg, y, now, h);
            && y'.store == y.store && y'.completions == 0
            && y'.alpha == NextAlpha(cfg, y.alpha, h) && y'.muHat == NextMuHat(cfg, y.muHat, y.completions)
            && y'.phase.Counted?
            && y'.phase.r.now == now && y'.phase.r.inFlight == |y.store.inflight|
            && y'.phase.r.cMax == CMax(cfg, y'.muHat, |y.store.waiting|)
            && y'.phase.r.n == Quota(cfg, y'.alpha, y'.phase.r.cMax, |y.store.waiting|, |y.store.inflight|)
  {
  }

  // ---- the completion estimate ----

  /** In one tick of at most a minute every completion adds a sixtieth to the estimate, and what was there fades by
      the tick's share of a minute; the completions are used up. */
  lemma CountMovesEstimate(cfg: RunConfig, y: System, now: real, h: Health)
    requires 0.0 < cfg.admission.controlTick && y.phase == Idle
    ensures var y' := DoCount(cfg, y, now, h);
            && y'.completions == 0
            && (cfg.admission.controlTick <= 60.0 ==>
                  60.0 * y'.muHat == y.completions as real + (60.0 - cfg.admission.controlTick) * y.muHat)
            && (60.0 <= cfg.admission.controlTick ==> cfg.admission.controlTick * y'.muHat == y.completions as real)
  {
    CountFields(cfg, y, now, h);
    NextMuHatMoves(cfg, y.muHat, y.completions);
  }

  lemma NextMuHatMoves(cfg: RunConfig, m: real, n: nat)
    requires 0.0 < cfg.admission.controlTick
    ensures var tick, m' := cfg.admission.controlTick, NextMuHat(cfg, m, n);
            && (tick <= 60.0 ==> 60.0 * m' == n as real + (60.0 - tick) * m)
            && (60.0 <= tick ==> tick * m' == n as real)
  {
    var tick := cfg.admission.controlTick;
    if tick <= 60.0 {
      Blend(tick, n as real, m);
      assert NextMuHat(cfg, m, n) == tick / 60.0 * (n as real / tick) + (1.0 - tick / 60.0) * m;
    }
    if 60.0 <= tick {
      assert tick * (n as real / tick) == n as real;
      assert NextMuHat(cfg, m, n) == 1.0 * (n as real / tick) + 0.0 * m;
    }
  }

  lemma Blend(tick: real, n: real, m: real)
    requires 0.0 < tick
    ensures 60.0 * (tick / 60.0 * (n / tick) + (1.0 - tick / 60.0) * m) == n + (60.0 - tick) * m
  {
    var a, r := tick / 60.0, n / tick;
    assert a * 60.0 == tick && r * tick == n;
    assert a * r * 60.0 == n by { assert a * 60.0 * r == tick * r; }
    assert (1.0 - a) * 60.0 == 60.0 - tick;
    assert (1.0 - a) * m * 60.0 == (60.0 - tick) * m by { assert ((1.0 - a) * 60.0) * m == (60.0 - tick) * m; }
  }

  // ---- the cap ----

  /** How many of the waiting clients the mix makes class `c`: its share, rounded down. */
  predicate IsPortion(cfg: RunConfig, waiting: nat, c: AccessClass, n: int) {
    var share := if c in cfg.classMix then cfg.classMix[c] else if c == LOW then 0.34 else 0.33;
    n as real <= waiting as real * share < n as real + 1.0
  }

  /** `mean` is the mean of the windows `w` over the `t` clients of each class, and the base window for none. */
  predicate IsMean(adm: AdmissionConfig, t: Tally, w: AccessClass -> real, mean: real) {
    if t.high + t.medium + t.low == 0 then mean == adm.wBase
    else mean * (t.high + t.medium + t.low) as real
         == t.high as real * w(HIGH) + t.medium as real * w(MEDIUM) + t.low as real * w(LOW)
  }

  /** `mean` is the mean window of a queue of that length. */
  ghost predicate IsMeanWindow(cfg: RunConfig, waiting: nat, mean: real) {
    exists t: Tally, w: AccessClass -> real :: MeanOf(cfg, waiting, mean, t, w)
  }

  ghost predicate MeanOf(cfg: RunConfig, waiting: nat, mean: real, t: Tally, w: AccessClass -> real) {
    && (forall c: AccessClass :: IsPortion(cfg, waiting, c, t.Get(c)))
    && (forall c: AccessClass :: IsWindow(cfg.admission, cfg.mode, c, w(c)))
    && IsMean(cfg.admission, t, w, mean)
  }

  /** A quarter of what the origin serves at once, rounded down, but at least one. */
  predicate IsCapFloor(cfg: RunConfig, n: int) {
    1 <= n && if cfg.concurrencyLimit < 8 then n == 1 else 4 * n <= cfg.concurrencyLimit < 4 * (n + 1)
  }

  /** The cap of a tick is the least number that reaches its floor and what the new estimate completes in one mean
      window. */
  lemma CountSetsCap(cfg: RunConfig, y: System, now: real, h: Health) returns (mean: real, floor: int)
    requires 0.0 < cfg.admission.controlTick && y.phase == Idle
    requires forall c :: c in cfg.classMix ==> 0.0 <= cfg.classMix[c]
    ensures IsMeanWindow(cfg, |y.store.waiting|, mean) && IsCapFloor(cfg, floor)
    ensures var y' := DoCount(cfg, y, now, h);
            && y'.phase.Counted?
            && var cMax := y'.phase.r.cMax;
            && floor <= cMax && Mul(y'.muHat, mean) <= cMax as real
            && (cMax == floor || (cMax - 1) as real < Mul(y'.muHat, mean))
  {
    mean := MeanOfMix(cfg, |y.store.waiting|);
    floor := MinCMax(cfg);
    FloorIs(cfg);
    CountCap(cfg, y, now, h, mean);
  }

  lemma FloorIs(cfg: RunConfig)
    ensures IsCapFloor(cfg, MinCMax(cfg))
  {
  }

  lemma CountCap(cfg: RunConfig, y: System, now: real, h: Health, mean: real)
    requires 0.0 < cfg.admission.controlTick && y.phase == Idle
    requires mean == WeightedMeanWindow(WaitingMix(cfg, |y.store.waiting|), cfg.admission, cfg.mode)
    ensures var y', floor := DoCount(cfg, y, now, h), MinCMax(cfg);
            && y'.phase.Counted?
            && var cMax := y'.phase.r.cMax;
            && floor <= cMax && Mul(y'.muHat, mean) <= cMax as real
            && (cMax == floor || (cMax - 1) as real < Mul(y'.muHat, mean))
  {
    CountFields(cfg, y, now, h);
    CapIsLeast(DoCount(cfg, y, now, h).muHat, mean, MinCMax(cfg));
  }

  lemma CapIsLeast(muHat: real, mean: real, floor: int)
    ensures var cap := CapFor(muHat, mean, floor);
            floor <= cap && Mul(muHat, mean) <= cap as real && (cap == floor || (cap - 1) as real < Mul(muHat, mean))
  {
    CeilIsLeast(muHat * mean);
  }

  lemma CeilIsLeast(x: real)
    ensures x <= Ceil(x) as real && (Ceil(x) - 1) as real < x
  {
  }

  lemma MeanOfMix(cfg: RunConfig, waiting: nat) returns (mean: real)
    requires forall c :: c in cfg.classMix ==> 0.0 <= cfg.classMix[c]
    ensures mean == WeightedMeanWindow(WaitingMix(cfg, waiting), cfg.admission, cfg.mode)
    ensures IsMeanWindow(cfg, waiting, mean)
  {
    var t, w := WaitingMix(cfg, waiting), WindowsForAll(cfg.admission, cfg.mode);
    mean := WeightedMeanWindow(t, cfg.admission, cfg.mode);
    forall c: AccessClass ensures IsPortion(cfg, waiting, c, t.Get(c)) {
      PortionIs(cfg, waiting, c, t.Get(c));
    }
    forall c: AccessClass ensures IsWindow(cfg.admission, cfg.mode, c, w(c)) {
      WindowIs(c, cfg.admission, cfg.mode);
    }
    MeanOfTally(t, cfg.admission, cfg.mode);
    assert MeanOf(cfg, waiting, mean, t, w);
  }

  lemma MeanOfTally(t: Tally, adm: AdmissionConfig, mode: Mode)
    ensures IsMean(adm, t, WindowsForAll(adm, mode), WeightedMeanWindow(t, adm, mode))
  {
    var wh, wm, wl := WindowFor(HIGH, adm, mode), WindowFor(MEDIUM, adm, mode), WindowFor(LOW, adm, mode);
    if t.high + t.medium + t.low != 0 {
      MeanTimesTotal(t.high as real, t.medium as real, t.low as real, wh, wm, wl);
    }
  }

  lemma MeanTimesTotal(h: real, m: real, l: real, x: real, y: real, z: real)
    requires h + m + l != 0.0
    ensures WeightedMean(h, m, l, x, y, z) * (h + m + l) == h * x + m * y + l * z
  {
  }

  lemma PortionIs(cfg: RunConfig, waiting: nat, c: AccessClass, n: int)
    requires n == WaitingMix(cfg, waiting).Get(c)
    requires c in cfg.classMix ==> 0.0 <= cfg.classMix[c]
    ensures IsPortion(cfg, waiting, c, n)
  {
    var share := if c in cfg.classMix then cfg.classMix[c] else if c == LOW then 0.34 else 0.33;
    Product(waiting as real, share);
    assert n == Trunc(Mul(waiting as real, share));
  }

  // ---- how many are admitted ----

  /** `n` exhausts a tick at rate `alpha` and cap `cMax`: it exceeds neither whom the tick saw waiting, nor the room
      under the cap, nor the tokens, and it stops only at one of the three. */
  predicate Exhausts(n: int, tokens: real, cMax: int, waiting: nat, inFlight: nat) {
    && n <= waiting && (0 < n ==> inFlight + n <= cMax && n as real <= tokens)
    && (0.0 <= tokens ==> 0 <= n)
    && (n == waiting || cMax <= inFlight + n || tokens < (n + 1) as real)
  }

  /** The quota of a tick exhausts it. */
  lemma CountExhausts(cfg: RunConfig, y: System, now: real, h: Health)
    requires 0.0 < cfg.admission.controlTick && y.phase == Idle
    ensures var y' := DoCount(cfg, y, now, h);
            && y'.store == y.store && y'.phase.Counted?
            && y'.phase.r.now == now && y'.phase.r.inFlight == |y.store.inflight|
            && Exhausts(y'.phase.r.n, Mul(y'.alpha, cfg.admission.controlTick), y'.phase.r.cMax, |y.store.waiting|, |y.store.inflight|)
  {
    CountFields(cfg, y, now, h);
    var y' := DoCount(cfg, y, now, h);
    QuotaExhausts(cfg, y'.alpha, y'.phase.r.cMax, |y.store.waiting|, |y.store.inflight|);
  }

  lemma QuotaExhausts(cfg: RunConfig, alpha: real, cMax: int, waiting: nat, inFlight: nat)
    ensures Exhausts(Quota(cfg, alpha, cMax, waiting, inFlight), Mul(alpha, cfg.admission.controlTick), cMax, waiting, inFlight)
  {
    var tokens := Mul(alpha, cfg.admission.controlTick);
    assert Tokens(cfg, alpha) == tokens;
    assert Quota(cfg, alpha, cMax, waiting, inFlight) == MinInt(MinInt(Trunc(tokens), MaxInt(0, cMax - inFlight)), waiting);
    LeastExhausts(tokens, cMax, waiting, inFlight);
  }

  lemma LeastExhausts(tokens: real, cMax: int, waiting: nat, inFlight: nat)
    ensures Exhausts(MinInt(MinInt(Trunc(tokens), MaxInt(0, cMax - inFlight)), waiting), tokens, cMax, waiting, inFlight)
  {
    TruncBetween(tokens);
  }

  lemma TruncBetween(x: real)
    ensures x < (Trunc(x) + 1) as real && (0.0 <= x ==> 0 <= Trunc(x) && Trunc(x) as real <= x) && (x < 0.0 ==> Trunc(x) <= 0)
  {
  }

  /** And that many go into service, whatever handlers run between the count and the admission: the tick admits the
      lowest scores until nobody of those it saw is left, the cap is reached, or its tokens are used up. */
  lemma TickExhausts(cfg: RunConfig, y: System, now: real, h: Health, others: seq<Step>) returns (k: nat)
    requires Known(y.store) && 0.0 < cfg.admission.controlTick && cfg.mode != NoneMode && Capped(y) && y.phase == Idle
    requires forall i :: 0 <= i < |others| ==> others[i].Join? || others[i].Estimate? || others[i].Report?
    ensures var y1 := DoCount(cfg, y, now, h);
            var y2 := Run(cfg, y1, others);
            && TookHead(y2, Next(cfg, y2, TickAdmit), k)
            && y1.phase.Counted?
            && Exhausts(k, Mul(y1.alpha, cfg.admission.controlTick), y1.phase.r.cMax, |y.store.waiting|, |y.store.inflight|)
  {
    CountExhausts(cfg, y, now, h);
    var y1 := DoCount(cfg, y, now, h);
    StepCapped(cfg, y, TickCount(now, h));
    k := QuotaIsAdmitted(cfg, y1, others);
  }

  // ---- the window of a grant ----

  /** C2: an admitted ticket goes into service for one window `w` of its class, counted from the time of the tick,
      on its record and in the in-flight list alike. */
  ghost predicate ServedFor(cfg: RunConfig, y: System, y': System, tid: Tid, now: real, w: real) {
    && tid in y.store.tickets && tid in y'.store.tickets
    && var t := y.store.tickets[tid];
    && IsWindow(cfg.admission, cfg.mode, t.cls, w)
    && y'.store.tickets[tid] == t.(state := ADMITTED, expiresAt := Some(now + w))
    && Flight(now + w, tid) in y'.store.inflight
  }

  lemma GrantCarriesWindow(cfg: RunConfig, y: System, i: nat) returns (w: real)
    requires Known(y.store) && y.phase.Counted? && i < |y.store.waiting| && i < y.phase.r.n
    ensures ServedFor(cfg, y, DoAdmit(cfg, y), y.store.waiting[i].tid, y.phase.r.now, w)
  {
    var s, r := y.store, y.phase.r;
    var tid := s.waiting[i].tid;
    var windows := WindowsForAll(cfg.admission, cfg.mode);
    w := windows(s.tickets[tid].cls);
    WindowIs(s.tickets[tid].cls, cfg.admission, cfg.mode);
    GrantRecorded(s, r.n, r.now, windows, i);
  }

  ghost predicate ServedForWindow(cfg: RunConfig, y: System, y': System, tid: Tid, now: real) {
    exists w :: ServedFor(cfg, y, y', tid, now, w)
  }

  lemma ServedForWindows(cfg: RunConfig, y: System)
    requires Known(y.store) && y.phase.Counted?
    ensures forall i :: 0 <= i < |y.store.waiting| && i < y.phase.r.n ==>
              ServedForWindow(cfg, y, DoAdmit(cfg, y), y.store.waiting[i].tid, y.phase.r.now)
  {
    forall i | 0 <= i < |y.store.waiting| && i < y.phase.r.n
      ensures ServedForWindow(cfg, y, DoAdmit(cfg, y), y.store.waiting[i].tid, y.phase.r.now)
    {
      var w := GrantCarriesWindow(cfg, y, i);
    }
  }

  lemma GrantRecorded(s: Store, n: int, now: real, windows: AccessClass -> real, i: nat)
    requires Known(s) && i < |s.waiting| && i < n
    ensures var s', tid := AdmitN(s, n, now, windows), s.waiting[i].tid;
            && tid in s'.tickets && s'.tickets[tid] == Admit(s.tickets[tid], now, windows)
            && Flight(now + windows(s.tickets[tid].cls), tid) in s'.inflight
  {
    var h := Head(s.waiting, n);
    assert h[i] == s.waiting[i];
    var g := Grants(s.tickets, h, now, windows);
    assert g[i] in g;
    SortByMembers(FLIGHT_KEY, s.inflight + g);
  }

  /** Whoever is not at the head of the queue keeps its record. */
  lemma AdmitLeavesOthers(cfg: RunConfig, y: System, tid: Tid)
    requires Known(y.store) && y.phase.Counted? && tid in y.store.tickets
    requires forall i :: 0 <= i < |y.store.waiting| && i < y.phase.r.n ==> y.store.waiting[i].tid != tid
    ensures tid in DoAdmit(cfg, y).store.tickets && DoAdmit(cfg, y).store.tickets[tid] == y.store.tickets[tid]
  {
  }

  // ---- from one admission of a ticket to the next ----

  /** C2 and C3 over runs: when a ticket is admitted again, however much later and whatever happened in between, its
      window is at least as long as the last time, and its page at most as heavy. */
  lemma CheaperAttempts(cfg: RunConfig, y: System, i: nat, steps: seq<Step>, j: nat) returns (w: real, w': real)
    requires Inv(cfg, y) && 0.0 < cfg.admission.controlTick
    requires y.phase.Counted? && i < |y.store.waiting| && i < y.phase.r.n
    requires OnTime(cfg, Next(cfg, y, TickAdmit), steps)
    requires var z := Run(cfg, Next(cfg, y, TickAdmit), steps);
             && z.phase.Counted? && j < |z.store.waiting| && j < z.phase.r.n
             && z.store.waiting[j].tid == y.store.waiting[i].tid
    requires KappaNonDecreasing(cfg.admission) && 0.0 <= cfg.admission.wBase
    ensures var z, tid := Run(cfg, Next(cfg, y, TickAdmit), steps), y.store.waiting[i].tid;
            && ServedFor(cfg, y, Next(cfg, y, TickAdmit), tid, y.phase.r.now, w)
            && ServedFor(cfg, z, Next(cfg, z, TickAdmit), tid, z.phase.r.now, w')
            && w <= w'
            && VariantFor(z.store.tickets[tid].cls).Weight() <= VariantFor(y.store.tickets[tid].cls).Weight()
  {
    var y1, tid := Next(cfg, y, TickAdmit), y.store.waiting[i].tid;
    w := GrantCarriesWindow(cfg, y, i);
    InTimeKeeps(cfg, y, TickAdmit);
    ClassesCheapen(cfg, y1, steps, tid);
    var z := Run(cfg, y1, steps);
    w' := GrantCarriesWindow(cfg, z, j);
    SameWindow(cfg, y.store.tickets[tid].cls, w);
    SameWindow(cfg, z.store.tickets[tid].cls, w');
  }

  /** There is only one window for a class. */
  lemma SameWindow(cfg: RunConfig, c: AccessClass, w: real)
    requires IsWindow(cfg.admission, cfg.mode, c, w)
    ensures w == WindowFor(c, cfg.admission, cfg.mode)
  {
    WindowIs(c, cfg.admission, cfg.mode);
  }
}
