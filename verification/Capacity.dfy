/** I3: how many tickets a tick admits, and how many are ever in flight, in the two queueing modes. */
module Capacity {
  import opened Numbers
  import opened Window
  import opened QueueStore
  import opened StoreLaws
  import opened Admission

  /** The in-flight list never outgrows the largest cap so far, nor the quota just computed. */
  ghost predicate Capped(y: System) {
    && 0 <= y.peak
    && |y.store.inflight| <= y.peak
    && match y.phase
       case Idle => true
       case Counted(r) =>
         && |y.store.inflight| <= r.inFlight && r.cMax <= y.peak
         && r.n <= MaxInt(0, r.cMax - r.inFlight)
       case Granted(r) => |y.store.inflight| <= MaxInt(r.inFlight, r.cMax)
       case Sweeping(r, _) => |y.store.inflight| <= MaxInt(r.inFlight, r.cMax)
  }

  lemma {:induction false} WithoutShorter(fs: seq<Flight>, tid: Tid)
    ensures |Without(fs, tid)| <= |fs|
  {
    if fs != [] {
      WithoutShorter(fs[..|fs|-1], tid);
    }
  }

  lemma DoTimeoutCapped(cfg: RunConfig, y: System, tid: Tid)
    requires Known(y.store) && Capped(y)
    ensures Capped(DoTimeout(cfg, y, tid))
  {
    WithoutShorter(y.store.inflight, tid);
  }

  /** No step lifts the in-flight count above the largest cap, late reports included. */
  lemma StepCapped(cfg: RunConfig, y: System, step: Step)
    requires Known(y.store) && 0.0 < cfg.admission.controlTick && cfg.mode != NoneMode && Capped(y)
    ensures Capped(Next(cfg, y, step))
  {
    match step
    case Report(tid, ok, token) =>
      WithoutShorter(y.store.inflight, tid);
      DoTimeoutCapped(cfg, y, tid);
    case TickRequeue =>
      if y.phase.Sweeping? && y.phase.todo != [] {
        DoTimeoutCapped(cfg, y.(phase := y.phase.(todo := y.phase.todo[1..])), y.phase.todo[0]);
      }
    case TickSweep =>
      if y.phase.Granted? {
        KeptMembers(y.store.inflight, y.phase.r.now);
      }
    case _ =>
  }

  lemma {:induction false} RunCapped(cfg: RunConfig, y: System, steps: seq<Step>)
    requires Known(y.store) && 0.0 < cfg.admission.controlTick && cfg.mode != NoneMode && Capped(y)
    ensures Capped(Run(cfg, y, steps))
    decreases |steps|
  {
    if steps != [] {
      StepCapped(cfg, y, steps[0]);
      RunCapped(cfg, Next(cfg, y, steps[0]), steps[1..]);
    }
  }

  /** In-flight never exceeds the largest cap that any tick of the run computed. */
  lemma InflightBelowPeak(cfg: RunConfig, steps: seq<Step>)
    requires 0.0 < cfg.admission.controlTick && cfg.mode != NoneMode
    ensures var y := Run(cfg, Initial(cfg), steps); |y.store.inflight| <= y.peak
  {
    RunCapped(cfg, Initial(cfg), steps);
  }

  /** What the admission of a tick did: the `k` lowest scores left the queue and are in service. */
  ghost predicate TookHead(y: System, y': System, k: nat) {
    && k <= |y.store.waiting| && y'.store.waiting == y.store.waiting[k..]
    && forall i :: 0 <= i < k ==>
         y.store.waiting[i].tid in y'.store.tickets && y'.store.tickets[y.store.waiting[i].tid].state == ADMITTED
  }

  lemma AdmitTakesHead(cfg: RunConfig, y: System) returns (k: nat)
    requires Known(y.store) && y.phase.Counted?
    ensures TookHead(y, DoAdmit(cfg, y), k)
    ensures k == if y.phase.r.n <= 0 then 0 else MinInt(y.phase.r.n, |y.store.waiting|)
  {
    var h := Head(y.store.waiting, y.phase.r.n);
    k := |h|;
    assert forall i :: 0 <= i < k ==> h[i].tid == y.store.waiting[i].tid;
  }

  /** What a tick reads, in terms of the rate and the cap that it has just set. */
  lemma CountReads(cfg: RunConfig, y: System, now: real, h: Health)
    requires 0.0 < cfg.admission.controlTick && y.phase == Idle
    ensures var y1 := DoCount(cfg, y, now, h);
            && y1.store == y.store && y1.lastTick == now
            && y1.phase.Counted?
            && var r := y1.phase.r;
            && r.now == now && r.inFlight == |y.store.inflight|
            && r.cMax == CMax(cfg, y1.muHat, |y.store.waiting|)
            && r.n == Quota(cfg, y1.alpha, r.cMax, |y.store.waiting|, |y.store.inflight|)
  {
  }

  lemma AfterAdmitBelow(cfg: RunConfig, y: System)
    requires Known(y.store) && cfg.mode != NoneMode && Capped(y) && y.phase.Counted?
    ensures |DoAdmit(cfg, y).store.inflight| <= MaxInt(y.phase.r.inFlight, y.phase.r.cMax)
  {
  }

  /** From its count on, whatever other steps come between, a tick admits the lowest scores, no more than its
      quota, and leaves in flight no more than it had read or its cap. */
  lemma TickAdmits(cfg: RunConfig, y: System, others: seq<Step>) returns (k: nat)
    requires Known(y.store) && 0.0 < cfg.admission.controlTick && cfg.mode != NoneMode && Capped(y) && y.phase.Counted?
    requires forall i :: 0 <= i < |others| ==> others[i].Join? || others[i].Estimate? || others[i].Report?
    ensures var y2 := Run(cfg, y, others);
            var y3 := Next(cfg, y2, TickAdmit);
            && TookHead(y2, y3, k)
            && k == (if y.phase.r.n <= 0 then 0 else MinInt(y.phase.r.n, |y2.store.waiting|))
            && |y3.store.inflight| <= MaxInt(y.phase.r.inFlight, y.phase.r.cMax)
  {
    OthersLeaveTick(cfg, y, others);
    RunCapped(cfg, y, others);
    var y2 := Run(cfg, y, others);
    k := AdmitTakesHead(cfg, y2);
    AfterAdmitBelow(cfg, y2);
  }

  lemma {:induction false} OthersLeaveTick(cfg: RunConfig, y: System, others: seq<Step>)
    requires Known(y.store) && 0.0 < cfg.admission.controlTick
    requires forall i :: 0 <= i < |others| ==> others[i].Join? || others[i].Estimate? || others[i].Report?
    ensures Run(cfg, y, others).phase == y.phase
    decreases |others|
  {
    if others != [] {
      OthersLeaveTick(cfg, Next(cfg, y, others[0]), others[1..]);
    }
  }

  /** The quota exceeds neither the tokens, nor the room under the cap, nor the queue, and is positive exactly
      when somebody waits, there is room under the cap and the tick has a token. */
  lemma QuotaPromises(cfg: RunConfig, alpha: real, cMax: int, waiting: nat, inFlight: nat)
    ensures var n := Quota(cfg, alpha, cMax, waiting, inFlight);
            && n <= waiting && n <= Trunc(Tokens(cfg, alpha)) && n <= MaxInt(0, cMax - inFlight)
            && (0 < n <==> 0 < waiting && inFlight < cMax && 1.0 <= Tokens(cfg, alpha))
  {
    var tokens := Trunc(Tokens(cfg, alpha));
    TruncPositiveIff(Tokens(cfg, alpha));
    assert Quota(cfg, alpha, cMax, waiting, inFlight) == MinInt(MinInt(tokens, MaxInt(0, cMax - inFlight)), waiting);
  }

  lemma TruncPositiveIff(x: real)
    ensures 1 <= Trunc(x) <==> 1.0 <= x
  {
  }

  /** The floor of the cap, whatever the completion estimate says. */
  lemma CapFloor(cfg: RunConfig, muHat: real, waiting: nat)
    ensures 1 <= MinCMax(cfg) <= CMax(cfg, muHat, waiting)
  {
  }

  /** Between the count and the admission of a tick the queue only grows. */
  lemma {:induction false} OthersOnlyAdd(cfg: RunConfig, y: System, others: seq<Step>)
    requires Known(y.store) && 0.0 < cfg.admission.controlTick && cfg.mode != NoneMode
    requires forall i :: 0 <= i < |others| ==> others[i].Join? || others[i].Estimate? || others[i].Report?
    ensures |y.store.waiting| <= |Run(cfg, y, others).store.waiting|
    decreases |others|
  {
    if others != [] {
      OtherOnlyAdds(cfg, y, others[0]);
      OthersOnlyAdd(cfg, Next(cfg, y, others[0]), others[1..]);
    }
  }

  lemma OtherOnlyAdds(cfg: RunConfig, y: System, other: Step)
    requires Known(y.store) && 0.0 < cfg.admission.controlTick && cfg.mode != NoneMode
    requires other.Join? || other.Estimate? || other.Report?
    ensures |y.store.waiting| <= |Next(cfg, y, other).store.waiting|
  {
  }

  /** What the count of a tick promises, for the rate and the cap that it has just set: at most its tokens, the room
      under the cap, and whom it saw waiting; and somebody exactly when somebody waits, there is room, and it has a
      token. */
  lemma CountPromises(cfg: RunConfig, y: System, now: real, h: Health)
    requires 0.0 < cfg.admission.controlTick && y.phase == Idle
    ensures var y1 := DoCount(cfg, y, now, h);
            && y1.store == y.store && y1.phase.Counted?
            && var r := y1.phase.r;
            && r.n <= |y.store.waiting| && r.n <= Trunc(Tokens(cfg, y1.alpha)) && r.n <= MaxInt(0, r.cMax - |y.store.inflight|)
            && (0 < r.n <==> y.store.waiting != [] && |y.store.inflight| < r.cMax && 1.0 <= Tokens(cfg, y1.alpha))
  {
    var y1 := DoCount(cfg, y, now, h);
    CountReads(cfg, y, now, h);
    QuotaPromises(cfg, y1.alpha, y1.phase.r.cMax, |y.store.waiting|, |y.store.inflight|);
  }

  /** The quota is kept: whatever other handlers run between the count and the admission, exactly that many are
      admitted. */
  lemma QuotaIsAdmitted(cfg: RunConfig, y: System, others: seq<Step>) returns (k: nat)
    requires Known(y.store) && 0.0 < cfg.admission.controlTick && cfg.mode != NoneMode && Capped(y)
    requires y.phase.Counted? && y.phase.r.n <= |y.store.waiting|
    requires forall i :: 0 <= i < |others| ==> others[i].Join? || others[i].Estimate? || others[i].Report?
    ensures var y2 := Run(cfg, y, others); TookHead(y2, Next(cfg, y2, TickAdmit), k)
    ensures k == MaxInt(0, y.phase.r.n)
  {
    OthersOnlyAdd(cfg, y, others);
    k := TickAdmits(cfg, y, others);
  }
}
