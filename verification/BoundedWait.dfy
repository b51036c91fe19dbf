/** Bounded waiting in `baseline`: whatever fails or times out, a waiting ticket with k tickets ahead is
    admitted within (k + 1)(R + 1) control ticks, where R ticks cover one window. */
module BoundedWait {
  import opened Classes
  import opened Window
  import opened Seqs
  import opened QueueStore
  import opened StoreLaws
  import opened Admission
  import opened Invariants
  import opened Exactness
  import opened Fairness
  import opened Capacity

  /** The time that `d` ticks take. */
  function Span(tick: real, d: nat): real {
    if d == 0 then 0.0 else Span(tick, d - 1) + tick
  }

  lemma {:induction false} SpanIsProduct(tick: real, d: nat)
    ensures Span(tick, d) == d as real * tick
  {
    if d != 0 {
      SpanIsProduct(tick, d - 1);
      assert d as real * tick == (d - 1) as real * tick + tick by {
        assert d as real == (d - 1) as real + 1.0;
      }
    }
  }

  /** Everything in flight expires within `d` ticks of the latest tick. */
  ghost predicate Drains(cfg: RunConfig, y: System, d: nat) {
    forall i :: 0 <= i < |y.store.inflight| ==> y.store.inflight[i].exp <= y.lastTick + Span(cfg.admission.controlTick, d)
  }

  /** In the middle of a tick its time is the latest tick's, and after its sweep nothing expired is left. */
  ghost predicate Clocked(cfg: RunConfig, y: System, R: nat) {
    && Drains(cfg, y, R)
    && match y.phase
       case Counted(r) => r.now == y.lastTick
       case Granted(r) => r.now == y.lastTick
       case _ => true
  }

  predicate Waiting(y: System, t: Tid) {
    t in y.store.tickets && y.store.tickets[t].state == WAITING
  }

  /** `b` sweeps are more than enough from here: `R + 1` for each ticket ahead, and `d` until the cap has room. */
  ghost predicate Enough(cfg: RunConfig, y: System, t: Tid, R: nat, b: int, d: nat) {
    var p := Position(y.store, t);
    && d <= R && Drains(cfg, y, d)
    && match y.phase
       case Counted(r) =>
         if 0 < r.n then p * (R + 1) + 1 <= b else d < R && p * (R + 1) + d + 2 <= b
       case Granted(_) => p * (R + 1) + d + 2 <= b
       case _ => (d == 0 ==> y.store.inflight == []) && p * (R + 1) + d + 1 <= b
  }

  /** The conditions on a run: reports arrive in time, and ticks start at least one tick length apart. */
  ghost predicate Paced(cfg: RunConfig, y: System, steps: seq<Step>)
    requires Known(y.store) && 0.0 < cfg.admission.controlTick
    decreases |steps|
  {
    steps == [] ||
    (&& InTime(cfg, y, steps[0]) && OneTickApart(cfg, y, steps[0])
     && Paced(cfg, Next(cfg, y, steps[0]), steps[1..]))
  }

  predicate OneTickApart(cfg: RunConfig, y: System, step: Step) {
    step.TickCount? && y.phase == Idle ==> y.lastTick + cfg.admission.controlTick <= step.now
  }

  function Swept1(y: System, step: Step): nat {
    if step.TickSweep? && y.phase.Granted? then 1 else 0
  }

  /** The control ticks of a run, counted at their sweep. */
  function Ticks(cfg: RunConfig, y: System, steps: seq<Step>): nat
    requires Known(y.store) && 0.0 < cfg.admission.controlTick
    decreases |steps|
  {
    if steps == [] then 0 else Swept1(y, steps[0]) + Ticks(cfg, Next(cfg, y, steps[0]), steps[1..])
  }

  predicate StaysWaiting(cfg: RunConfig, y: System, steps: seq<Step>, t: Tid)
    requires Known(y.store) && 0.0 < cfg.admission.controlTick
    decreases |steps|
  {
    Waiting(y, t) && (steps == [] || StaysWaiting(cfg, Next(cfg, y, steps[0]), steps[1..], t))
  }

  /** The configuration that the bound needs: `baseline`, at least one token a tick, and R ticks cover a window. */
  predicate Serves(cfg: RunConfig, R: nat) {
    && cfg.mode == Baseline
    && 0.0 < cfg.admission.controlTick
    && 1.0 <= cfg.admission.alphaMin * cfg.admission.controlTick
    && 1 <= R && cfg.admission.wBase <= R as real * cfg.admission.controlTick
  }

  /** The same with the window measured in ticks. */
  ghost predicate Covers(cfg: RunConfig, R: nat) {
    && cfg.mode == Baseline
    && 0.0 < cfg.admission.controlTick
    && 1.0 <= cfg.admission.alphaMin * cfg.admission.controlTick
    && 1 <= R && cfg.admission.wBase <= Span(cfg.admission.controlTick, R)
  }

  lemma ServesCovers(cfg: RunConfig, R: nat)
    requires Serves(cfg, R)
    ensures Covers(cfg, R)
  {
    SpanIsProduct(cfg.admission.controlTick, R);
  }

  // ---- positions ----

  lemma QueuedOf(cfg: RunConfig, y: System, t: Tid)
    requires Inv(cfg, y) && Waiting(y, t)
    ensures Queued(y.store.waiting, t)
  {
    assert Placed(y.store, Swept(y), t);
  }

  lemma PositionAppend(q: seq<Waiter>, w: Waiter, t: Tid)
    requires Queued(q, t)
    ensures PositionIn(q + [w], t) == PositionIn(q, t)
  {
    var p := PositionIn(q, t);
    assert (q + [w])[p].tid == t && Queued(q + [w], t);
    var r := PositionIn(q + [w], t);
    assert r <= p && (q + [w])[r] == q[r];
  }

  lemma PositionDrop(q: seq<Waiter>, k: nat, t: Tid)
    requires DistinctBy(WAITER_ID, q) && k <= |q| && Queued(q[k..], t)
    ensures k + PositionIn(q[k..], t) == PositionIn(q, t)
  {
    var i := PositionIn(q[k..], t);
    assert q[k + i] == q[k..][i];
    PositionUnique(q, t, k + i);
  }

  /** A re-queued ticket takes a new number, so nobody's position changes. */
  lemma TimeoutLeavesPosition(cfg: RunConfig, y: System, tid: Tid, t: Tid)
    requires Orderly(y.store) && Numbered(cfg, y.store) && cfg.mode == Baseline
    requires tid in y.store.tickets && !Queued(y.store.waiting, tid) && Queued(y.store.waiting, t)
    ensures Position(DoTimeout(cfg, y, tid).store, t) == Position(y.store, t)
  {
    var w := Waiter(y.store.lastSeq + 1, tid);
    RequeuedAtEnd(cfg, y.store, tid);
    DoTimeoutIs(cfg, y, tid);
    PositionAppend(y.store.waiting, w, t);
  }

  lemma JoinLeavesPosition(cfg: RunConfig, s: Store, tid: Tid, trueClass: AccessClass, t: Tid)
    requires Orderly(s) && Numbered(cfg, s) && tid !in s.tickets && Queued(s.waiting, t)
    ensures Position(Joined(s, tid, trueClass, MEDIUM, None), t) == Position(s, t)
  {
    QueueAtEnd(s.waiting, Waiter(s.lastSeq + 1, tid));
    PositionAppend(s.waiting, Waiter(s.lastSeq + 1, tid), t);
  }

  /** Outside the admission no step moves a waiting ticket. */
  lemma PositionStays(cfg: RunConfig, y: System, step: Step, t: Tid)
    requires Inv(cfg, y) && InTime(cfg, y, step) && cfg.mode == Baseline && 0.0 < cfg.admission.controlTick
    requires Waiting(y, t) && !step.TickAdmit?
    ensures Position(Next(cfg, y, step).store, t) == Position(y.store, t)
  {
    QueuedOf(cfg, y, t);
    match step
    case Join(tid, trueClass, now) =>
      JoinLeavesPosition(cfg, y.store, tid, trueClass, t);
    case Report(tid, ok, token) =>
      if ReportAccepted(y.store, tid, ok, token) && !ok {
        assert Placed(y.store, Swept(y), tid);
        TimeoutLeavesPosition(cfg, y, tid, t);
      }
    case TickRequeue =>
      if y.phase.Sweeping? && y.phase.todo != [] {
        var tid := y.phase.todo[0];
        assert tid in y.phase.todo && Placed(y.store, Swept(y), tid);
        TimeoutLeavesPosition(cfg, y.(phase := y.phase.(todo := y.phase.todo[1..])), tid, t);
      }
    case _ =>
  }

  // ---- the in-flight list ----

  ghost predicate Shrinks(y: System, y': System) {
    && y'.lastTick == y.lastTick
    && (forall f :: f in y'.store.inflight ==> f in y.store.inflight)
  }

  lemma ShrinkKeepsDrains(cfg: RunConfig, y: System, y': System, d: nat)
    requires Drains(cfg, y, d) && Shrinks(y, y')
    ensures Drains(cfg, y', d) && (y.store.inflight == [] ==> y'.store.inflight == [])
  {
    forall i | 0 <= i < |y'.store.inflight|
      ensures y'.store.inflight[i].exp <= y'.lastTick + Span(cfg.admission.controlTick, d)
    {
      assert y'.store.inflight[i] in y.store.inflight;
    }
    if y'.store.inflight != [] {
      assert y'.store.inflight[0] in y.store.inflight;
    }
  }

  /** Everything but the count and the admission only ever takes tickets out of flight. */
  lemma OtherStepsShrink(cfg: RunConfig, y: System, step: Step)
    requires Known(y.store) && cfg.mode == Baseline && 0.0 < cfg.admission.controlTick
    requires !step.TickAdmit? && !step.TickCount?
    ensures Shrinks(y, Next(cfg, y, step))
  {
    match step
    case Report(tid, ok, token) => WithoutMembers(y.store.inflight, tid);
    case TickRequeue =>
      if y.phase.Sweeping? && y.phase.todo != [] {
        WithoutMembers(y.store.inflight, y.phase.todo[0]);
      }
    case TickSweep =>
      if y.phase.Granted? {
        KeptMembers(y.store.inflight, y.phase.r.now);
      }
    case _ =>
  }

  lemma {:induction false} SpanGrows(tick: real, d: nat, e: nat)
    requires 0.0 < tick && d <= e
    ensures Span(tick, d) <= Span(tick, e)
  {
    if d < e {
      SpanGrows(tick, d, e - 1);
    }
  }

  /** A later tick is at least one tick closer to every expiry. */
  lemma CountDrains(cfg: RunConfig, y: System, now: real, h: Health, d: nat)
    requires 0.0 < cfg.admission.controlTick && y.phase == Idle && y.lastTick + cfg.admission.controlTick <= now
    requires Drains(cfg, y, d)
    ensures Drains(cfg, DoCount(cfg, y, now, h), if d == 0 then 0 else d - 1)
  {
  }

  lemma AdmitDrains(cfg: RunConfig, y: System, R: nat)
    requires Known(y.store) && Covers(cfg, R) && Clocked(cfg, y, R)
    ensures Drains(cfg, DoAdmit(cfg, y), R)
  {
    if y.phase.Counted? && 0 < y.phase.r.n {
      var r := y.phase.r;
      var g := AdmittedBy(y.store, r.n, r.now, WindowsForAll(cfg.admission, cfg.mode));
      SortByMembers(FLIGHT_KEY, y.store.inflight + g);
      var fs := DoAdmit(cfg, y).store.inflight;
      forall i | 0 <= i < |fs| ensures fs[i].exp <= y.lastTick + Span(cfg.admission.controlTick, R) {
        assert fs[i] in fs && fs[i] in y.store.inflight + g;
        if fs[i] in y.store.inflight {
          var j :| 0 <= j < |y.store.inflight| && y.store.inflight[j] == fs[i];
        } else {
          var j :| 0 <= j < |g| && g[j] == fs[i];
          var c := y.store.tickets[Head(y.store.waiting, r.n)[j].tid].cls;
          assert g[j].exp == r.now + WindowsForAll(cfg.admission, cfg.mode)(c) == r.now + cfg.admission.wBase;
        }
      }
    }
  }

  lemma ClockedStep(cfg: RunConfig, y: System, step: Step, R: nat)
    requires Known(y.store) && Covers(cfg, R) && Clocked(cfg, y, R) && OneTickApart(cfg, y, step)
    ensures Clocked(cfg, Next(cfg, y, step), R)
  {
    if step.TickCount? {
      if y.phase == Idle {
        CountDrains(cfg, y, step.now, step.health, R);
        SpanGrows(cfg.admission.controlTick, R - 1, R);
      }
    } else if step.TickAdmit? {
      AdmitDrains(cfg, y, R);
    } else {
      OtherStepsShrink(cfg, y, step);
      ShrinkKeepsDrains(cfg, y, Next(cfg, y, step), R);
    }
  }

  // ---- one step uses up at most one sweep ----

  /** At least one token: the rate never falls below its minimum. */
  lemma TokensLeft(cfg: RunConfig, alpha: real, h: Health)
    requires 0.0 < cfg.admission.controlTick && 1.0 <= cfg.admission.alphaMin * cfg.admission.controlTick
    ensures 1.0 <= Tokens(cfg, NextAlpha(cfg, alpha, h))
  {
    var a := NextAlpha(cfg, alpha, h);
    Scale(cfg.admission.controlTick, cfg.admission.alphaMin, a);
  }

  /** A tick either has a positive quota, or finds the cap used up. */
  lemma CountChoice(cfg: RunConfig, y: System, now: real, h: Health, R: nat)
    requires Covers(cfg, R) && y.phase == Idle && y.store.waiting != []
    ensures DoCount(cfg, y, now, h).phase.r.n <= 0 ==> y.store.inflight != []
  {
    var y1 := DoCount(cfg, y, now, h);
    CountReads(cfg, y, now, h);
    TokensLeft(cfg, y.alpha, h);
    QuotaPromises(cfg, y1.alpha, y1.phase.r.cMax, |y.store.waiting|, |y.store.inflight|);
    CapFloor(cfg, y1.muHat, |y.store.waiting|);
  }

  lemma CountEnough(cfg: RunConfig, y: System, now: real, h: Health, t: Tid, R: nat, b: int, d: nat) returns (d': nat)
    requires Inv(cfg, y) && Covers(cfg, R) && y.phase == Idle && Waiting(y, t)
    requires y.lastTick + cfg.admission.controlTick <= now && Clocked(cfg, y, R) && Enough(cfg, y, t, R, b, d)
    ensures Enough(cfg, DoCount(cfg, y, now, h), t, R, b, d')
  {
    QueuedOf(cfg, y, t);
    CountReads(cfg, y, now, h);
    CountChoice(cfg, y, now, h, R);
    CountDrains(cfg, y, now, h, d);
    d' := if d == 0 then 0 else d - 1;
  }

  lemma Multiples(p: nat, q: nat, R: nat)
    requires q < p
    ensures q * (R + 1) + R + 1 <= p * (R + 1)
  {
    Successor(q, R + 1);
    Times(q + 1, p, R + 1);
  }

  lemma Successor(p: nat, c: nat)
    ensures (p + 1) * c == p * c + c
  {
  }

  lemma Times(a: nat, b: nat, c: nat)
    requires a <= b
    ensures a * c <= b * c
  {
  }

  lemma AdmitEnough(cfg: RunConfig, y: System, t: Tid, R: nat, b: int, d: nat) returns (d': nat)
    requires Inv(cfg, y) && Covers(cfg, R) && y.phase.Counted? && Waiting(y, t) && Waiting(DoAdmit(cfg, y), t)
    requires Inv(cfg, DoAdmit(cfg, y))
    requires Clocked(cfg, y, R) && Enough(cfg, y, t, R, b, d)
    ensures Enough(cfg, DoAdmit(cfg, y), t, R, b, d')
  {
    var y', n := DoAdmit(cfg, y), y.phase.r.n;
    QueuedOf(cfg, y, t);
    QueuedOf(cfg, y', t);
    if n <= 0 {
      d' := d;
    } else {
      var k := |Head(y.store.waiting, n)|;
      PositionDrop(y.store.waiting, k, t);
      AdmitDrains(cfg, y, R);
      d' := R;
      Multiples(Position(y.store, t), Position(y'.store, t), R);
    }
  }

  lemma {:induction false} NothingKept(fs: seq<Flight>, now: real)
    requires forall i :: 0 <= i < |fs| ==> fs[i].exp <= now
    ensures Kept(fs, now) == []
  {
    if fs != [] {
      NothingKept(fs[..|fs|-1], now);
    }
  }

  lemma SweepEnough(cfg: RunConfig, y: System, t: Tid, R: nat, b: int, d: nat)
    requires Inv(cfg, y) && Covers(cfg, R) && y.phase.Granted? && Waiting(y, t)
    requires Clocked(cfg, y, R) && Enough(cfg, y, t, R, b, d)
    ensures Enough(cfg, DoSweep(y), t, R, b - 1, d)
  {
    var y' := DoSweep(y);
    KeptMembers(y.store.inflight, y.phase.r.now);
    ShrinkKeepsDrains(cfg, y, y', d);
    if d == 0 {
      NothingKept(y.store.inflight, y.phase.r.now);
    }
  }

  /** While the ticket waits, only a sweep uses up the budget, and by one. */
  lemma EnoughStep(cfg: RunConfig, y: System, step: Step, t: Tid, R: nat, b: int, d: nat) returns (d': nat)
    requires Inv(cfg, y) && InTime(cfg, y, step) && OneTickApart(cfg, y, step)
    requires Covers(cfg, R) && Clocked(cfg, y, R) && Enough(cfg, y, t, R, b, d)
    requires Waiting(y, t) && Waiting(Next(cfg, y, step), t)
    ensures Enough(cfg, Next(cfg, y, step), t, R, b - Swept1(y, step), d')
  {
    d' := d;
    if step.TickCount? {
      if y.phase == Idle {
        d' := CountEnough(cfg, y, step.now, step.health, t, R, b, d);
      }
    } else if step.TickAdmit? {
      if y.phase.Counted? {
        InTimeKeeps(cfg, y, step);
        d' := AdmitEnough(cfg, y, t, R, b, d);
      }
    } else if Swept1(y, step) == 1 {
      SweepEnough(cfg, y, t, R, b, d);
    } else {
      PositionStays(cfg, y, step, t);
      OtherStepsShrink(cfg, y, step);
      ShrinkKeepsDrains(cfg, y, Next(cfg, y, step), d);
    }
  }

  lemma BudgetLeft(cfg: RunConfig, y: System, t: Tid, R: nat, b: int, d: nat)
    requires Enough(cfg, y, t, R, b, d)
    ensures 0 < b
  {
    Times(0, Position(y.store, t), R + 1);
  }

  lemma {:induction false} TicksBelowBudget(cfg: RunConfig, y: System, steps: seq<Step>, t: Tid, R: nat, b: int, d: nat)
    requires Covers(cfg, R) && Inv(cfg, y) && Clocked(cfg, y, R) && Enough(cfg, y, t, R, b, d)
    requires Paced(cfg, y, steps) && StaysWaiting(cfg, y, steps, t)
    ensures Ticks(cfg, y, steps) < b
    decreases |steps|
  {
    if steps == [] {
      BudgetLeft(cfg, y, t, R, b, d);
    } else {
      var y' := Next(cfg, y, steps[0]);
      var d' := EnoughStep(cfg, y, steps[0], t, R, b, d);
      InTimeKeeps(cfg, y, steps[0]);
      ClockedStep(cfg, y, steps[0], R);
      TicksBelowBudget(cfg, y', steps[1..], t, R, b - Swept1(y, steps[0]), d');
    }
  }

  /** No run keeps a ticket waiting through (k + 1)(R + 1) ticks. */
  lemma CannotWaitLonger(cfg: RunConfig, y: System, steps: seq<Step>, t: Tid, R: nat)
    requires Serves(cfg, R) && Inv(cfg, y) && Clocked(cfg, y, R) && y.phase == Idle
    requires Paced(cfg, y, steps) && StaysWaiting(cfg, y, steps, t)
    ensures Ticks(cfg, y, steps) < (Position(y.store, t) + 1) * (R + 1)
  {
    ServesCovers(cfg, R);
    var p := Position(y.store, t);
    Successor(p, R + 1);
    TicksBelowBudget(cfg, y, steps, t, R, (p + 1) * (R + 1), R);
  }

  lemma LeavesWaitingByAdmission(cfg: RunConfig, y: System, step: Step, t: Tid)
    requires Inv(cfg, y) && InTime(cfg, y, step) && 0.0 < cfg.admission.controlTick && cfg.mode == Baseline
    requires Waiting(y, t) && t in Next(cfg, y, step).store.tickets && !Waiting(Next(cfg, y, step), t)
    ensures Next(cfg, y, step).store.tickets[t].state == ADMITTED
  {
    assert Placed(y.store, Swept(y), t);
  }

  /** The run passes through a state in which the ticket is in service. */
  predicate ReachesService(cfg: RunConfig, y: System, steps: seq<Step>, t: Tid)
    requires Known(y.store) && 0.0 < cfg.admission.controlTick
    decreases |steps|
  {
    || (t in y.store.tickets && y.store.tickets[t].state == ADMITTED)
    || (steps != [] && ReachesService(cfg, Next(cfg, y, steps[0]), steps[1..], t))
  }

  lemma {:induction false} LeavesForService(cfg: RunConfig, y: System, steps: seq<Step>, t: Tid)
    requires Inv(cfg, y) && 0.0 < cfg.admission.controlTick && cfg.mode == Baseline
    requires Paced(cfg, y, steps) && Waiting(y, t) && !StaysWaiting(cfg, y, steps, t)
    ensures ReachesService(cfg, y, steps, t)
    decreases |steps|
  {
    var y' := Next(cfg, y, steps[0]);
    StepEvolves(cfg, y, steps[0], t);
    InTimeKeeps(cfg, y, steps[0]);
    if Waiting(y', t) {
      LeavesForService(cfg, y', steps[1..], t);
    } else {
      LeavesWaitingByAdmission(cfg, y, steps[0], t);
    }
  }

  /** Bounded waiting: within (k + 1)(R + 1) ticks the ticket has been admitted. */
  lemma AdmittedWithin(cfg: RunConfig, y: System, steps: seq<Step>, t: Tid, R: nat)
    requires Serves(cfg, R) && Inv(cfg, y) && Clocked(cfg, y, R) && y.phase == Idle && Waiting(y, t)
    requires Paced(cfg, y, steps) && (Position(y.store, t) + 1) * (R + 1) <= Ticks(cfg, y, steps)
    ensures ReachesService(cfg, y, steps, t)
  {
    ServesCovers(cfg, R);
    if StaysWaiting(cfg, y, steps, t) {
      CannotWaitLonger(cfg, y, steps, t, R);
      assert false;
    }
    LeavesForService(cfg, y, steps, t);
  }

  lemma {:induction false} RunClocked(cfg: RunConfig, y: System, steps: seq<Step>, R: nat)
    requires Covers(cfg, R) && Inv(cfg, y) && Clocked(cfg, y, R) && Paced(cfg, y, steps)
    ensures Inv(cfg, Run(cfg, y, steps)) && Clocked(cfg, Run(cfg, y, steps), R)
    decreases |steps|
  {
    if steps != [] {
      InTimeKeeps(cfg, y, steps[0]);
      ClockedStep(cfg, y, steps[0], R);
      RunClocked(cfg, Next(cfg, y, steps[0]), steps[1..], R);
    }
  }

  lemma InitialClocked(cfg: RunConfig, R: nat)
    ensures Clocked(cfg, Initial(cfg), R)
  {
  }

  /** The same for a service from its start: after any paced history, whoever waits between two ticks is
      admitted within (k + 1)(R + 1) further ticks. */
  lemma NobodyStarves(cfg: RunConfig, before: seq<Step>, y: System, after: seq<Step>, t: Tid, R: nat)
    requires Serves(cfg, R) && Paced(cfg, Initial(cfg), before) && y == Run(cfg, Initial(cfg), before)
    requires y.phase == Idle && Waiting(y, t) && Paced(cfg, y, after)
    requires (Position(y.store, t) + 1) * (R + 1) <= Ticks(cfg, y, after)
    ensures ReachesService(cfg, y, after, t)
  {
    ServesCovers(cfg, R);
    StartsClocked(cfg, before, R);
    AdmittedWithin(cfg, y, after, t, R);
  }

  lemma StartsClocked(cfg: RunConfig, before: seq<Step>, R: nat)
    requires Covers(cfg, R) && Paced(cfg, Initial(cfg), before)
    ensures Inv(cfg, Run(cfg, Initial(cfg), before)) && Clocked(cfg, Run(cfg, Initial(cfg), before), R)
  {
    InitialInv(cfg);
    InitialClocked(cfg, R);
    RunClocked(cfg, Initial(cfg), before, R);
  }
}
