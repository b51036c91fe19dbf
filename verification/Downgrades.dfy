/** C4: what a failed attempt costs a ticket, in one call and over whole runs. */
module Downgrades {
  import opened Numbers
  import opened Classes
  import opened Window
  import opened QueueStore
  import opened StoreLaws
  import opened Admission
  import opened EventReplay
  import opened Invariants
  import opened Exactness
  import opened Fairness

  /** The three classes have three ranks, and the rank decides the variant: the lower, the heavier. */
  lemma RanksAndVariants(c: AccessClass, d: AccessClass)
    ensures HIGH.Rank() < MEDIUM.Rank() < LOW.Rank() <= 2
    ensures c.Rank() < d.Rank() <==> VariantFor(d).Weight() < VariantFor(c).Weight()
    ensures VariantFor(HIGH) == Full && VariantFor(LOW) == Essential
  {
  }

  /** One more attempt: the rank goes up by one, but not above the last; from the limit on it is the last at once. */
  predicate OneWorse(maxAttempts: int, t: Ticket, u: Ticket) {
    && u.attempt == t.attempt + 1
    && (maxAttempts <= t.attempt ==> u.cls.Rank() == 2)
    && (t.attempt < maxAttempts && t.cls.Rank() < 2 ==> u.cls.Rank() == t.cls.Rank() + 1)
    && (t.attempt < maxAttempts && t.cls.Rank() == 2 ==> u.cls.Rank() == 2)
  }

  /** The ticket waits again, one attempt later and one class worse; nothing else about it changes, and nobody else
      changes at all. */
  ghost predicate PutBackWorse(cfg: RunConfig, s: Store, s': Store, tid: Tid) {
    && tid in s.tickets && tid in s'.tickets
    && var t, u := s.tickets[tid], s'.tickets[tid];
    && OneWorse(cfg.admission.maxAttempts, t, u) && u == t.(state := WAITING, attempt := u.attempt, cls := u.cls)
    && (forall v :: v in s.tickets && v != tid ==> v in s'.tickets && s'.tickets[v] == s.tickets[v])
    && !Flying(s'.inflight, tid)
  }

  lemma TimeoutWorsens(cfg: RunConfig, y: System, tid: Tid)
    requires Known(y.store) && tid in y.store.tickets
    ensures PutBackWorse(cfg, y.store, DoTimeout(cfg, y, tid).store, tid)
  {
    DoTimeoutIs(cfg, y, tid);
    RequeuedWorse(cfg, y.store, tid);
  }

  lemma RequeuedWorse(cfg: RunConfig, s: Store, tid: Tid)
    requires tid in s.tickets
    ensures PutBackWorse(cfg, s, Requeued(cfg, s, tid), tid)
  {
    WithoutMembers(s.inflight, tid);
  }

  /** A reported failure, from any state. */
  lemma FailureWorsens(cfg: RunConfig, y: System, tid: Tid, token: Token)
    requires Known(y.store) && ReportAccepted(y.store, tid, false, token)
    ensures PutBackWorse(cfg, y.store, DoReport(cfg, y, tid, false, token).store, tid)
  {
    TimeoutWorsens(cfg, y, tid);
  }

  /** A window that ran out: the head of the sweep's list. */
  lemma SweepWorsens(cfg: RunConfig, y: System)
    requires Known(y.store) && y.phase.Sweeping? && y.phase.todo != [] && y.phase.todo[0] in y.store.tickets
    ensures PutBackWorse(cfg, y.store, DoRequeue(cfg, y).store, y.phase.todo[0])
  {
    TimeoutWorsens(cfg, y.(phase := y.phase.(todo := y.phase.todo[1..])), y.phase.todo[0]);
  }

  // ---- over runs ----

  /** `k` timeouts from rank `r` on, the last attempt being number `attempt`. */
  function RankAfter(maxAttempts: int, r: nat, k: int, attempt: int): int {
    if k == 0 then r else if maxAttempts < attempt then 2 else MinInt(2, r + k)
  }

  /** The class of a settled ticket is a function of how often it has timed out since. */
  predicate RankLaw(cfg: RunConfig, t: Ticket, u: Ticket) {
    t.attempt <= u.attempt && u.cls.Rank() == RankAfter(cfg.admission.maxAttempts, t.cls.Rank(), u.attempt - t.attempt, u.attempt)
  }

  lemma WorseIsLaw(cfg: RunConfig, t: Ticket, u: Ticket)
    requires OneWorse(cfg.admission.maxAttempts, t, u) && 1 <= t.attempt
    ensures RankLaw(cfg, t, u) && Settled(u)
  {
  }

  /** The step puts `t` back. */
  predicate PutsBack(y: System, step: Step, t: Tid) {
    || (step.Report? && !step.ok && step.tid == t && ReportAccepted(y.store, t, false, step.token))
    || (step.TickRequeue? && y.phase.Sweeping? && y.phase.todo != [] && y.phase.todo[0] == t)
  }

  lemma StepRank(cfg: RunConfig, y: System, step: Step, t: Tid)
    requires Inv(cfg, y) && InTime(cfg, y, step) && 0.0 < cfg.admission.controlTick
    requires t in y.store.tickets && Settled(y.store.tickets[t])
    ensures var y' := Next(cfg, y, step);
            && t in y'.store.tickets && Settled(y'.store.tickets[t])
            && RankLaw(cfg, y.store.tickets[t], y'.store.tickets[t]) && y'.store.tickets[t].attempt <= y.store.tickets[t].attempt + 1
  {
    assert GradeOk(cfg, y.store.tickets[t]);
    if PutsBack(y, step, t) {
      if step.Report? {
        FailureWorsens(cfg, y, t, step.token);
      } else {
        SweepWorsens(cfg, y);
      }
      WorseIsLaw(cfg, y.store.tickets[t], Next(cfg, y, step).store.tickets[t]);
    } else {
      OtherwiseKept(cfg, y, step, t);
    }
  }

  /** Any other step leaves the class and the attempt of a settled ticket alone. */
  lemma OtherwiseKept(cfg: RunConfig, y: System, step: Step, t: Tid)
    requires Inv(cfg, y) && InTime(cfg, y, step) && 0.0 < cfg.admission.controlTick
    requires t in y.store.tickets && Settled(y.store.tickets[t]) && !PutsBack(y, step, t)
    ensures var s' := Next(cfg, y, step).store;
            t in s'.tickets && Settled(s'.tickets[t])
            && s'.tickets[t].cls == y.store.tickets[t].cls && s'.tickets[t].attempt == y.store.tickets[t].attempt
  {
    StepEvolves(cfg, y, step, t);
    match step
    case Join(tid, trueClass, now) => JoinLeavesOthers(cfg, y, tid, trueClass, now);
    case Report(tid, ok, token) =>
      if ReportAccepted(y.store, tid, ok, token) && !ok {
        FailureWorsens(cfg, y, tid, token);
      }
    case TickRequeue =>
      if y.phase.Sweeping? && y.phase.todo != [] {
        assert y.phase.todo[0] in y.phase.todo;
        SweepWorsens(cfg, y);
      }
    case _ =>
  }

  /** C4 over runs: k timeouts after a ticket was first admitted its rank is the smaller of 2 and its rank then plus k,
      as long as the limit on attempts is not exceeded; beyond the limit it is 2. Each timeout is one more attempt. */
  lemma {:induction false} RankOverRun(cfg: RunConfig, y: System, steps: seq<Step>, t: Tid)
    requires Inv(cfg, y) && 0.0 < cfg.admission.controlTick && OnTime(cfg, y, steps)
    requires t in y.store.tickets && Settled(y.store.tickets[t])
    ensures t in Run(cfg, y, steps).store.tickets && RankLaw(cfg, y.store.tickets[t], Run(cfg, y, steps).store.tickets[t])
    decreases |steps|
  {
    if steps != [] {
      StepRank(cfg, y, steps[0], t);
      InTimeKeeps(cfg, y, steps[0]);
      var y' := Next(cfg, y, steps[0]);
      RankOverRun(cfg, y', steps[1..], t);
      RankChain(cfg, y.store.tickets[t], y'.store.tickets[t], Run(cfg, y', steps[1..]).store.tickets[t]);
    }
  }

  lemma RankChain(cfg: RunConfig, t: Ticket, u: Ticket, v: Ticket)
    requires RankLaw(cfg, t, u) && RankLaw(cfg, u, v)
    ensures RankLaw(cfg, t, v)
  {
  }

  /** In the terms of the log: between two states of a run in time, the attempts grow by the TIMEOUT lines between. */
  lemma AttemptsAreTimeouts(cfg: RunConfig, y: System, steps: seq<Step>, t: Tid)
    requires Inv(cfg, y) && 0.0 < cfg.admission.controlTick && OnTime(cfg, y, steps) && t in y.store.tickets
    ensures var y' := Run(cfg, y, steps);
            && t in y'.store.tickets
            && y'.store.tickets[t].attempt - y.store.tickets[t].attempt
               == Count(y'.log, t, TIMEOUT) - Count(y.log, t, TIMEOUT)
  {
    RunEvolves(cfg, y, steps, t);
    RunKeeps(cfg, y, steps);
    ReplayReconciles(y.log, y.store, t);
    ReplayReconciles(Run(cfg, y, steps).log, Run(cfg, y, steps).store, t);
  }
}
