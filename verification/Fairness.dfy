/** How one ticket moves through a run: its place (I1, I5) and its class (I2). */
module Fairness {
  import opened Classes
  import opened Window
  import opened Seqs
  import opened QueueStore
  import opened StoreLaws
  import opened Admission
  import opened Invariants
  import opened Exactness

  /** No estimate can change the class any more. */
  predicate Settled(t: Ticket) {
    2 <= t.attempt || t.state != WAITING
  }

  /** What any number of steps may do to a ticket. */
  predicate Evolves(t: Ticket, u: Ticket) {
    && u.joinSeq == t.joinSeq && u.trueClass == t.trueClass && t.attempt <= u.attempt
    && (t.state == COMPLETED ==> u == t)
    && (Settled(t) ==> Settled(u) && t.cls.Rank() <= u.cls.Rank())
  }

  lemma TimeoutEvolves(cfg: RunConfig, y: System, tid: Tid, t: Tid)
    requires Known(y.store) && t in y.store.tickets && 1 <= y.store.tickets[t].attempt
    requires t == tid ==> y.store.tickets[tid].state == ADMITTED
    ensures var y' := DoTimeout(cfg, y, tid); t in y'.store.tickets && Evolves(y.store.tickets[t], y'.store.tickets[t])
  {
  }

  lemma StepEvolves(cfg: RunConfig, y: System, step: Step, t: Tid)
    requires Inv(cfg, y) && InTime(cfg, y, step) && 0.0 < cfg.admission.controlTick && t in y.store.tickets
    ensures var y' := Next(cfg, y, step); t in y'.store.tickets && Evolves(y.store.tickets[t], y'.store.tickets[t])
  {
    assert Placed(y.store, Swept(y), t) && GradeOk(cfg, y.store.tickets[t]);
    match step
    case Join(tid, trueClass, now) =>
      JoinLeavesOthers(cfg, y, tid, trueClass, now);
    case Report(tid, ok, token) =>
      if ReportAccepted(y.store, tid, ok, token) && !ok {
        assert Placed(y.store, Swept(y), tid);
        TimeoutEvolves(cfg, y, tid, t);
      }
    case TickAdmit =>
      if y.phase.Counted? && 0 < y.phase.r.n {
        AdmitMembers(y.store, y.phase.r.n, y.phase.r.now, WindowsForAll(cfg.admission, cfg.mode), t);
      }
    case TickRequeue =>
      if y.phase.Sweeping? && y.phase.todo != [] {
        var tid := y.phase.todo[0];
        assert tid in y.phase.todo && Placed(y.store, Swept(y), tid);
        TimeoutEvolves(cfg, y.(phase := y.phase.(todo := y.phase.todo[1..])), tid, t);
      }
    case _ =>
  }

  /** A join, in whatever mode, leaves the other tickets alone. */
  lemma JoinLeavesOthers(cfg: RunConfig, y: System, tid: Tid, trueClass: AccessClass, now: real)
    requires Known(y.store) && InTime(cfg, y, Join(tid, trueClass, now))
    ensures var s' := DoJoin(cfg, y, tid, trueClass, now).store;
            && s'.tickets.Keys == y.store.tickets.Keys + {tid}
            && s'.tickets[tid].joinSeq == y.store.lastSeq + 1
            && forall t :: t in y.store.tickets ==> s'.tickets[t] == y.store.tickets[t]
  {
    if cfg.mode == NoneMode {
      var s1 := Joined(y.store, tid, trueClass, HIGH, Some(now + NONE_MODE_WINDOW));
      OneWaiter(y.store, Waiter(y.store.lastSeq + 1, tid));
      AdmitsOnlyHead(s1, Waiter(y.store.lastSeq + 1, tid), now);
    }
  }

  lemma AdmitsOnlyHead(s: Store, w: Waiter, now: real)
    requires Known(s) && s.waiting == [w]
    ensures var s' := AdmitN(s, 1, now, NONE_WINDOWS);
            && s'.tickets.Keys == s.tickets.Keys
            && s'.tickets[w.tid].joinSeq == s.tickets[w.tid].joinSeq
            && forall t :: t in s.tickets && t != w.tid ==> s'.tickets[t] == s.tickets[t]
  {
    var h := Head(s.waiting, 1);
    assert h == [w];
    assert forall t :: Queued(h, t) ==> t == w.tid;
  }

  /** I2 over runs: once settled, a ticket's class only ever gets worse; its attempt and join number never fall back. */
  lemma {:induction false} RunEvolves(cfg: RunConfig, y: System, steps: seq<Step>, t: Tid)
    requires Inv(cfg, y) && 0.0 < cfg.admission.controlTick && OnTime(cfg, y, steps) && t in y.store.tickets
    ensures var y' := Run(cfg, y, steps); t in y'.store.tickets && Evolves(y.store.tickets[t], y'.store.tickets[t])
    decreases |steps|
  {
    if steps != [] {
      StepEvolves(cfg, y, steps[0], t);
      InTimeKeeps(cfg, y, steps[0]);
      RunEvolves(cfg, Next(cfg, y, steps[0]), steps[1..], t);
    }
  }

  /** D2: in one step the class of a waiting or served ticket changes only through an estimate on
      the first attempt, or through a timeout that also raises the attempt. */
  lemma ClassChangesOnlyBy(cfg: RunConfig, y: System, step: Step, t: Tid)
    requires Inv(cfg, y) && InTime(cfg, y, step) && 0.0 < cfg.admission.controlTick && t in y.store.tickets
    ensures var u, u' := y.store.tickets[t], Next(cfg, y, step).store.tickets[t];
            u'.cls != u.cls ==>
              || (step.Estimate? && step.tid == t && u.state == WAITING && u.attempt == 1 && u'.attempt == 1)
              || (u.state == ADMITTED && u'.attempt == u.attempt + 1
                  && u'.cls.Rank() == if cfg.admission.maxAttempts <= u.attempt then 2 else u.cls.Rank() + 1)
  {
    ClassChangesTo(cfg, y, step, t);
    NextRank(cfg, y.store.tickets[t]);
  }

  lemma NextRank(cfg: RunConfig, t: Ticket)
    ensures NextClass(cfg, t) != t.cls ==>
              NextClass(cfg, t).Rank() == if cfg.admission.maxAttempts <= t.attempt then 2 else t.cls.Rank() + 1
  {
  }

  lemma ClassChangesTo(cfg: RunConfig, y: System, step: Step, t: Tid)
    requires Inv(cfg, y) && InTime(cfg, y, step) && 0.0 < cfg.admission.controlTick && t in y.store.tickets
    ensures var u, u' := y.store.tickets[t], Next(cfg, y, step).store.tickets[t];
            u'.cls != u.cls ==>
              || (step.Estimate? && step.tid == t && u.state == WAITING && u.attempt == 1 && u'.attempt == 1)
              || (u.state == ADMITTED && u'.attempt == u.attempt + 1 && u'.cls == NextClass(cfg, u))
  {
    StepEvolves(cfg, y, step, t);
    assert Placed(y.store, Swept(y), t) && GradeOk(cfg, y.store.tickets[t]);
    match step
    case Join(tid, trueClass, now) => JoinLeavesOthers(cfg, y, tid, trueClass, now);
    case Report(tid, ok, token) =>
    case TickRequeue =>
      if y.phase.Sweeping? && y.phase.todo != [] {
        assert y.phase.todo[0] in y.phase.todo && Placed(y.store, Swept(y), y.phase.todo[0]);
        TimeoutClass(cfg, y.(phase := y.phase.(todo := y.phase.todo[1..])), y.phase.todo[0], t);
      }
    case _ =>
  }

  lemma TimeoutClass(cfg: RunConfig, y: System, tid: Tid, t: Tid)
    requires Known(y.store) && tid in y.store.tickets && t in y.store.tickets
    ensures var u, u' := y.store.tickets[t], DoTimeout(cfg, y, tid).store.tickets[t];
            if t == tid then u'.attempt == u.attempt + 1 && u'.cls == NextClass(cfg, u) else u' == u
  {
  }

  /** C2 and C3 over runs: a settled ticket's window never shrinks and its page never gets heavier. */
  lemma ClassesCheapen(cfg: RunConfig, y: System, steps: seq<Step>, t: Tid)
    requires Inv(cfg, y) && 0.0 < cfg.admission.controlTick && OnTime(cfg, y, steps)
    requires t in y.store.tickets && Settled(y.store.tickets[t])
    requires KappaNonDecreasing(cfg.admission) && 0.0 <= cfg.admission.wBase
    ensures var y' := Run(cfg, y, steps);
            && t in y'.store.tickets
            && var c, d := y.store.tickets[t].cls, y'.store.tickets[t].cls;
            && WindowFor(c, cfg.admission, cfg.mode) <= WindowFor(d, cfg.admission, cfg.mode)
            && VariantFor(d).Weight() <= VariantFor(c).Weight()
  {
    RunEvolves(cfg, y, steps, t);
    WindowGrowsWithRank(y.store.tickets[t].cls, Run(cfg, y, steps).store.tickets[t].cls, cfg.admission, cfg.mode);
  }

  // ---- place in the queue ----

  /** The unfinished tickets that joined before `t`. */
  ghost function Ahead(s: Store, t: Tid): set<Tid>
    requires t in s.tickets
  {
    set u | u in s.tickets && s.tickets[u].state != COMPLETED && s.tickets[u].joinSeq < s.tickets[t].joinSeq
  }

  /** Those of them that wait. */
  ghost function WaitingAhead(s: Store, t: Tid): set<Tid>
    requires t in s.tickets
  {
    set u | u in s.tickets && s.tickets[u].state == WAITING && s.tickets[u].joinSeq < s.tickets[t].joinSeq
  }

  lemma OnlyJoinsCreate(cfg: RunConfig, y: System, step: Step)
    requires Known(y.store) && 0.0 < cfg.admission.controlTick && !step.Join?
    ensures Next(cfg, y, step).store.tickets.Keys == y.store.tickets.Keys
  {
  }

  /** A ticket that was not known before a step joined with that step, under a larger number. */
  lemma NewcomersAreLater(cfg: RunConfig, y: System, step: Step, u: Tid)
    requires Inv(cfg, y) && InTime(cfg, y, step) && 0.0 < cfg.admission.controlTick
    requires u !in y.store.tickets && u in Next(cfg, y, step).store.tickets
    ensures step.Join? && step.tid == u && Next(cfg, y, step).store.tickets[u].joinSeq == y.store.lastSeq + 1
  {
    if step.Join? {
      JoinLeavesOthers(cfg, y, step.tid, step.trueClass, step.now);
    } else {
      OnlyJoinsCreate(cfg, y, step);
    }
  }

  lemma StepAhead(cfg: RunConfig, y: System, step: Step, t: Tid)
    requires Inv(cfg, y) && InTime(cfg, y, step) && 0.0 < cfg.admission.controlTick && t in y.store.tickets
    ensures t in Next(cfg, y, step).store.tickets && Ahead(Next(cfg, y, step).store, t) <= Ahead(y.store, t)
  {
    var y' := Next(cfg, y, step);
    StepEvolves(cfg, y, step, t);
    forall u | u in Ahead(y'.store, t) ensures u in Ahead(y.store, t) {
      if u in y.store.tickets {
        StepEvolves(cfg, y, step, u);
      } else {
        NewcomersAreLater(cfg, y, step, u);
        assert false;
      }
    }
  }

  /** I1 in exact form, first half: the unfinished tickets ahead of a ticket only ever become fewer. */
  lemma {:induction false} RunAhead(cfg: RunConfig, y: System, steps: seq<Step>, t: Tid)
    requires Inv(cfg, y) && 0.0 < cfg.admission.controlTick && OnTime(cfg, y, steps) && t in y.store.tickets
    ensures t in Run(cfg, y, steps).store.tickets && Ahead(Run(cfg, y, steps).store, t) <= Ahead(y.store, t)
    decreases |steps|
  {
    if steps != [] {
      StepAhead(cfg, y, steps[0], t);
      InTimeKeeps(cfg, y, steps[0]);
      RunAhead(cfg, Next(cfg, y, steps[0]), steps[1..], t);
    }
  }

  /** In `aaac` the queue entries before a ticket's own are those of the waiting tickets that joined earlier. */
  lemma WaitingAheadIs(cfg: RunConfig, y: System, t: Tid, p: nat, u: Tid)
    requires Inv(cfg, y) && cfg.mode == Aaac && t in y.store.tickets
    requires p < |y.store.waiting| && y.store.waiting[p].tid == t
    ensures u in WaitingAhead(y.store, t) <==> exists i :: 0 <= i < p && y.store.waiting[i].tid == u
  {
    var q := y.store.waiting;
    if u in y.store.tickets {
      assert Placed(y.store, Swept(y), u);
    }
    if u in WaitingAhead(y.store, t) {
      var i :| 0 <= i < |q| && q[i].tid == u;
      assert q[i].score < q[p].score;
    }
    if i :| 0 <= i < p && q[i].tid == u {
      assert Queued(q, u) && q[i].score < q[p].score;
    }
  }

  /** In `aaac` the position of a waiting ticket counts the waiting tickets that joined before it. */
  lemma PositionCounts(cfg: RunConfig, y: System, t: Tid)
    requires Inv(cfg, y) && cfg.mode == Aaac && t in y.store.tickets && y.store.tickets[t].state == WAITING
    ensures Position(y.store, t) == |WaitingAhead(y.store, t)|
  {
    var q, p := y.store.waiting, Position(y.store, t);
    assert Placed(y.store, Swept(y), t);
    var ids := seq(p, i requires 0 <= i < p => q[i].tid);
    forall i, j | 0 <= i < j < |ids| ensures ids[i] != ids[j] {
      assert WAITER_ID(q[i]) != WAITER_ID(q[j]);
    }
    forall u ensures u in WaitingAhead(y.store, t) <==> u in ids {
      WaitingAheadIs(cfg, y, t, p, u);
      if i :| 0 <= i < p && q[i].tid == u {
        assert ids[i] == u;
      }
    }
    IdCount(ids, WaitingAhead(y.store, t));
  }

  lemma SubsetCard<T>(a: set<T>, b: set<T>)
    requires a <= b
    ensures |a| <= |b|
    ensures |a| == |b| ==> a == b
  {
    assert b == a + (b - a);
    assert |b| == |a| + |b - a|;
  }

  /** I1 in exact form, second half: wherever a ticket is later in an `aaac` run, its position is at most
      the number of unfinished tickets that were ahead of it before. */
  lemma PositionBounded(cfg: RunConfig, y: System, steps: seq<Step>, t: Tid)
    requires Inv(cfg, y) && cfg.mode == Aaac && 0.0 < cfg.admission.controlTick && OnTime(cfg, y, steps)
    requires t in y.store.tickets
    ensures Position(Run(cfg, y, steps).store, t) <= |Ahead(y.store, t)|
  {
    var y' := Run(cfg, y, steps);
    RunAhead(cfg, y, steps, t);
    RunKeeps(cfg, y, steps);
    assert Placed(y'.store, Swept(y'), t);
    if y'.store.tickets[t].state == WAITING {
      PositionCounts(cfg, y', t);
      SubsetCard(WaitingAhead(y'.store, t), Ahead(y.store, t));
    }
  }

  /** The bound is the current position exactly when no earlier ticket is in service. */
  lemma AheadIsPositionIff(cfg: RunConfig, y: System, t: Tid)
    requires Inv(cfg, y) && cfg.mode == Aaac && t in y.store.tickets && y.store.tickets[t].state == WAITING
    ensures |Ahead(y.store, t)| == Position(y.store, t)
            <==> forall u :: u in y.store.tickets && y.store.tickets[u].state == ADMITTED ==>
                   y.store.tickets[t].joinSeq <= y.store.tickets[u].joinSeq
  {
    PositionCounts(cfg, y, t);
    SubsetCard(WaitingAhead(y.store, t), Ahead(y.store, t));
    if u :| u in y.store.tickets && y.store.tickets[u].state == ADMITTED && y.store.tickets[u].joinSeq < y.store.tickets[t].joinSeq {
      assert u in Ahead(y.store, t) && u !in WaitingAhead(y.store, t);
    } else {
      assert Ahead(y.store, t) == WaitingAhead(y.store, t);
    }
  }

  /** Hence a ticket that joined while nobody was in service never stands further back than at its join. */
  lemma NeverBehindJoinPosition(cfg: RunConfig, y: System, steps: seq<Step>, t: Tid)
    requires Inv(cfg, y) && cfg.mode == Aaac && 0.0 < cfg.admission.controlTick && OnTime(cfg, y, steps)
    requires t in y.store.tickets && y.store.tickets[t].state == WAITING
    requires y.store.inflight == [] && Swept(y) == []
    ensures Position(Run(cfg, y, steps).store, t) <= Position(y.store, t)
  {
    forall u | u in y.store.tickets ensures y.store.tickets[u].state != ADMITTED {
      assert Placed(y.store, Swept(y), u);
    }
    AheadIsPositionIff(cfg, y, t);
    PositionBounded(cfg, y, steps, t);
  }

  /** The ticket that a step puts back into the queue, if any. */
  function Returns(y: System, step: Step): Option<Tid> {
    match step
    case Report(tid, ok, token) => if ReportAccepted(y.store, tid, ok, token) && !ok then Some(tid) else None
    case TickRequeue => if y.phase.Sweeping? && y.phase.todo != [] then Some(y.phase.todo[0]) else None
    case _ => None
  }

  lemma WaitsAgainOnlyIf(cfg: RunConfig, y: System, step: Step, u: Tid)
    requires Inv(cfg, y) && InTime(cfg, y, step) && 0.0 < cfg.admission.controlTick && cfg.mode == Aaac
    requires u in y.store.tickets && y.store.tickets[u].state != WAITING
    ensures u in Next(cfg, y, step).store.tickets
    ensures Next(cfg, y, step).store.tickets[u].state == WAITING ==> Returns(y, step) == Some(u)
  {
    StepEvolves(cfg, y, step, u);
    assert Placed(y.store, Swept(y), u);
    if step.TickRequeue? && y.phase.Sweeping? && y.phase.todo != [] {
      assert y.phase.todo[0] in y.phase.todo && Placed(y.store, Swept(y), y.phase.todo[0]);
    }
  }

  lemma ReturnAddsOne(cfg: RunConfig, y: System, step: Step, t: Tid, u: Tid)
    requires Inv(cfg, y) && InTime(cfg, y, step) && 0.0 < cfg.admission.controlTick && cfg.mode == Aaac
    requires t in y.store.tickets && y.store.tickets[t].state == WAITING && Returns(y, step) == Some(u)
    requires u in y.store.tickets ==> y.store.tickets[u].joinSeq < y.store.tickets[t].joinSeq
    ensures t in Next(cfg, y, step).store.tickets && u in y.store.tickets && y.store.tickets[u].state != WAITING
    ensures WaitingAhead(Next(cfg, y, step).store, t) == WaitingAhead(y.store, t) + {u}
  {
    if step.TickRequeue? {
      assert u in y.phase.todo;
    }
    assert Placed(y.store, Swept(y), u);
  }

  /** The step puts back a ticket that joined before `t`. */
  predicate EarlierReturns(y: System, step: Step, t: Tid)
    requires t in y.store.tickets
  {
    match Returns(y, step)
    case None => false
    case Some(u) => u in y.store.tickets && y.store.tickets[u].joinSeq < y.store.tickets[t].joinSeq
  }

  lemma WaitingAheadBefore(cfg: RunConfig, y: System, step: Step, t: Tid)
    requires Inv(cfg, y) && InTime(cfg, y, step) && 0.0 < cfg.admission.controlTick && cfg.mode == Aaac
    requires t in y.store.tickets && y.store.tickets[t].state == WAITING
    ensures t in Next(cfg, y, step).store.tickets
    ensures |WaitingAhead(y.store, t)| < |WaitingAhead(Next(cfg, y, step).store, t)| <==> EarlierReturns(y, step, t)
  {
    StepEvolves(cfg, y, step, t);
    if EarlierReturns(y, step, t) {
      var u := Returns(y, step).value;
      ReturnAddsOne(cfg, y, step, t, u);
      assert u !in WaitingAhead(y.store, t);
    } else {
      NoReturnNoRise(cfg, y, step, t);
      SubsetCard(WaitingAhead(Next(cfg, y, step).store, t), WaitingAhead(y.store, t));
    }
  }

  /** Why the plain form of I1 fails: while a ticket waits, its position rises exactly when a step puts back a
      ticket that joined before it. */
  lemma PositionRisesIff(cfg: RunConfig, y: System, step: Step, t: Tid)
    requires Inv(cfg, y) && InTime(cfg, y, step) && 0.0 < cfg.admission.controlTick && cfg.mode == Aaac
    requires t in y.store.tickets && y.store.tickets[t].state == WAITING
    requires t in Next(cfg, y, step).store.tickets && Next(cfg, y, step).store.tickets[t].state == WAITING
    ensures Position(y.store, t) < Position(Next(cfg, y, step).store, t) <==> EarlierReturns(y, step, t)
  {
    InTimeKeeps(cfg, y, step);
    PositionCounts(cfg, y, t);
    PositionCounts(cfg, Next(cfg, y, step), t);
    WaitingAheadBefore(cfg, y, step, t);
  }

  lemma NoReturnNoRise(cfg: RunConfig, y: System, step: Step, t: Tid)
    requires Inv(cfg, y) && InTime(cfg, y, step) && 0.0 < cfg.admission.controlTick && cfg.mode == Aaac
    requires t in y.store.tickets && !EarlierReturns(y, step, t)
    ensures t in Next(cfg, y, step).store.tickets
    ensures WaitingAhead(Next(cfg, y, step).store, t) <= WaitingAhead(y.store, t)
  {
    var y' := Next(cfg, y, step);
    StepEvolves(cfg, y, step, t);
    forall v | v in WaitingAhead(y'.store, t) ensures v in WaitingAhead(y.store, t) {
      if v in y.store.tickets {
        StepEvolves(cfg, y, step, v);
        if y.store.tickets[v].state != WAITING {
          WaitsAgainOnlyIf(cfg, y, step, v);
        }
      } else {
        NewcomersAreLater(cfg, y, step, v);
        assert false;
      }
    }
  }

  /** Where a re-queued ticket stands: outside `aaac` at the tail, in `aaac` behind exactly the waiting tickets
      that joined before it. */
  ghost predicate PutBack(cfg: RunConfig, y: System, y': System, tid: Tid)
    requires tid in y.store.tickets
  {
    && tid in y'.store.tickets && y'.store.tickets[tid].state == WAITING
    && |y'.store.waiting| == |y.store.waiting| + 1
    && Position(y'.store, tid) == if cfg.mode != Aaac then |y.store.waiting| else |WaitingAhead(y.store, tid)|
  }

  /** I5 for a failed attempt. */
  lemma RequeuePlace(cfg: RunConfig, y: System, tid: Tid, token: Token)
    requires Inv(cfg, y) && Flying(y.store.inflight, tid) && ReportAccepted(y.store, tid, false, token)
    ensures PutBack(cfg, y, DoReport(cfg, y, tid, false, token), tid)
  {
    assert Placed(y.store, Swept(y), tid);
    TimeoutKeeps(cfg, y, tid);
    TimeoutPlace(cfg, y, tid);
  }

  /** I5 for a window that ran out: the ticket at the head of the sweep's list. */
  lemma SweptPlace(cfg: RunConfig, y: System)
    requires Inv(cfg, y) && y.phase.Sweeping? && y.phase.todo != []
    ensures y.phase.todo[0] in y.store.tickets
    ensures PutBack(cfg, y, DoRequeue(cfg, y), y.phase.todo[0])
  {
    var tid := y.phase.todo[0];
    assert Placed(y.store, Swept(y), tid);
    RequeueKeeps(cfg, y);
    TimeoutPlace(cfg, y.(phase := y.phase.(todo := y.phase.todo[1..])), tid);
  }

  /** The same for any timeout after which the invariant holds. */
  lemma TimeoutPlace(cfg: RunConfig, y: System, tid: Tid)
    requires Orderly(y.store) && Numbered(cfg, y.store) && tid in y.store.tickets && !Queued(y.store.waiting, tid)
    requires Inv(cfg, DoTimeout(cfg, y, tid))
    ensures PutBack(cfg, y, DoTimeout(cfg, y, tid), tid)
  {
    DoTimeoutIs(cfg, y, tid);
    if cfg.mode != Aaac {
      TailPlace(cfg, y.store, tid);
    } else {
      PositionCounts(cfg, DoTimeout(cfg, y, tid), tid);
      OwnAhead(cfg, y, tid);
    }
  }

  lemma TailPlace(cfg: RunConfig, s: Store, tid: Tid)
    requires Orderly(s) && Numbered(cfg, s) && tid in s.tickets && !Queued(s.waiting, tid) && cfg.mode != Aaac
    ensures var q := Requeued(cfg, s, tid).waiting; |q| == |s.waiting| + 1 && PositionIn(q, tid) == |s.waiting|
  {
    RequeuedAtEnd(cfg, s, tid);
    NewcomersPosition(s.waiting, Waiter(s.lastSeq + 1, tid));
  }

  lemma RequeuedAtEnd(cfg: RunConfig, s: Store, tid: Tid)
    requires ScoresIncrease(s.waiting) && Numbered(cfg, s) && tid in s.tickets && cfg.mode != Aaac
    ensures Requeued(cfg, s, tid).waiting == s.waiting + [Waiter(s.lastSeq + 1, tid)]
  {
    RequeuedQueue(cfg, s, tid);
    QueueAtEnd(s.waiting, Waiter(s.lastSeq + 1, tid));
  }

  lemma RequeuedQueue(cfg: RunConfig, s: Store, tid: Tid)
    requires tid in s.tickets && cfg.mode != Aaac
    ensures Requeued(cfg, s, tid).waiting == SortBy(WAITER_KEY, s.waiting + [Waiter(s.lastSeq + 1, tid)])
  {
  }

  lemma NewcomersPosition(q: seq<Waiter>, w: Waiter)
    requires !Queued(q, w.tid)
    ensures PositionIn(q + [w], w.tid) == |q|
  {
    var all := q + [w];
    assert all[|q|].tid == w.tid;
    assert forall i :: 0 <= i < |q| ==> all[i].tid != w.tid by {
      assert forall i :: 0 <= i < |q| ==> all[i] == q[i];
    }
  }

  /** Where a joining ticket is told that it stands is the end of the queue. */
  lemma JoinPosition(cfg: RunConfig, y: System, tid: Tid, trueClass: AccessClass, now: real)
    requires Inv(cfg, y) && InTime(cfg, y, Join(tid, trueClass, now)) && cfg.mode != NoneMode
    ensures Position(DoJoin(cfg, y, tid, trueClass, now).store, tid) == |y.store.waiting|
  {
    QueueAtEnd(y.store.waiting, Waiter(y.store.lastSeq + 1, tid));
    NewcomersPosition(y.store.waiting, Waiter(y.store.lastSeq + 1, tid));
  }

  lemma OwnAhead(cfg: RunConfig, y: System, tid: Tid)
    requires Known(y.store) && tid in y.store.tickets
    ensures var y' := DoTimeout(cfg, y, tid);
            && tid in y'.store.tickets && y'.store.tickets[tid].state == WAITING
            && WaitingAhead(y'.store, tid) == WaitingAhead(y.store, tid)
            && |y'.store.waiting| == |y.store.waiting| + 1
  {
    DoTimeoutIs(cfg, y, tid);
    RequeuedRecord(cfg, y.store, tid);
  }

  lemma RequeuedRecord(cfg: RunConfig, s: Store, tid: Tid)
    requires tid in s.tickets
    ensures var s' := Requeued(cfg, s, tid);
            && s'.tickets.Keys == s.tickets.Keys && |s'.waiting| == |s.waiting| + 1
            && s'.tickets[tid].state == WAITING && s'.tickets[tid].joinSeq == s.tickets[tid].joinSeq
            && forall u :: u in s.tickets && u != tid ==> s'.tickets[u] == s.tickets[u]
  {
  }
}
