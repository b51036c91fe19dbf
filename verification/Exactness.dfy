/** The invariant over whole runs, and the exact condition under which one call keeps it. */
module Exactness {
  import opened Classes
  import opened Window
  import opened QueueStore
  import opened StoreLaws
  import opened Admission
  import opened EventReplay
  import opened Invariants

  /** A second JOIN, or a report on a ticket that the log does not show in service, garbles the history. */
  lemma WrongLineBreaks(cfg: RunConfig, y: System, y': System, tid: Tid, e: Event, rest: seq<Event>)
    requires Logged(y.log, y.store) && About(e, tid) && y'.log == y.log + [e] + rest
    requires Advance(Replay(y.log, tid), e).Garbled?
    ensures !Inv(cfg, y')
  {
    ReplayAppend(y.log, e, tid);
    GarbledStays(y.log + [e], rest, tid);
    assert Replay(y'.log, tid) != ViewOf(y'.store, tid);
  }

  lemma SecondJoinBreaks(cfg: RunConfig, y: System, tid: Tid, trueClass: AccessClass, now: real)
    requires Inv(cfg, y) && tid in y.store.tickets
    ensures !Inv(cfg, DoJoin(cfg, y, tid, trueClass, now))
  {
    assert Replay(y.log, tid) == ViewOf(y.store, tid);
    var y' := DoJoin(cfg, y, tid, trueClass, now);
    var cls := if cfg.mode == NoneMode then HIGH else MEDIUM;
    var rest := if cfg.mode == NoneMode then [TicketEvent(ADMIT, tid, HIGH, trueClass, 1)] else [];
    assert y'.log == y.log + [TicketEvent(JOIN, tid, cls, trueClass, 1)] + rest;
    WrongLineBreaks(cfg, y, y', tid, TicketEvent(JOIN, tid, cls, trueClass, 1), rest);
  }

  /** In `none` mode a join admits the head of the queue, which is somebody else if anybody waits. */
  lemma NoneJoinAdmitsOther(s: Store, tid: Tid, trueClass: AccessClass, now: real)
    requires Known(s) && ScoresIncrease(s.waiting) && s.waiting != [] && tid !in s.tickets
    requires forall i :: 0 <= i < |s.waiting| ==> s.waiting[i].score <= s.lastSeq
    ensures var s1 := Joined(s, tid, trueClass, HIGH, Some(now + NONE_MODE_WINDOW));
            AdmitN(s1, 1, now, NONE_WINDOWS).tickets[tid].state == WAITING
  {
    var s1 := Joined(s, tid, trueClass, HIGH, Some(now + NONE_MODE_WINDOW));
    QueueAtEnd(s.waiting, Waiter(s.lastSeq + 1, tid));
    OtherHead(s1.waiting, s.waiting[0], tid);
  }

  lemma OtherHead(q: seq<Waiter>, w: Waiter, tid: Tid)
    requires q != [] && q[0] == w && w.tid != tid
    ensures !Queued(Head(q, 1), tid)
  {
  }

  lemma NoneJoinReplays(cfg: RunConfig, y: System, tid: Tid, trueClass: AccessClass, now: real)
    requires Known(y.store) && Logged(y.log, y.store) && cfg.mode == NoneMode && tid !in y.store.tickets
    ensures Replay(DoJoin(cfg, y, tid, trueClass, now).log, tid).Serves?
  {
    var join, admit := TicketEvent(JOIN, tid, HIGH, trueClass, 1), TicketEvent(ADMIT, tid, HIGH, trueClass, 1);
    assert Replay(y.log, tid) == ViewOf(y.store, tid);
    ReplayAppend(y.log, join, tid);
    ReplayAppend(y.log + [join], admit, tid);
    assert DoJoin(cfg, y, tid, trueClass, now).log == y.log + [join] + [admit];
  }

  lemma NoneJoinBehindBreaks(cfg: RunConfig, y: System, tid: Tid, trueClass: AccessClass, now: real)
    requires Inv(cfg, y) && cfg.mode == NoneMode && tid !in y.store.tickets && y.store.waiting != []
    ensures !Inv(cfg, DoJoin(cfg, y, tid, trueClass, now))
  {
    var y' := DoJoin(cfg, y, tid, trueClass, now);
    NoneJoinAdmitsOther(y.store, tid, trueClass, now);
    NoneJoinReplays(cfg, y, tid, trueClass, now);
    assert Replay(y'.log, tid) != ViewOf(y'.store, tid);
  }

  lemma LateReportBreaks(cfg: RunConfig, y: System, tid: Tid, ok: bool, token: Token)
    requires Inv(cfg, y) && ReportAccepted(y.store, tid, ok, token) && !Flying(y.store.inflight, tid)
    ensures !Inv(cfg, DoReport(cfg, y, tid, ok, token))
  {
    var y', t := DoReport(cfg, y, tid, ok, token), y.store.tickets[tid];
    assert Placed(y.store, Swept(y), tid);
    if t.state == ADMITTED {
      assert tid in Swept(y') && tid in y'.store.tickets;
      assert !Placed(y'.store, Swept(y'), tid);
    } else {
      assert Replay(y.log, tid) == ViewOf(y.store, tid);
      if ok {
        assert y'.log == y.log + [Log(COMPLETE, tid, t)] + [];
        WrongLineBreaks(cfg, y, y', tid, Log(COMPLETE, tid, t), []);
      } else {
        var es := TimeoutEvents(cfg, tid, t);
        assert y'.log == y.log + [es[0]] + es[1..];
        WrongLineBreaks(cfg, y, y', tid, es[0], es[1..]);
      }
    }
  }

  /** A call keeps the invariant exactly when it arrives in time. */
  lemma KeepsIffInTime(cfg: RunConfig, y: System, step: Step)
    requires Inv(cfg, y) && 0.0 < cfg.admission.controlTick
    ensures Inv(cfg, Next(cfg, y, step)) <==> InTime(cfg, y, step)
  {
    if InTime(cfg, y, step) {
      InTimeKeeps(cfg, y, step);
    } else {
      match step
      case Join(tid, trueClass, now) =>
        if tid in y.store.tickets {
          SecondJoinBreaks(cfg, y, tid, trueClass, now);
        } else {
          NoneJoinBehindBreaks(cfg, y, tid, trueClass, now);
        }
      case Report(tid, ok, token) => LateReportBreaks(cfg, y, tid, ok, token);
    }
  }

  /** Every step of the run arrives in time. */
  ghost predicate OnTime(cfg: RunConfig, y: System, steps: seq<Step>)
    requires Known(y.store) && 0.0 < cfg.admission.controlTick
    decreases |steps|
  {
    steps == [] || (InTime(cfg, y, steps[0]) && OnTime(cfg, Next(cfg, y, steps[0]), steps[1..]))
  }

  lemma {:induction false} RunKeeps(cfg: RunConfig, y: System, steps: seq<Step>)
    requires Inv(cfg, y) && 0.0 < cfg.admission.controlTick && OnTime(cfg, y, steps)
    ensures Inv(cfg, Run(cfg, y, steps))
    decreases |steps|
  {
    if steps != [] {
      InTimeKeeps(cfg, y, steps[0]);
      RunKeeps(cfg, Next(cfg, y, steps[0]), steps[1..]);
    }
  }

  lemma InitialInv(cfg: RunConfig)
    ensures Inv(cfg, Initial(cfg))
  {
  }

  /** What the log tells of one ticket: its shape, its downgrades and its attempt. */
  ghost predicate Reconciled(log: seq<Event>, s: Store, tid: Tid) {
    && Replay(log, tid) == ViewOf(s, tid)
    && Shaped(Kinds(log, tid), ViewOf(s, tid))
    && Count(log, tid, DOWNGRADE) <= 2
    && (tid in s.tickets ==> s.tickets[tid].attempt == 1 + Count(log, tid, TIMEOUT))
  }

  lemma ReplayReconciles(log: seq<Event>, s: Store, tid: Tid)
    requires Replay(log, tid) == ViewOf(s, tid)
    ensures Reconciled(log, s, tid)
  {
    HistoryShaped(log, tid);
    HistoryTallied(log, tid);
    AtMostTwoDowngrades(log, tid);
  }

  /** I6: after any run in which every call arrived in time, each ticket's lines have the promised
      shape, and folding them gives its state, attempt and class. */
  lemma LogReconciles(cfg: RunConfig, steps: seq<Step>, tid: Tid)
    requires 0.0 < cfg.admission.controlTick && OnTime(cfg, Initial(cfg), steps)
    ensures var y := Run(cfg, Initial(cfg), steps); Reconciled(y.log, y.store, tid)
  {
    InitialInv(cfg);
    RunKeeps(cfg, Initial(cfg), steps);
    var y := Run(cfg, Initial(cfg), steps);
    assert Logged(y.log, y.store);
    ReplayReconciles(y.log, y.store, tid);
  }

  /** The evaluation counts a ticket's attempts by its ADMIT lines: in service or finished that is its attempt
      number, and while it waits one less. */
  lemma AttemptsAreAdmissions(cfg: RunConfig, steps: seq<Step>, tid: Tid)
    requires 0.0 < cfg.admission.controlTick && OnTime(cfg, Initial(cfg), steps)
    ensures var y := Run(cfg, Initial(cfg), steps);
            tid in y.store.tickets ==>
              Count(y.log, tid, ADMIT)
              == y.store.tickets[tid].attempt - if y.store.tickets[tid].state == WAITING then 1 else 0
  {
    LogReconciles(cfg, steps, tid);
    HistoryAdmitted(Run(cfg, Initial(cfg), steps).log, tid);
  }
}
