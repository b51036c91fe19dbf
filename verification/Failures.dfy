/** What goes wrong where a promise needs a condition that the code does not check: the damage that a call does
    when it comes too late, and runs from the start of the service that show it. */
module Failures {
  import opened Classes
  import opened Window
  import opened Seqs
  import opened QueueStore
  import opened StoreLaws
  import opened Admission
  import opened EventReplay
  import opened Invariants
  import opened Capacity
  import opened BoundedWait
  import opened Ledger
  import opened RedisStore

  // ---- the damage of a late report ----

  ghost predicate QueuedTwice(q: seq<Waiter>, tid: Tid) {
    exists i, j :: 0 <= i < j < |q| && q[i].tid == tid && q[j].tid == tid
  }

  /** What a report on a ticket that is not in flight does. On a waiting ticket a failure queues it a second time and
      a success leaves it queued although it is finished; on a finished one a failure revives it and a success counts
      it again; on a swept one the ticket stays on the list of those to put back, although it is queued or finished. */
  lemma LateReportDamage(cfg: RunConfig, y: System, tid: Tid, ok: bool, token: Token)
    requires Inv(cfg, y) && ReportAccepted(y.store, tid, ok, token) && !Flying(y.store.inflight, tid)
    ensures var t, y' := y.store.tickets[tid], DoReport(cfg, y, tid, ok, token);
            && tid in y'.store.tickets
            && match t.state
               case WAITING =>
                 if ok then y'.store.tickets[tid].state == COMPLETED && Queued(y'.store.waiting, tid)
                 else QueuedTwice(y'.store.waiting, tid)
               case COMPLETED =>
                 if ok then y'.store.counters.completed.Get(t.trueClass) == y.store.counters.completed.Get(t.trueClass) + 1
                 else y'.store.tickets[tid].state == WAITING && Queued(y'.store.waiting, tid)
               case ADMITTED =>
                 && tid in Swept(y')
                 && if ok then y'.store.tickets[tid].state == COMPLETED else Queued(y'.store.waiting, tid)
  {
    assert Placed(y.store, Swept(y), tid);
    if !ok {
      DoTimeoutIs(cfg, y, tid);
      RequeuedOnceMore(cfg, y.store, tid);
    }
  }

  lemma RequeuedOnceMore(cfg: RunConfig, s: Store, tid: Tid)
    requires tid in s.tickets
    ensures var q := Requeued(cfg, s, tid).waiting;
            Queued(q, tid) && (Queued(s.waiting, tid) ==> QueuedTwice(q, tid))
  {
    var w := Waiter(RequeueScore(cfg, s, tid), tid);
    QueuedAfterInsert(s.waiting, w, tid);
    if Queued(s.waiting, tid) {
      var i :| 0 <= i < |s.waiting| && s.waiting[i].tid == tid;
      TwiceAfterSort(s.waiting + [w], i, |s.waiting|, tid);
    }
  }

  function Of(tid: Tid): Waiter -> bool { (w: Waiter) => w.tid == tid }

  /** Sorting keeps both of two entries. */
  lemma TwiceAfterSort(q: seq<Waiter>, i: nat, j: nat, tid: Tid)
    requires i < j < |q| && q[i].tid == tid && q[j].tid == tid
    ensures QueuedTwice(SortBy(WAITER_KEY, q), tid)
  {
    SortByCount(WAITER_KEY, q, Of(tid));
    assert q == q[..j] + q[j..];
    CountIfConcat(q[..j], q[j..], Of(tid));
    CountIfSome(q[..j], Of(tid), i);
    CountIfSome(q[j..], Of(tid), 0);
    TwoOf(SortBy(WAITER_KEY, q), tid);
  }

  lemma {:induction false} TwoOf(q: seq<Waiter>, tid: Tid)
    requires 2 <= CountIf(q, Of(tid))
    ensures QueuedTwice(q, tid)
  {
    var most := q[..|q|-1];
    if q[|q|-1].tid != tid {
      TwoOf(most, tid);
      var i, j :| 0 <= i < j < |most| && most[i].tid == tid && most[j].tid == tid;
      assert q[i] == most[i] && q[j] == most[j];
    } else if forall i :: 0 <= i < |most| ==> most[i].tid != tid {
      CountIfNone(most, Of(tid));
    } else {
      var i :| 0 <= i < |most| && most[i].tid == tid;
      assert q[i].tid == tid && q[|q|-1].tid == tid;
    }
  }

  // ---- runs from the start of the service ----

  /** A queueing mode in which every tick has at least one token. */
  predicate Busy(cfg: RunConfig) {
    && cfg.mode != NoneMode && 0.0 < cfg.admission.controlTick
    && 1.0 <= cfg.admission.alphaMin * cfg.admission.controlTick
  }

  lemma SortedOne(w: Waiter)
    ensures SortBy(WAITER_KEY, [] + [w]) == [w]
  {
    assert [] + [w] == [w];
    SortByIdentity(WAITER_KEY, [w]);
  }

  lemma RunOne(cfg: RunConfig, y: System, a: Step)
    requires Known(y.store) && 0.0 < cfg.admission.controlTick
    ensures Run(cfg, y, [a]) == Next(cfg, y, a)
  {
    assert [a][1..] == [];
  }

  lemma {:induction false} RunThen(cfg: RunConfig, y: System, first: seq<Step>, then1: seq<Step>)
    requires Known(y.store) && 0.0 < cfg.admission.controlTick
    ensures Run(cfg, y, first + then1) == Run(cfg, Run(cfg, y, first), then1)
    decreases |first|
  {
    if first == [] {
      assert first + then1 == then1;
    } else {
      assert (first + then1)[0] == first[0] && (first + then1)[1..] == first[1..] + then1;
      RunThen(cfg, Next(cfg, y, first[0]), first[1..], then1);
    }
  }

  lemma RunTwo(cfg: RunConfig, y: System, a: Step, b: Step)
    requires Known(y.store) && 0.0 < cfg.admission.controlTick
    ensures Run(cfg, y, [a, b]) == Next(cfg, Next(cfg, y, a), b)
  {
    assert [a, b] == [a] + [b];
    RunThen(cfg, y, [a], [b]);
    RunOne(cfg, y, a);
    RunOne(cfg, Next(cfg, y, a), b);
  }

  lemma RunThree(cfg: RunConfig, y: System, a: Step, b: Step, c: Step)
    requires Known(y.store) && 0.0 < cfg.admission.controlTick
    ensures Run(cfg, y, [a, b, c]) == Next(cfg, Next(cfg, Next(cfg, y, a), b), c)
  {
    assert [a, b, c] == [a] + [b, c];
    RunThen(cfg, y, [a], [b, c]);
    RunOne(cfg, y, a);
    RunTwo(cfg, Next(cfg, y, a), b, c);
  }

  /** Only ticket `tid` is known; it joined first, and waits with nobody in flight. */
  ghost predicate OnlyWaits(s: Store, tid: Tid) {
    && s.tickets.Keys == {tid} && s.tickets[tid].state == WAITING && s.tickets[tid].joinSeq == 1 && s.lastSeq == 1
    && s.waiting == [Waiter(1, tid)] && s.inflight == []
  }

  /** The same in service. */
  ghost predicate OnlyServed(s: Store, tid: Tid) {
    && s.tickets.Keys == {tid} && s.tickets[tid].state == ADMITTED && s.tickets[tid].joinSeq == 1 && s.lastSeq == 1
    && s.waiting == [] && |s.inflight| == 1 && s.inflight[0].tid == tid
  }

  lemma FirstJoin(cfg: RunConfig, tid: Tid, c: AccessClass, now: real)
    requires cfg.mode != NoneMode && 0.0 < cfg.admission.controlTick
    ensures var y := Next(cfg, Initial(cfg), Join(tid, c, now)); OnlyWaits(y.store, tid) && y.phase == Idle
  {
    SortedOne(Waiter(1, tid));
  }

  /** A tick that finds one waiting ticket and nobody in flight fixes a quota of one. */
  lemma QuotaOne(cfg: RunConfig, y: System, now: real, h: Health)
    requires Busy(cfg) && y.phase == Idle && |y.store.waiting| == 1 && y.store.inflight == []
    ensures var y' := DoCount(cfg, y, now, h); y'.store == y.store && y'.phase.Counted? && y'.phase.r.n == 1
  {
    var y' := DoCount(cfg, y, now, h);
    CountReads(cfg, y, now, h);
    TokensLeft(cfg, y.alpha, h);
    CapFloor(cfg, y'.muHat, 1);
    QuotaPromises(cfg, y'.alpha, y'.phase.r.cMax, 1, 0);
  }

  lemma AdmitOnly(s: Store, w: Waiter, now: real, windows: AccessClass -> real)
    requires Known(s) && s.waiting == [w] && s.inflight == []
    ensures var s' := AdmitN(s, 1, now, windows);
            && s'.tickets.Keys == s.tickets.Keys && s'.tickets[w.tid].state == ADMITTED
            && s'.tickets[w.tid].joinSeq == s.tickets[w.tid].joinSeq
            && s'.waiting == [] && |s'.inflight| == 1 && s'.inflight[0].tid == w.tid && s'.lastSeq == s.lastSeq
  {
    var h := Head(s.waiting, 1);
    assert h == [w] && h[0].tid == w.tid;
    var g := Grants(s.tickets, h, now, windows);
    assert [] + g == g && SortedBy(FLIGHT_KEY, g);
    SortByIdentity(FLIGHT_KEY, g);
  }

  /** Joined, counted, admitted: the only ticket is in service. */
  lemma FirstServed(cfg: RunConfig, tid: Tid, c: AccessClass, now: real, h: Health)
    requires Busy(cfg)
    ensures var y := Run(cfg, Initial(cfg), [Join(tid, c, now), TickCount(now, h), TickAdmit]);
            OnlyServed(y.store, tid) && y.phase.Granted?
  {
    var y1 := Next(cfg, Initial(cfg), Join(tid, c, now));
    FirstJoin(cfg, tid, c, now);
    QuotaOne(cfg, y1, now, h);
    var y2 := Next(cfg, y1, TickCount(now, h));
    OnlyAdmitted(cfg, y2, tid);
    RunThree(cfg, Initial(cfg), Join(tid, c, now), TickCount(now, h), TickAdmit);
  }

  lemma OnlyAdmitted(cfg: RunConfig, y: System, tid: Tid)
    requires OnlyWaits(y.store, tid) && y.phase.Counted? && y.phase.r.n == 1
    ensures OnlyServed(DoAdmit(cfg, y).store, tid) && DoAdmit(cfg, y).phase.Granted?
  {
    AdmitOnly(y.store, Waiter(1, tid), y.phase.r.now, WindowsForAll(cfg.admission, cfg.mode));
  }

  /** The first ticket is in service, the second waits. */
  ghost predicate OneServedOneWaits(s: Store, t: Tid, v: Tid) {
    && s.tickets.Keys == {t, v} && t != v
    && s.tickets[t].state == ADMITTED && s.tickets[t].joinSeq == 1
    && s.tickets[v].state == WAITING && s.waiting == [Waiter(2, v)]
  }

  lemma SecondJoins(cfg: RunConfig, y: System, t: Tid, v: Tid, now: real)
    requires cfg.mode == Aaac && OnlyServed(y.store, t) && t != v
    ensures OneServedOneWaits(DoJoin(cfg, y, v, LOW, now).store, t, v)
    ensures Position(DoJoin(cfg, y, v, LOW, now).store, v) == 0
  {
    SortedOne(Waiter(2, v));
    AtSecond(Waiter(1, t), Waiter(2, v));
  }

  lemma FirstReturns(cfg: RunConfig, y: System, t: Tid, v: Tid)
    requires cfg.mode == Aaac && OneServedOneWaits(y.store, t, v)
    ensures var s := DoReport(cfg, y, t, false, NoToken).store;
            v in s.tickets && s.tickets[v].state == WAITING && Position(s, v) == 1
  {
    DoTimeoutIs(cfg, y, t);
    PutBackFirst(Waiter(2, v), Waiter(1, t));
    AtSecond(Waiter(1, t), Waiter(2, v));
  }

  /** The second joins while the first is in service. */
  function JoinBehind(t: Tid, v: Tid, now: real, h: Health): seq<Step> {
    [Join(t, LOW, now), TickCount(now, h), TickAdmit] + [Join(v, LOW, now)]
  }

  lemma SecondWaits(cfg: RunConfig, t: Tid, v: Tid, now: real, h: Health)
    requires Busy(cfg) && cfg.mode == Aaac && t != v
    ensures var s := Run(cfg, Initial(cfg), JoinBehind(t, v, now, h)).store;
            OneServedOneWaits(s, t, v) && Position(s, v) == 0
  {
    var first := [Join(t, LOW, now), TickCount(now, h), TickAdmit];
    FirstServed(cfg, t, LOW, now, h);
    RunThen(cfg, Initial(cfg), first, [Join(v, LOW, now)]);
    RunOne(cfg, Run(cfg, Initial(cfg), first), Join(v, LOW, now));
    SecondJoins(cfg, Run(cfg, Initial(cfg), first), t, v, now);
  }

  /** Plain I1 fails: ticket `v` joins while `t` is in service and stands at position 0; `t` reports a failure, and
      `v` stands at position 1. */
  lemma PositionCanRise(cfg: RunConfig, t: Tid, v: Tid, now: real, h: Health)
    requires Busy(cfg) && cfg.mode == Aaac && t != v
    ensures var y := Run(cfg, Initial(cfg), JoinBehind(t, v, now, h));
            var s' := Next(cfg, y, Report(t, false, NoToken)).store;
            && v in y.store.tickets && y.store.tickets[v].state == WAITING && Position(y.store, v) == 0
            && v in s'.tickets && s'.tickets[v].state == WAITING && Position(s', v) == 1
  {
    SecondWaits(cfg, t, v, now, h);
    FirstReturns(cfg, Run(cfg, Initial(cfg), JoinBehind(t, v, now, h)), t, v);
  }

  lemma PutBackFirst(late: Waiter, early: Waiter)
    requires early.score < late.score
    ensures SortBy(WAITER_KEY, [late] + [early]) == [early, late]
  {
    SortByAppend(WAITER_KEY, [late], early);
    assert [late][..0] == [] && [] + [early] == [early];
  }

  lemma AtSecond(a: Waiter, b: Waiter)
    requires a.tid != b.tid
    ensures PositionIn([a, b], b.tid) == 1 && PositionIn([b], b.tid) == 0
  {
    assert [a, b][1].tid == b.tid && [b][0].tid == b.tid;
  }

  /** A failure report on a ticket that has not even been admitted queues it twice. */
  lemma FailureQueuesTwice(cfg: RunConfig, t: Tid, now: real)
    requires cfg.mode != NoneMode && 0.0 < cfg.admission.controlTick
    ensures var y := Run(cfg, Initial(cfg), [Join(t, LOW, now), Report(t, false, NoToken)]);
            && |y.store.waiting| == 2 && y.store.tickets.Keys == {t} && QueuedTwice(y.store.waiting, t)
  {
    FirstJoin(cfg, t, LOW, now);
    RunTwo(cfg, Initial(cfg), Join(t, LOW, now), Report(t, false, NoToken));
    WaitingFails(cfg, Next(cfg, Initial(cfg), Join(t, LOW, now)), t);
  }

  lemma WaitingFails(cfg: RunConfig, y: System, t: Tid)
    requires OnlyWaits(y.store, t) && 0.0 < cfg.admission.controlTick
    ensures var s := Next(cfg, y, Report(t, false, NoToken)).store;
            |s.waiting| == 2 && s.tickets.Keys == {t} && QueuedTwice(s.waiting, t)
  {
    DoTimeoutIs(cfg, y, t);
    assert y.store.waiting[0].tid == t;
    RequeuedOnceMore(cfg, y.store, t);
    RequeuedAlone(cfg, y.store, t);
  }

  /** Served, re-queued by a failure, and then reported as a success. */
  function FinishedInQueue(t: Tid, now: real, h: Health): seq<Step> {
    [Join(t, LOW, now), TickCount(now, h), TickAdmit] + [Report(t, false, NoToken), Report(t, true, TokenFor(t))]
  }

  /** One ticket, queued under any score, with nobody in flight. */
  ghost predicate OnlyQueued(s: Store, t: Tid, state: TicketState) {
    && s.tickets.Keys == {t} && s.tickets[t].state == state
    && |s.waiting| == 1 && s.waiting[0].tid == t && s.inflight == []
  }

  lemma ServedFails(cfg: RunConfig, y: System, t: Tid)
    requires OnlyServed(y.store, t)
    ensures OnlyQueued(DoReport(cfg, y, t, false, NoToken).store, t, WAITING)
    ensures DoReport(cfg, y, t, false, NoToken).phase == y.phase
  {
    DoTimeoutIs(cfg, y, t);
    SortedOne(Waiter(RequeueScore(cfg, y.store, t), t));
    WithoutOnly(y.store.inflight, t);
    RequeuedAlone(cfg, y.store, t);
  }

  lemma WithoutOnly(fs: seq<Flight>, t: Tid)
    requires |fs| == 1 && fs[0].tid == t
    ensures Without(fs, t) == []
  {
    assert Without(fs[..0], t) == [];
  }

  lemma RequeuedAlone(cfg: RunConfig, s: Store, t: Tid)
    requires t in s.tickets
    ensures var s' := Requeued(cfg, s, t);
            && s'.tickets.Keys == s.tickets.Keys && s'.tickets[t].state == WAITING
            && s'.waiting == SortBy(WAITER_KEY, s.waiting + [Waiter(RequeueScore(cfg, s, t), t)])
            && s'.inflight == Without(s.inflight, t)
  {
  }

  lemma QueuedFinishes(cfg: RunConfig, y: System, t: Tid)
    requires OnlyQueued(y.store, t, WAITING)
    ensures OnlyQueued(DoReport(cfg, y, t, true, TokenFor(t)).store, t, COMPLETED)
    ensures DoReport(cfg, y, t, true, TokenFor(t)).phase == y.phase
  {
  }

  /** A ticket is re-queued, its success arrives late, and it is finished but still queued. */
  lemma SuccessLeavesQueued(cfg: RunConfig, t: Tid, now: real, h: Health)
    requires Busy(cfg)
    ensures var y := Run(cfg, Initial(cfg), FinishedInQueue(t, now, h));
            OnlyQueued(y.store, t, COMPLETED) && y.phase.Granted?
  {
    var first := [Join(t, LOW, now), TickCount(now, h), TickAdmit];
    var y3 := Run(cfg, Initial(cfg), first);
    FirstServed(cfg, t, LOW, now, h);
    RunThen(cfg, Initial(cfg), first, [Report(t, false, NoToken), Report(t, true, TokenFor(t))]);
    RunTwo(cfg, y3, Report(t, false, NoToken), Report(t, true, TokenFor(t)));
    ServedFails(cfg, y3, t);
    QueuedFinishes(cfg, DoReport(cfg, y3, t, false, NoToken), t);
  }

  lemma TickEnds(cfg: RunConfig, y: System, t: Tid)
    requires OnlyQueued(y.store, t, COMPLETED) && y.phase.Granted? && 0.0 < cfg.admission.controlTick
    ensures var y' := DoEnd(DoSweep(y)); y'.store == y.store && y'.phase == Idle
    ensures Run(cfg, y, [TickSweep, TickEnd]) == DoEnd(DoSweep(y))
  {
    RunTwo(cfg, y, TickSweep, TickEnd);
  }

  lemma QueuedAdmitted(cfg: RunConfig, y: System, t: Tid, now: real, h: Health)
    requires Busy(cfg) && OnlyQueued(y.store, t, COMPLETED) && y.phase == Idle
    ensures var y' := Run(cfg, y, [TickCount(now, h), TickAdmit]);
            t in y'.store.tickets && y'.store.tickets[t].state == ADMITTED
  {
    RunTwo(cfg, y, TickCount(now, h), TickAdmit);
    QuotaOne(cfg, y, now, h);
    var y1 := DoCount(cfg, y, now, h);
    assert y1.store.waiting == [y.store.waiting[0]];
    AdmitOnly(y1.store, y.store.waiting[0], y1.phase.r.now, WindowsForAll(cfg.admission, cfg.mode));
  }

  /** And the next tick admits it once more, after its COMPLETE line. */
  lemma FinishedIsAdmittedAgain(cfg: RunConfig, t: Tid, now: real, h: Health, later: real)
    requires Busy(cfg)
    ensures var y := Run(cfg, Initial(cfg), FinishedInQueue(t, now, h));
            var y' := Run(cfg, y, [TickSweep, TickEnd] + [TickCount(later, h), TickAdmit]);
            && t in y.store.tickets && y.store.tickets[t].state == COMPLETED
            && t in y'.store.tickets && y'.store.tickets[t].state == ADMITTED
  {
    SuccessLeavesQueued(cfg, t, now, h);
    var y := Run(cfg, Initial(cfg), FinishedInQueue(t, now, h));
    RunThen(cfg, y, [TickSweep, TickEnd], [TickCount(later, h), TickAdmit]);
    TickEnds(cfg, y, t);
    QueuedAdmitted(cfg, DoEnd(DoSweep(y)), t, later, h);
  }

  /** In `none` mode: the second client joins behind the re-queued first one. The log says that the second was
      admitted; it waits, and the first is in service again without a line. */
  lemma NoneAdmitsTheOther(cfg: RunConfig, t: Tid, v: Tid, now: real)
    requires cfg.mode == NoneMode && 0.0 < cfg.admission.controlTick && t != v
    ensures var y := Run(cfg, Initial(cfg), [Join(t, LOW, now), Report(t, false, NoToken), Join(v, LOW, now)]);
            && t in y.store.tickets && v in y.store.tickets
            && y.log != [] && y.log[|y.log|-1] == TicketEvent(ADMIT, v, HIGH, LOW, 1)
            && y.store.tickets[v].state == WAITING && y.store.tickets[t].state == ADMITTED
  {
    var a, b, c := Join(t, LOW, now), Report(t, false, NoToken), Join(v, LOW, now);
    var y1 := DoJoin(cfg, Initial(cfg), t, LOW, now);
    NoneFirst(cfg, t, LOW, now);
    var y2 := DoReport(cfg, y1, t, false, NoToken);
    NoneRequeued(cfg, y1, t);
    RunThree(cfg, Initial(cfg), a, b, c);
    NoneSecond(cfg, y2, t, v, now);
  }

  lemma NoneFirst(cfg: RunConfig, t: Tid, c: AccessClass, now: real)
    requires cfg.mode == NoneMode
    ensures var s := DoJoin(cfg, Initial(cfg), t, c, now).store; OnlyServed(s, t) && s.tickets[t].trueClass == c
  {
    SortedOne(Waiter(1, t));
    var s1 := Joined(EMPTY_STORE, t, c, HIGH, Some(now + NONE_MODE_WINDOW));
    assert s1.waiting == [Waiter(1, t)];
    AdmitOnly(s1, Waiter(1, t), now, NONE_WINDOWS);
  }

  lemma NoneRequeued(cfg: RunConfig, y: System, t: Tid)
    requires cfg.mode == NoneMode && OnlyServed(y.store, t)
    ensures var s := DoReport(cfg, y, t, false, NoToken).store;
            && s.tickets.Keys == {t} && s.waiting == [Waiter(2, t)] && s.lastSeq == 2
            && s.tickets[t].trueClass == y.store.tickets[t].trueClass
  {
    DoTimeoutIs(cfg, y, t);
    SortedOne(Waiter(2, t));
  }

  lemma NoneSecond(cfg: RunConfig, y: System, t: Tid, v: Tid, now: real)
    requires cfg.mode == NoneMode && t != v
    requires y.store.tickets.Keys == {t} && y.store.waiting == [Waiter(2, t)] && y.store.lastSeq == 2
    ensures var y' := DoJoin(cfg, y, v, LOW, now);
            && t in y'.store.tickets && v in y'.store.tickets
            && y'.log != [] && y'.log[|y'.log|-1] == TicketEvent(ADMIT, v, HIGH, LOW, 1)
            && y'.store.tickets[v].state == WAITING && y'.store.tickets[t].state == ADMITTED
  {
    var s1 := Joined(y.store, v, LOW, HIGH, Some(now + NONE_MODE_WINDOW));
    QueueAtEnd(y.store.waiting, Waiter(3, v));
    assert s1.waiting == [Waiter(2, t), Waiter(3, v)];
    var h := Head(s1.waiting, 1);
    assert h == [Waiter(2, t)] && h[0].tid == t;
    assert !Queued(h, v);
  }

  /** The same run with a first client of another class: the log has admitted the only LOW client, the counter
      says that one is waiting. */
  lemma NoneJoinUpsetsBooks(cfg: RunConfig, t: Tid, v: Tid, now: real)
    requires cfg.mode == NoneMode && 0.0 < cfg.admission.controlTick && t != v
    ensures var y := Run(cfg, Initial(cfg), [Join(t, HIGH, now), Report(t, false, NoToken), Join(v, LOW, now)]);
            !BalancedFor(y.store, y.log, LOW)
  {
    var a, b, c := Join(t, HIGH, now), Report(t, false, NoToken), Join(v, LOW, now);
    RunThree(cfg, Initial(cfg), a, b, c);
    FirstBooks(cfg, t, now);
    SecondBooks(cfg, Next(cfg, Initial(cfg), a), t);
    BooksUpset(cfg, Next(cfg, Next(cfg, Initial(cfg), a), b), t, v, now);
  }

  /** In order, and the books of class LOW balance. */
  ghost predicate InOrder(y: System) {
    Known(y.store) && Lined(y.store) && BalancedFor(y.store, y.log, LOW)
  }

  lemma FirstBooks(cfg: RunConfig, t: Tid, now: real)
    requires cfg.mode == NoneMode && 0.0 < cfg.admission.controlTick
    ensures var y := Next(cfg, Initial(cfg), Join(t, HIGH, now));
            InOrder(y) && OnlyServed(y.store, t) && y.store.tickets[t].trueClass == HIGH
  {
    NoneFirst(cfg, t, HIGH, now);
    StillBalanced(cfg, Initial(cfg), Join(t, HIGH, now), LOW);
  }

  lemma SecondBooks(cfg: RunConfig, y: System, t: Tid)
    requires cfg.mode == NoneMode && 0.0 < cfg.admission.controlTick
    requires InOrder(y) && OnlyServed(y.store, t) && y.store.tickets[t].trueClass == HIGH
    ensures var y' := Next(cfg, y, Report(t, false, NoToken));
            && InOrder(y') && y'.store.tickets.Keys == {t} && y'.store.tickets[t].trueClass == HIGH
            && y'.store.waiting == [Waiter(2, t)]
  {
    NoneRequeued(cfg, y, t);
    StillBalanced(cfg, y, Report(t, false, NoToken), LOW);
  }

  lemma StillBalanced(cfg: RunConfig, y: System, step: Step, c: AccessClass)
    requires Known(y.store) && Lined(y.store) && 0.0 < cfg.admission.controlTick && BalancedFor(y.store, y.log, c)
    requires Fits(cfg, y.store, step, c)
    ensures var y' := Next(cfg, y, step); Lined(y'.store) && BalancedFor(y'.store, y'.log, c)
  {
    StepBalancesIff(cfg, y, step, c);
    StepLined(cfg, y, step);
  }

  lemma BooksUpset(cfg: RunConfig, y: System, t: Tid, v: Tid, now: real)
    requires cfg.mode == NoneMode && 0.0 < cfg.admission.controlTick && t != v
    requires InOrder(y)
    requires y.store.tickets.Keys == {t} && y.store.tickets[t].trueClass == HIGH && y.store.waiting == [Waiter(2, t)]
    ensures var y' := Next(cfg, y, Join(v, LOW, now)); !BalancedFor(y'.store, y'.log, LOW)
  {
    StepBalancesIff(cfg, y, Join(v, LOW, now), LOW);
    assert !HasTrueClass(y.store.tickets, Waiter(2, t), LOW);
  }

  // ---- the two stores ----

  /** Created and put back while it waits: two entries in the list, one in the sorted set. */
  lemma StoresPart(tid: Tid, c: AccessClass)
    ensures var m := CreateTicket(EMPTY_STORE, tid, 1, c, MEDIUM, 1, None);
            && WaitingSet(map[tid := 1], m.waiting)
            && |Reinsert(m, tid, 2, None, Some(2)).waiting| == 2 && |map[tid := 1][tid := 2]| == 1
  {
    SortedOne(Waiter(1, tid));
    var m := CreateTicket(EMPTY_STORE, tid, 1, c, MEDIUM, 1, None);
    assert m.waiting == [Waiter(1, tid)] && m.waiting[0].tid == tid;
    assert map[tid := 1][tid := 2] == map[tid := 2];
  }
}
