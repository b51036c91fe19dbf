/** The operator's counters: per true class they balance against the queue and against the log, however late the
    reports arrive; and exactly which joins upset them. */
module Ledger {
  import opened Classes
  import opened Window
  import opened Seqs
  import opened QueueStore
  import opened Admission
  import opened Invariants

  /** Lines of one kind for one true class. */
  function Lines(log: seq<Event>, kind: Kind, c: AccessClass): nat {
    CountIf(log, (e: Event) => e.TicketEvent? && e.kind == kind && e.trueClass == c)
  }

  /** Waiting counts the queue entries and equals joins plus timeouts less admissions. */
  ghost predicate BalancedFor(s: Store, log: seq<Event>, c: AccessClass) {
    && s.counters.waiting.Get(c) == ClassCount(s.tickets, s.waiting, c)
    && s.counters.waiting.Get(c) == Lines(log, JOIN, c) + Lines(log, TIMEOUT, c) - Lines(log, ADMIT, c)
    && s.counters.timedOut.Get(c) == Lines(log, TIMEOUT, c)
    && s.counters.completed.Get(c) == Lines(log, COMPLETE, c)
  }

  function One(e: Event, kind: Kind, c: AccessClass): nat {
    if e.TicketEvent? && e.kind == kind && e.trueClass == c then 1 else 0
  }

  lemma LinesAppend(log: seq<Event>, e: Event, kind: Kind, c: AccessClass)
    ensures Lines(log + [e], kind, c) == Lines(log, kind, c) + One(e, kind, c)
  {
    assert (log + [e])[..|log + [e]|-1] == log;
  }

  lemma LinesConcat(log: seq<Event>, es: seq<Event>, kind: Kind, c: AccessClass)
    ensures Lines(log + es, kind, c) == Lines(log, kind, c) + Lines(es, kind, c)
  {
    CountIfConcat(log, es, (e: Event) => e.TicketEvent? && e.kind == kind && e.trueClass == c);
  }

  /** One more entry in the queue is one more for the class of its ticket. */
  lemma ClassCountInsert(tickets: map<Tid, Ticket>, q: seq<Waiter>, w: Waiter, c: AccessClass)
    requires w.tid in tickets
    ensures ClassCount(tickets, SortBy(WAITER_KEY, q + [w]), c)
            == ClassCount(tickets, q, c) + (if tickets[w.tid].trueClass == c then 1 else 0)
  {
    var p := (x: Waiter) => HasTrueClass(tickets, x, c);
    SortByCount(WAITER_KEY, q + [w], p);
    CountIfConcat(q, [w], p);
    assert [w][..0] == [];
    assert CountIf([w], p) == CountIf([w][..0], p) + (if p(w) then 1 else 0);
  }

  /** The count looks only at the true classes of the queued tickets. */
  lemma ClassCountSame(a: map<Tid, Ticket>, b: map<Tid, Ticket>, q: seq<Waiter>, c: AccessClass)
    requires forall i :: 0 <= i < |q| ==> HasTrueClass(a, q[i], c) == HasTrueClass(b, q[i], c)
    ensures ClassCount(a, q, c) == ClassCount(b, q, c)
  {
    CountIfSame(q, (x: Waiter) => HasTrueClass(a, x, c), (x: Waiter) => HasTrueClass(b, x, c));
  }

  lemma ClassCountSplit(tickets: map<Tid, Ticket>, q: seq<Waiter>, n: int, c: AccessClass)
    ensures ClassCount(tickets, q, c) == ClassCount(tickets, Head(q, n), c) + ClassCount(tickets, Tail(q, n), c)
  {
    CountIfConcat(Head(q, n), Tail(q, n), (x: Waiter) => HasTrueClass(tickets, x, c));
    assert q == Head(q, n) + Tail(q, n);
  }

  // ---- a join, on whatever id and queue ----

  /** Does the ticket at the head of the queue belong to class `c`, once `tid` is registered under `trueClass`? */
  predicate HeadOf(s: Store, tid: Tid, trueClass: AccessClass, c: AccessClass) {
    if s.waiting == [] || s.waiting[0].tid == tid then trueClass == c else HasTrueClass(s.tickets, s.waiting[0], c)
  }

  /** If the id is waiting already, it belongs to class `c` before and after or not at all. */
  predicate SameClassAgain(s: Store, tid: Tid, trueClass: AccessClass, c: AccessClass) {
    Queued(s.waiting, tid) && tid in s.tickets ==> (s.tickets[tid].trueClass == c <==> trueClass == c)
  }

  /** A waiting id is registered again only under the class it had; and in `none` mode the ticket that gets
      admitted, the head of the queue, is of the class that the log names. */
  predicate Fits(cfg: RunConfig, s: Store, step: Step, c: AccessClass) {
    match step
    case Join(tid, trueClass, _) =>
      && SameClassAgain(s, tid, trueClass, c)
      && (cfg.mode == NoneMode ==> (HeadOf(s, tid, trueClass, c) <==> trueClass == c))
    case _ => true
  }

  /** The queue is sorted and no score is above the last number given out. It holds whatever the calls. */
  ghost predicate Lined(s: Store) {
    && SortedBy(WAITER_KEY, s.waiting)
    && (forall i :: 0 <= i < |s.waiting| ==> s.waiting[i].score <= s.lastSeq)
    && forall t :: t in s.tickets ==> s.tickets[t].joinSeq <= s.lastSeq
  }

  /** If everything counted by `p` is counted by `q`, and something else is, `q` counts more. */
  lemma {:induction false} CountsMore<T>(s: seq<T>, p: T -> bool, q: T -> bool, i: nat)
    requires i < |s| && !p(s[i]) && q(s[i])
    requires forall j :: 0 <= j < |s| && p(s[j]) ==> q(s[j])
    ensures CountIf(s, p) < CountIf(s, q)
  {
    var init := s[..|s|-1];
    if i < |init| {
      CountsMore(init, p, q, i);
    } else {
      CountIfAtMost(init, p, q);
    }
  }

  /** Registering a ticket moves its queue entries to its new class. */
  lemma ReclassedCount(a: map<Tid, Ticket>, b: map<Tid, Ticket>, q: seq<Waiter>, tid: Tid, c: AccessClass)
    requires tid in b && forall u :: u in a ==> u in b && (u != tid ==> b[u] == a[u])
    requires forall i :: 0 <= i < |q| ==> q[i].tid in a
    ensures ClassCount(a, q, c) == ClassCount(b, q, c)
            <==> (Queued(q, tid) && tid in a ==> (a[tid].trueClass == c <==> b[tid].trueClass == c))
  {
    var p, r := (x: Waiter) => HasTrueClass(a, x, c), (x: Waiter) => HasTrueClass(b, x, c);
    if Queued(q, tid) && a[tid].trueClass == c && b[tid].trueClass != c {
      var i :| 0 <= i < |q| && q[i].tid == tid;
      CountsMore(q, r, p, i);
    } else if Queued(q, tid) && a[tid].trueClass != c && b[tid].trueClass == c {
      var i :| 0 <= i < |q| && q[i].tid == tid;
      CountsMore(q, p, r, i);
    } else {
      ClassCountSame(a, b, q, c);
    }
  }

  /** What the books of class `c` need besides the queue entries: counters against lines. */
  ghost predicate LinesMatch(s: Store, log: seq<Event>, c: AccessClass) {
    && s.counters.waiting.Get(c) == Lines(log, JOIN, c) + Lines(log, TIMEOUT, c) - Lines(log, ADMIT, c)
    && s.counters.timedOut.Get(c) == Lines(log, TIMEOUT, c)
    && s.counters.completed.Get(c) == Lines(log, COMPLETE, c)
  }

  lemma JoinedIs(s: Store, tid: Tid, trueClass: AccessClass, cls: AccessClass, expiresAt: Option<real>)
    ensures var s' := Joined(s, tid, trueClass, cls, expiresAt);
            && s'.waiting == SortBy(WAITER_KEY, s.waiting + [Waiter(s.lastSeq + 1, tid)])
            && tid in s'.tickets && s'.tickets[tid].trueClass == trueClass
            && (forall u :: u in s.tickets ==> u in s'.tickets && (u != tid ==> s'.tickets[u] == s.tickets[u]))
            && s'.counters == s.counters.(waiting := s.counters.waiting.Add(trueClass, 1))
  {
  }

  lemma JoinCountsIff(s: Store, tid: Tid, trueClass: AccessClass, cls: AccessClass, expiresAt: Option<real>, c: AccessClass)
    requires Known(s) && s.counters.waiting.Get(c) == ClassCount(s.tickets, s.waiting, c)
    ensures var s' := Joined(s, tid, trueClass, cls, expiresAt);
            s'.counters.waiting.Get(c) == ClassCount(s'.tickets, s'.waiting, c) <==> SameClassAgain(s, tid, trueClass, c)
  {
    var s' := Joined(s, tid, trueClass, cls, expiresAt);
    JoinedIs(s, tid, trueClass, cls, expiresAt);
    ClassCountInsert(s'.tickets, s.waiting, Waiter(s.lastSeq + 1, tid), c);
    ReclassedCount(s.tickets, s'.tickets, s.waiting, tid, c);
  }

  lemma JoinBalancesIff(s: Store, log: seq<Event>, tid: Tid, trueClass: AccessClass, cls: AccessClass, expiresAt: Option<real>, c: AccessClass)
    requires Known(s) && BalancedFor(s, log, c)
    ensures var s' := Joined(s, tid, trueClass, cls, expiresAt);
            && LinesMatch(s', log + [TicketEvent(JOIN, tid, cls, trueClass, 1)], c)
            && (s'.counters.waiting.Get(c) == ClassCount(s'.tickets, s'.waiting, c) <==> SameClassAgain(s, tid, trueClass, c))
  {
    JoinedIs(s, tid, trueClass, cls, expiresAt);
    JoinCountsIff(s, tid, trueClass, cls, expiresAt, c);
    FourKinds(log, TicketEvent(JOIN, tid, cls, trueClass, 1), c);
  }

  /** A newcomer queues behind everybody. */
  lemma JoinedWaiting(s: Store, tid: Tid, trueClass: AccessClass, cls: AccessClass, expiresAt: Option<real>)
    requires Lined(s)
    ensures Joined(s, tid, trueClass, cls, expiresAt).waiting == s.waiting + [Waiter(s.lastSeq + 1, tid)]
  {
    JoinedIs(s, tid, trueClass, cls, expiresAt);
    LastInLine(s.waiting, Waiter(s.lastSeq + 1, tid));
  }

  lemma LastInLine(q: seq<Waiter>, w: Waiter)
    requires SortedBy(WAITER_KEY, q) && forall i :: 0 <= i < |q| ==> q[i].score <= w.score
    ensures SortBy(WAITER_KEY, q + [w]) == q + [w]
  {
    SortByAppend(WAITER_KEY, q, w);
    InsertByAtEnd(WAITER_KEY, q, w);
  }

  /** Taking out one entry keeps the difference between the counter and the entries. */
  lemma AdmitOneCounts(s: Store, now: real, windows: AccessClass -> real, c: AccessClass)
    requires Known(s) && s.waiting != []
    ensures var s', one := AdmitN(s, 1, now, windows), if HasTrueClass(s.tickets, s.waiting[0], c) then 1 else 0;
            && ClassCount(s'.tickets, s'.waiting, c) == ClassCount(s.tickets, s.waiting, c) - one
            && s'.counters == s.counters.(waiting := s'.counters.waiting)
            && s'.counters.waiting.Get(c) == s.counters.waiting.Get(c) - one
  {
    var s', h := AdmitN(s, 1, now, windows), Head(s.waiting, 1);
    ClassCountSplit(s.tickets, s.waiting, 1, c);
    ClassCountSame(s.tickets, s'.tickets, s'.waiting, c);
    assert h == [s.waiting[0]] && h[..0] == [];
    assert ClassCount(s.tickets, h, c) == CountIf(h[..0], w => HasTrueClass(s.tickets, w, c)) + if HasTrueClass(s.tickets, h[0], c) then 1 else 0;
  }

  lemma JoinedHead(s: Store, tid: Tid, trueClass: AccessClass, cls: AccessClass, expiresAt: Option<real>, c: AccessClass)
    requires Known(s) && Lined(s)
    ensures var s1 := Joined(s, tid, trueClass, cls, expiresAt);
            s1.waiting != [] && (HeadOf(s, tid, trueClass, c) <==> HasTrueClass(s1.tickets, s1.waiting[0], c))
  {
    JoinedWaiting(s, tid, trueClass, cls, expiresAt);
  }

  /** One admission with one line: the lines still match if and only if the line names the class of the head. */
  lemma AdmitLineIff(s: Store, log: seq<Event>, now: real, windows: AccessClass -> real, e: Event, c: AccessClass)
    requires Known(s) && s.waiting != [] && LinesMatch(s, log, c) && e.TicketEvent? && e.kind == ADMIT
    ensures var s' := AdmitN(s, 1, now, windows);
            && (LinesMatch(s', log + [e], c) <==> (HasTrueClass(s.tickets, s.waiting[0], c) <==> e.trueClass == c))
            && (s'.counters.waiting.Get(c) == ClassCount(s'.tickets, s'.waiting, c)
                <==> s.counters.waiting.Get(c) == ClassCount(s.tickets, s.waiting, c))
  {
    AdmitOneCounts(s, now, windows, c);
    FourKinds(log, e, c);
  }

  lemma NoneJoinLogIs(cfg: RunConfig, y: System, tid: Tid, trueClass: AccessClass, now: real)
    requires Known(y.store) && cfg.mode == NoneMode
    ensures var y' := DoJoin(cfg, y, tid, trueClass, now);
            && y'.store == AdmitN(Joined(y.store, tid, trueClass, HIGH, Some(now + NONE_MODE_WINDOW)), 1, now, NONE_WINDOWS)
            && y'.log == y.log + [TicketEvent(JOIN, tid, HIGH, trueClass, 1)] + [TicketEvent(ADMIT, tid, HIGH, trueClass, 1)]
  {
  }

  /** In `none` mode the join is followed by an admission, and the log names the newcomer whoever that was. */
  lemma NoneJoinBalancesIff(cfg: RunConfig, y: System, tid: Tid, trueClass: AccessClass, now: real, c: AccessClass)
    requires Known(y.store) && Lined(y.store) && BalancedFor(y.store, y.log, c) && cfg.mode == NoneMode
    ensures var y' := DoJoin(cfg, y, tid, trueClass, now);
            BalancedFor(y'.store, y'.log, c) <==> Fits(cfg, y.store, Join(tid, trueClass, now), c)
  {
    var s, expiresAt := y.store, Some(now + NONE_MODE_WINDOW);
    JoinBalancesIff(s, y.log, tid, trueClass, HIGH, expiresAt, c);
    JoinedHead(s, tid, trueClass, HIGH, expiresAt, c);
    AdmitLineIff(Joined(s, tid, trueClass, HIGH, expiresAt), y.log + [TicketEvent(JOIN, tid, HIGH, trueClass, 1)],
                 now, NONE_WINDOWS, TicketEvent(ADMIT, tid, HIGH, trueClass, 1), c);
    NoneJoinLogIs(cfg, y, tid, trueClass, now);
  }

  /** The ADMIT lines of one admission, by class, are the queue entries it took. */
  lemma {:induction false} AdmitLines(s: Store, tickets: map<Tid, Ticket>, h: seq<Waiter>, now: real, windows: AccessClass -> real, kind: Kind, c: AccessClass)
    requires forall i :: 0 <= i < |h| ==> h[i].tid in s.tickets
    requires forall t :: t in s.tickets ==> t in tickets && tickets[t].trueClass == s.tickets[t].trueClass
    ensures Lines(AdmitEvents(tickets, Grants(s.tickets, h, now, windows)), kind, c)
            == if kind == ADMIT then ClassCount(s.tickets, h, c) else 0
  {
    if h != [] {
      var init, last := h[..|h|-1], h[|h|-1];
      AdmitLines(s, tickets, init, now, windows, kind, c);
      var g := Grants(s.tickets, h, now, windows);
      assert g[..|g|-1] == Grants(s.tickets, init, now, windows);
      LinesAppend(AdmitEvents(tickets, g[..|g|-1]), Log(ADMIT, last.tid, tickets[last.tid]), kind, c);
    }
  }

  lemma AdmitBalances(s: Store, log: seq<Event>, n: int, now: real, windows: AccessClass -> real, c: AccessClass)
    requires Known(s) && BalancedFor(s, log, c)
    ensures var s' := AdmitN(s, n, now, windows);
            BalancedFor(s', log + AdmitEvents(s'.tickets, AdmittedBy(s, n, now, windows)), c)
  {
    var s', h := AdmitN(s, n, now, windows), Head(s.waiting, n);
    var es := AdmitEvents(s'.tickets, AdmittedBy(s, n, now, windows));
    ClassCountSplit(s.tickets, s.waiting, n, c);
    ClassCountSame(s.tickets, s'.tickets, s'.waiting, c);
    assert s'.counters.waiting.Get(c) == s.counters.waiting.Get(c) - ClassCount(s.tickets, h, c);
    forall kind ensures Lines(log + es, kind, c) == Lines(log, kind, c) + if kind == ADMIT then ClassCount(s.tickets, h, c) else 0 {
      LinesConcat(log, es, kind, c);
      AdmitLines(s, s'.tickets, h, now, windows, kind, c);
    }
  }

  lemma TimeoutBalances(cfg: RunConfig, s: Store, log: seq<Event>, tid: Tid, c: AccessClass)
    requires Known(s) && tid in s.tickets && BalancedFor(s, log, c)
    ensures BalancedFor(Requeued(cfg, s, tid), log + TimeoutEvents(cfg, tid, s.tickets[tid]), c)
  {
    var s', t := Requeued(cfg, s, tid), s.tickets[tid];
    var es := TimeoutEvents(cfg, tid, t);
    ClassCountInsert(s'.tickets, s.waiting, Waiter(RequeueScore(cfg, s, tid), tid), c);
    ClassCountSame(s.tickets, s'.tickets, s.waiting, c);
    TimeoutLines(cfg, log, tid, t, JOIN, c);
    TimeoutLines(cfg, log, tid, t, ADMIT, c);
    TimeoutLines(cfg, log, tid, t, COMPLETE, c);
    TimeoutLines(cfg, log, tid, t, TIMEOUT, c);
  }

  lemma TimeoutLines(cfg: RunConfig, log: seq<Event>, tid: Tid, t: Ticket, kind: Kind, c: AccessClass)
    requires kind != DOWNGRADE && kind != REQUEUE
    ensures Lines(log + TimeoutEvents(cfg, tid, t), kind, c)
            == Lines(log, kind, c) + if kind == TIMEOUT && t.trueClass == c then 1 else 0
  {
    var es := TimeoutEvents(cfg, tid, t);
    LinesAppend(log, es[0], kind, c);
    LinesAppend(log + [es[0]], es[1], kind, c);
    if |es| == 2 {
      assert log + es == log + [es[0]] + [es[1]];
    } else {
      LinesAppend(log + [es[0]] + [es[1]], es[2], kind, c);
      assert log + es == log + [es[0]] + [es[1]] + [es[2]];
    }
  }

  lemma CompleteBalances(s: Store, log: seq<Event>, tid: Tid, c: AccessClass)
    requires Known(s) && tid in s.tickets && BalancedFor(s, log, c)
    ensures BalancedFor(Complete(s, tid, COMPLETED), log + [Log(COMPLETE, tid, s.tickets[tid])], c)
  {
    var s', t := Complete(s, tid, COMPLETED), s.tickets[tid];
    ClassCountSame(s.tickets, s'.tickets, s.waiting, c);
    assert s'.waiting == s.waiting && s'.counters.waiting == s.counters.waiting && s'.counters.timedOut == s.counters.timedOut;
    assert s'.counters.completed.Get(c) == s.counters.completed.Get(c) + if t.trueClass == c then 1 else 0;
    FourKinds(log, Log(COMPLETE, tid, t), c);
  }

  /** One more line, seen by each of the four kinds that the books look at. */
  lemma FourKinds(log: seq<Event>, e: Event, c: AccessClass)
    ensures Lines(log + [e], JOIN, c) == Lines(log, JOIN, c) + One(e, JOIN, c)
    ensures Lines(log + [e], ADMIT, c) == Lines(log, ADMIT, c) + One(e, ADMIT, c)
    ensures Lines(log + [e], TIMEOUT, c) == Lines(log, TIMEOUT, c) + One(e, TIMEOUT, c)
    ensures Lines(log + [e], COMPLETE, c) == Lines(log, COMPLETE, c) + One(e, COMPLETE, c)
  {
    LinesAppend(log, e, JOIN, c);
    LinesAppend(log, e, ADMIT, c);
    LinesAppend(log, e, TIMEOUT, c);
    LinesAppend(log, e, COMPLETE, c);
  }

  lemma QuietLineBalances(s: Store, s': Store, log: seq<Event>, e: Event, c: AccessClass)
    requires BalancedFor(s, log, c) && s'.counters == s.counters && s'.waiting == s.waiting
    requires forall i :: 0 <= i < |s.waiting| ==> HasTrueClass(s.tickets, s.waiting[i], c) == HasTrueClass(s'.tickets, s.waiting[i], c)
    requires e.TicketEvent? ==> e.kind == ESTIMATE
    ensures BalancedFor(s', log + [e], c)
  {
    ClassCountSame(s.tickets, s'.tickets, s.waiting, c);
    FourKinds(log, e, c);
  }

  lemma EstimateBalances(y: System, tid: Tid, cls: AccessClass, c: AccessClass)
    requires Known(y.store) && BalancedFor(y.store, y.log, c)
    ensures var y' := DoEstimate(y, tid, cls); BalancedFor(y'.store, y'.log, c)
  {
    if EstimateAccepted(y.store, tid) {
      var t := y.store.tickets[tid];
      QuietLineBalances(y.store, UpdateClass(y.store, tid, cls), y.log, TicketEvent(ESTIMATE, tid, cls, t.trueClass, t.attempt), c);
    }
  }

  lemma DoTimeoutBalances(cfg: RunConfig, y: System, tid: Tid, c: AccessClass)
    requires Known(y.store) && BalancedFor(y.store, y.log, c)
    ensures var y' := DoTimeout(cfg, y, tid); BalancedFor(y'.store, y'.log, c)
  {
    if tid in y.store.tickets {
      DoTimeoutIs(cfg, y, tid);
      TimeoutBalances(cfg, y.store, y.log, tid, c);
    }
  }

  /** A step keeps the books of a class balanced if and only if it fits. Only a join can fail to: every other
      call, late reports included, keeps them. */
  lemma StepBalancesIff(cfg: RunConfig, y: System, step: Step, c: AccessClass)
    requires Known(y.store) && Lined(y.store) && 0.0 < cfg.admission.controlTick
    requires BalancedFor(y.store, y.log, c)
    ensures var y' := Next(cfg, y, step); BalancedFor(y'.store, y'.log, c) <==> Fits(cfg, y.store, step, c)
  {
    match step
    case Join(tid, trueClass, now) =>
      if cfg.mode == NoneMode {
        NoneJoinBalancesIff(cfg, y, tid, trueClass, now, c);
      } else {
        JoinBalancesIff(y.store, y.log, tid, trueClass, MEDIUM, None, c);
      }
    case _ =>
      OtherStepBalances(cfg, y, step, c);
  }

  lemma OtherStepBalances(cfg: RunConfig, y: System, step: Step, c: AccessClass)
    requires Known(y.store) && 0.0 < cfg.admission.controlTick && !step.Join?
    requires BalancedFor(y.store, y.log, c)
    ensures var y' := Next(cfg, y, step); BalancedFor(y'.store, y'.log, c)
  {
    match step
    case Estimate(tid, cls) =>
      EstimateBalances(y, tid, cls, c);
    case Report(tid, ok, token) =>
      if ReportAccepted(y.store, tid, ok, token) {
        if ok {
          CompleteBalances(y.store, y.log, tid, c);
        } else {
          DoTimeoutBalances(cfg, y, tid, c);
        }
      }
    case TickAdmit =>
      if y.phase.Counted? && 0 < y.phase.r.n {
        AdmitBalances(y.store, y.log, y.phase.r.n, y.phase.r.now, WindowsForAll(cfg.admission, cfg.mode), c);
      }
    case TickRequeue =>
      if y.phase.Sweeping? && y.phase.todo != [] {
        DoTimeoutBalances(cfg, y.(phase := y.phase.(todo := y.phase.todo[1..])), y.phase.todo[0], c);
      }
    case TickEnd =>
      if y.phase.Sweeping? && y.phase.todo == [] {
        QuietLineBalances(y.store, y.store, y.log, Control(y.alpha, y.muHat, y.phase.r.inFlight, y.phase.r.cMax), c);
      }
    case _ =>
  }

  // ---- the queue stays in line ----

  lemma InsertLined(q: seq<Waiter>, w: Waiter, last: int)
    requires (forall i :: 0 <= i < |q| ==> q[i].score <= last) && w.score <= last
    ensures var r := SortBy(WAITER_KEY, q + [w]); SortedBy(WAITER_KEY, r) && forall i :: 0 <= i < |r| ==> r[i].score <= last
  {
    var r := SortBy(WAITER_KEY, q + [w]);
    SortBySorted(WAITER_KEY, q + [w]);
    SortByMembers(WAITER_KEY, q + [w]);
    forall i | 0 <= i < |r| ensures r[i].score <= last {
      assert r[i] in r && r[i] in q + [w];
    }
  }

  lemma JoinedLined(s: Store, tid: Tid, trueClass: AccessClass, cls: AccessClass, expiresAt: Option<real>)
    requires Lined(s)
    ensures Lined(Joined(s, tid, trueClass, cls, expiresAt))
  {
    InsertLined(s.waiting, Waiter(s.lastSeq + 1, tid), s.lastSeq + 1);
  }

  lemma AdmitLined(s: Store, n: int, now: real, windows: AccessClass -> real)
    requires Known(s) && Lined(s)
    ensures Lined(AdmitN(s, n, now, windows))
  {
    var q := Tail(s.waiting, n);
    assert forall i :: 0 <= i < |q| ==> q[i] == s.waiting[|Head(s.waiting, n)| + i];
  }

  lemma TimeoutLined(cfg: RunConfig, y: System, tid: Tid)
    requires Known(y.store) && Lined(y.store)
    ensures Lined(DoTimeout(cfg, y, tid).store)
  {
    if tid in y.store.tickets {
      DoTimeoutIs(cfg, y, tid);
      RequeuedLined(cfg, y.store, tid);
    }
  }

  lemma RequeuedLined(cfg: RunConfig, s: Store, tid: Tid)
    requires Lined(s) && tid in s.tickets
    ensures Lined(Requeued(cfg, s, tid))
  {
    var score := RequeueScore(cfg, s, tid);
    InsertLined(s.waiting, Waiter(score, tid), Requeued(cfg, s, tid).lastSeq);
  }

  lemma DoJoinLined(cfg: RunConfig, y: System, tid: Tid, trueClass: AccessClass, now: real)
    requires Known(y.store) && Lined(y.store)
    ensures Lined(DoJoin(cfg, y, tid, trueClass, now).store)
  {
    if cfg.mode == NoneMode {
      JoinedLined(y.store, tid, trueClass, HIGH, Some(now + NONE_MODE_WINDOW));
      AdmitLined(Joined(y.store, tid, trueClass, HIGH, Some(now + NONE_MODE_WINDOW)), 1, now, NONE_WINDOWS);
      NoneJoinLogIs(cfg, y, tid, trueClass, now);
    } else {
      JoinedLined(y.store, tid, trueClass, MEDIUM, None);
    }
  }

  lemma StepLined(cfg: RunConfig, y: System, step: Step)
    requires Known(y.store) && Lined(y.store) && 0.0 < cfg.admission.controlTick
    ensures Lined(Next(cfg, y, step).store)
  {
    match step
    case Join(tid, trueClass, now) =>
      DoJoinLined(cfg, y, tid, trueClass, now);
    case Report(tid, ok, token) =>
      if ReportAccepted(y.store, tid, ok, token) && !ok {
        TimeoutLined(cfg, y, tid);
      }
    case TickAdmit =>
      if y.phase.Counted? && 0 < y.phase.r.n {
        AdmitLined(y.store, y.phase.r.n, y.phase.r.now, WindowsForAll(cfg.admission, cfg.mode));
      }
    case TickRequeue =>
      if y.phase.Sweeping? && y.phase.todo != [] {
        TimeoutLined(cfg, y.(phase := y.phase.(todo := y.phase.todo[1..])), y.phase.todo[0]);
      }
    case _ =>
  }

  // ---- runs ----

  predicate AllFit(cfg: RunConfig, y: System, steps: seq<Step>, c: AccessClass)
    requires Known(y.store) && 0.0 < cfg.admission.controlTick
    decreases |steps|
  {
    steps == [] || (Fits(cfg, y.store, steps[0], c) && AllFit(cfg, Next(cfg, y, steps[0]), steps[1..], c))
  }

  /** The books of class `c` balance at the start and after every step. */
  ghost predicate AlwaysBalanced(cfg: RunConfig, y: System, steps: seq<Step>, c: AccessClass)
    requires Known(y.store) && 0.0 < cfg.admission.controlTick
    decreases |steps|
  {
    BalancedFor(y.store, y.log, c) && (steps == [] || AlwaysBalanced(cfg, Next(cfg, y, steps[0]), steps[1..], c))
  }

  lemma {:induction false} RunBalancesIff(cfg: RunConfig, y: System, steps: seq<Step>, c: AccessClass)
    requires Known(y.store) && Lined(y.store) && 0.0 < cfg.admission.controlTick && BalancedFor(y.store, y.log, c)
    ensures AlwaysBalanced(cfg, y, steps, c) <==> AllFit(cfg, y, steps, c)
    ensures AllFit(cfg, y, steps, c) ==> BalancedFor(Run(cfg, y, steps).store, Run(cfg, y, steps).log, c)
    decreases |steps|
  {
    if steps != [] {
      var y' := Next(cfg, y, steps[0]);
      StepBalancesIff(cfg, y, steps[0], c);
      StepLined(cfg, y, steps[0]);
      if Fits(cfg, y.store, steps[0], c) {
        RunBalancesIff(cfg, y', steps[1..], c);
      }
    }
  }

  /** Over any run from the start, late reports and reused ids included: the books of a class balance throughout
      if and only if every join fits. */
  lemma CountersBalanceIff(cfg: RunConfig, steps: seq<Step>, c: AccessClass)
    requires 0.0 < cfg.admission.controlTick
    ensures AlwaysBalanced(cfg, Initial(cfg), steps, c) <==> AllFit(cfg, Initial(cfg), steps, c)
    ensures AllFit(cfg, Initial(cfg), steps, c) ==>
              var y := Run(cfg, Initial(cfg), steps); BalancedFor(y.store, y.log, c)
  {
    RunBalancesIff(cfg, Initial(cfg), steps, c);
  }

  /** A join in time fits, for every class; so does a new id outside `none` mode, whoever waits. */
  lemma InTimeFits(cfg: RunConfig, y: System, step: Step, c: AccessClass)
    requires Known(y.store) && (InTime(cfg, y, step) || (step.Join? && step.tid !in y.store.tickets && cfg.mode != NoneMode))
    ensures Fits(cfg, y.store, step, c)
  {
  }
}
