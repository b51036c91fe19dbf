/** What every run of the admission service keeps, and exactly which calls would break it. */
module Invariants {
  import opened Classes
  import opened Window
  import opened Seqs
  import opened QueueStore
  import opened StoreLaws
  import opened Admission
  import opened EventReplay

  /** Tickets taken out of flight by the sweep and not yet re-queued. */
  function Swept(y: System): seq<Tid> {
    if y.phase.Sweeping? then y.phase.todo else []
  }

  /** Every known ticket is in exactly one of waiting, in flight, swept and finished, as its state says. */
  ghost predicate Partitioned(s: Store, swept: seq<Tid>) {
    && (forall i, j :: 0 <= i < j < |swept| ==> swept[i] != swept[j])
    && (forall t :: t in swept ==> t in s.tickets)
    && (forall t :: t in s.tickets ==> Placed(s, swept, t))
  }

  ghost predicate Placed(s: Store, swept: seq<Tid>, t: Tid)
    requires t in s.tickets
  {
    match s.tickets[t].state
    case WAITING => Queued(s.waiting, t) && !Flying(s.inflight, t) && t !in swept
    case ADMITTED => !Queued(s.waiting, t) && (Flying(s.inflight, t) <==> t !in swept)
    case COMPLETED => !Queued(s.waiting, t) && !Flying(s.inflight, t) && t !in swept
  }

  /** Join numbers are distinct, no number was issued twice, and in `aaac` the score is the join number. */
  ghost predicate Numbered(cfg: RunConfig, s: Store) {
    && (forall t :: t in s.tickets ==> s.tickets[t].joinSeq <= s.lastSeq)
    && (forall t, u :: t in s.tickets && u in s.tickets && t != u ==> s.tickets[t].joinSeq != s.tickets[u].joinSeq)
    && (forall i :: 0 <= i < |s.waiting| ==> s.waiting[i].score <= s.lastSeq)
    && (cfg.mode == Aaac ==> forall i :: 0 <= i < |s.waiting| ==>
          s.waiting[i].tid in s.tickets && s.waiting[i].score == s.tickets[s.waiting[i].tid].joinSeq)
  }

  /** Replaying the log gives back every record. */
  ghost predicate Logged(log: seq<Event>, s: Store) {
    forall t: Tid :: Replay(log, t) == ViewOf(s, t)
  }

  /** I2: from the second attempt on nobody is HIGH; the third attempt, and any beyond the limit, is LOW. */
  ghost predicate Graded(cfg: RunConfig, s: Store) {
    forall t :: t in s.tickets ==> GradeOk(cfg, s.tickets[t])
  }

  predicate GradeOk(cfg: RunConfig, t: Ticket) {
    && 1 <= t.attempt
    && (2 <= t.attempt ==> t.cls != HIGH)
    && (3 <= t.attempt || (2 <= t.attempt && cfg.admission.maxAttempts < t.attempt) ==> t.cls == LOW)
  }

  ghost predicate Inv(cfg: RunConfig, y: System) {
    && Orderly(y.store)
    && Partitioned(y.store, Swept(y))
    && Numbered(cfg, y.store)
    && Logged(y.log, y.store)
    && Graded(cfg, y.store)
  }

  /** The calls that arrive in time: a new id joins (in `none` mode on an empty queue), and
      an accepted report is about a ticket in flight. */
  predicate InTime(cfg: RunConfig, y: System, step: Step) {
    match step
    case Join(tid, _, _) => tid !in y.store.tickets && (cfg.mode == NoneMode ==> y.store.waiting == [])
    case Report(tid, ok, token) => ReportAccepted(y.store, tid, ok, token) ==> Flying(y.store.inflight, tid)
    case _ => true
  }

  // ---- join ----

  lemma JoinedPartitioned(s: Store, swept: seq<Tid>, tid: Tid, trueClass: AccessClass, cls: AccessClass, expiresAt: Option<real>)
    requires Orderly(s) && Partitioned(s, swept) && tid !in s.tickets
    ensures Partitioned(Joined(s, tid, trueClass, cls, expiresAt), swept)
  {
    var s' := Joined(s, tid, trueClass, cls, expiresAt);
    forall t | t in s'.tickets ensures Placed(s', swept, t) {
      QueuedAfterInsert(s.waiting, Waiter(s.lastSeq + 1, tid), t);
      if t == tid {
        NotFlyingUnknown(s, tid);
      } else {
        assert Placed(s, swept, t);
      }
    }
  }

  lemma JoinedNumbered(cfg: RunConfig, s: Store, tid: Tid, trueClass: AccessClass, cls: AccessClass, expiresAt: Option<real>)
    requires Orderly(s) && Numbered(cfg, s) && tid !in s.tickets
    ensures Numbered(cfg, Joined(s, tid, trueClass, cls, expiresAt))
  {
    InsertNumbered(cfg, s, Joined(s, tid, trueClass, cls, expiresAt), Waiter(s.lastSeq + 1, tid));
  }

  lemma CreateKeeps(cfg: RunConfig, y: System, tid: Tid, trueClass: AccessClass, cls: AccessClass, expiresAt: Option<real>)
    requires Inv(cfg, y) && tid !in y.store.tickets
    ensures Inv(cfg, y.(store := Joined(y.store, tid, trueClass, cls, expiresAt),
                        log := y.log + [TicketEvent(JOIN, tid, cls, trueClass, 1)]))
  {
    var s := y.store;
    CreateKeepsOrder(NextSeq(s), tid, s.lastSeq + 1, trueClass, cls, 1, expiresAt);
    JoinedPartitioned(s, Swept(y), tid, trueClass, cls, expiresAt);
    JoinedNumbered(cfg, s, tid, trueClass, cls, expiresAt);
    forall t: Tid ensures Replay(y.log + [TicketEvent(JOIN, tid, cls, trueClass, 1)], t)
                          == ViewOf(Joined(s, tid, trueClass, cls, expiresAt), t) {
      ReplayAppend(y.log, TicketEvent(JOIN, tid, cls, trueClass, 1), t);
      assert Replay(y.log, t) == ViewOf(s, t);
    }
  }

  lemma NotFlyingUnknown(s: Store, tid: Tid)
    requires Orderly(s) && tid !in s.tickets
    ensures !Flying(s.inflight, tid)
  {
  }

  lemma InsertNumbered(cfg: RunConfig, s: Store, s': Store, w: Waiter)
    requires s'.waiting == SortBy(WAITER_KEY, s.waiting + [w])
    requires w.score <= s'.lastSeq && s.lastSeq <= s'.lastSeq
    requires forall i :: 0 <= i < |s.waiting| ==> s.waiting[i].score <= s.lastSeq
    requires forall i :: 0 <= i < |s.waiting| ==> s.waiting[i].tid in s.tickets
    requires forall t :: t in s.tickets ==> t in s'.tickets && s'.tickets[t].joinSeq == s.tickets[t].joinSeq
    requires w.tid in s'.tickets
    requires cfg.mode == Aaac ==> w.score == s'.tickets[w.tid].joinSeq
    requires cfg.mode == Aaac ==> forall i :: 0 <= i < |s.waiting| ==> s.waiting[i].score == s.tickets[s.waiting[i].tid].joinSeq
    ensures forall i :: 0 <= i < |s'.waiting| ==> s'.waiting[i].score <= s'.lastSeq
    ensures cfg.mode == Aaac ==> forall i :: 0 <= i < |s'.waiting| ==>
              s'.waiting[i].tid in s'.tickets && s'.waiting[i].score == s'.tickets[s'.waiting[i].tid].joinSeq
  {
    SortByMembers(WAITER_KEY, s.waiting + [w]);
    forall i | 0 <= i < |s'.waiting|
      ensures s'.waiting[i].score <= s'.lastSeq && s'.waiting[i].tid in s'.tickets
      ensures cfg.mode == Aaac ==> s'.waiting[i].score == s'.tickets[s'.waiting[i].tid].joinSeq
    {
      var x := s'.waiting[i];
      assert x in s'.waiting && x in s.waiting + [w];
      if x != w {
        var j :| 0 <= j < |s.waiting| && s.waiting[j] == x;
      }
    }
  }

  // ---- admission ----

  lemma {:induction false} AdmitEventsReplay(log: seq<Event>, tickets: map<Tid, Ticket>, granted: seq<Flight>, t: Tid)
    requires forall i, j :: 0 <= i < j < |granted| ==> granted[i].tid != granted[j].tid
    requires forall i :: 0 <= i < |granted| ==> granted[i].tid in tickets
    ensures Replay(log + AdmitEvents(tickets, granted), t)
            == if Flying(granted, t) then Advance(Replay(log, t), Log(ADMIT, t, tickets[t])) else Replay(log, t)
  {
    if granted == [] {
      assert log + [] == log;
    } else {
      var init, last := granted[..|granted|-1], granted[|granted|-1];
      AdmitEventsReplay(log, tickets, init, t);
      var e := Log(ADMIT, last.tid, tickets[last.tid]);
      assert log + AdmitEvents(tickets, granted) == log + AdmitEvents(tickets, init) + [e];
      ReplayAppend(log + AdmitEvents(tickets, init), e, t);
      if Flying(init, t) {
        var i :| 0 <= i < |init| && init[i].tid == t;
        assert granted[i].tid == t && t != last.tid;
      } else if t != last.tid {
        assert forall i :: 0 <= i < |init| ==> init[i] == granted[i];
      }
    }
  }

  lemma AdmitPartitioned(s: Store, swept: seq<Tid>, n: int, now: real, windows: AccessClass -> real)
    requires Orderly(s) && Partitioned(s, swept)
    ensures Partitioned(AdmitN(s, n, now, windows), swept)
  {
    var s' := AdmitN(s, n, now, windows);
    forall t | t in s'.tickets ensures Placed(s', swept, t) {
      AdmitMembers(s, n, now, windows, t);
      assert Placed(s, swept, t);
    }
  }

  lemma AdmitNumbered(cfg: RunConfig, s: Store, n: int, now: real, windows: AccessClass -> real)
    requires Known(s) && Numbered(cfg, s)
    ensures Numbered(cfg, AdmitN(s, n, now, windows))
  {
    var s', k := AdmitN(s, n, now, windows), |Head(s.waiting, n)|;
    assert forall i :: 0 <= i < |s'.waiting| ==> s'.waiting[i] == s.waiting[k + i];
  }

  /** Admitting the head of the queue and writing one ADMIT line per grant keeps the invariant. */
  lemma AdmitKeeps(cfg: RunConfig, y: System, n: int, now: real, windows: AccessClass -> real)
    requires Inv(cfg, y)
    ensures var s' := AdmitN(y.store, n, now, windows);
            Inv(cfg, y.(store := s', log := y.log + AdmitEvents(s'.tickets, AdmittedBy(y.store, n, now, windows))))
  {
    var s' := AdmitN(y.store, n, now, windows);
    var log := y.log + AdmitEvents(s'.tickets, AdmittedBy(y.store, n, now, windows));
    AdmitKeepsOrder(y.store, n, now, windows);
    AdmitPartitioned(y.store, Swept(y), n, now, windows);
    AdmitNumbered(cfg, y.store, n, now, windows);
    assert Logged(log, s') by {
      forall t: Tid ensures Replay(log, t) == ViewOf(s', t) {
        AdmitLogged(cfg, y, n, now, windows, t);
      }
    }
  }

  /** Granted are the tickets of the head of the queue, each once. */
  lemma GrantsAre(s: Store, n: int, now: real, windows: AccessClass -> real, t: Tid)
    requires Orderly(s)
    ensures var g := AdmittedBy(s, n, now, windows);
            && (forall i, j :: 0 <= i < j < |g| ==> g[i].tid != g[j].tid)
            && (Flying(g, t) <==> Queued(Head(s.waiting, n), t))
  {
    var h, g := Head(s.waiting, n), AdmittedBy(s, n, now, windows);
    assert forall i :: 0 <= i < |h| ==> g[i].tid == h[i].tid == s.waiting[i].tid;
    forall i, j | 0 <= i < j < |g| ensures g[i].tid != g[j].tid {
      assert WAITER_ID(s.waiting[i]) != WAITER_ID(s.waiting[j]);
    }
  }

  lemma AdmitLogged(cfg: RunConfig, y: System, n: int, now: real, windows: AccessClass -> real, t: Tid)
    requires Inv(cfg, y)
    ensures var s' := AdmitN(y.store, n, now, windows);
            Replay(y.log + AdmitEvents(s'.tickets, AdmittedBy(y.store, n, now, windows)), t) == ViewOf(s', t)
  {
    var s, h := y.store, Head(y.store.waiting, n);
    var s', g := AdmitN(s, n, now, windows), AdmittedBy(s, n, now, windows);
    GrantsAre(s, n, now, windows, t);
    AdmitEventsReplay(y.log, s'.tickets, g, t);
    AdmitMembers(s, n, now, windows, t);
    if Queued(h, t) {
      assert Queued(s.waiting, t) && t in s.tickets && Placed(s, Swept(y), t);
    }
  }

  // ---- timeout ----

  lemma TimeoutReplay(cfg: RunConfig, log: seq<Event>, tid: Tid, t: Ticket, u: Tid)
    requires Replay(log, tid) == Serves(t.attempt, t.cls, t.trueClass)
    ensures Replay(log + TimeoutEvents(cfg, tid, t), u)
            == if u == tid then Waits(t.attempt + 1, NextClass(cfg, t), t.trueClass) else Replay(log, u)
  {
    var es := TimeoutEvents(cfg, tid, t);
    if u != tid {
      ReplayElsewhere(log, es, u);
    } else {
      ReplayAppend(log, es[0], u);
      ReplayAppend(log + [es[0]], es[1], u);
      if |es| == 2 {
        assert log + es == log + [es[0]] + [es[1]];
      } else {
        ReplayAppend(log + [es[0]] + [es[1]], es[2], u);
        assert log + es == log + [es[0]] + [es[1]] + [es[2]];
      }
    }
  }

  /** The number under which a failed ticket queues again. */
  function RequeueScore(cfg: RunConfig, s: Store, tid: Tid): int
    requires tid in s.tickets
  {
    if cfg.mode != Aaac then s.lastSeq + 1 else s.tickets[tid].joinSeq
  }

  /** What a failed attempt makes of a store. */
  function Requeued(cfg: RunConfig, s: Store, tid: Tid): Store
    requires tid in s.tickets
  {
    var s1 := if cfg.mode != Aaac then NextSeq(s) else s;
    var t := s.tickets[tid];
    Reinsert(s1, tid, RequeueScore(cfg, s, tid), Some(NextClass(cfg, t)), Some(t.attempt + 1))
  }

  lemma RequeueScoreFresh(cfg: RunConfig, s: Store, tid: Tid)
    requires Known(s) && Numbered(cfg, s) && tid in s.tickets && !Queued(s.waiting, tid)
    ensures FreshScore(s.waiting, RequeueScore(cfg, s, tid))
  {
    forall i | 0 <= i < |s.waiting| ensures s.waiting[i].score != RequeueScore(cfg, s, tid) {
      assert s.waiting[i].tid != tid;
    }
  }

  lemma RequeuedOrderly(cfg: RunConfig, s: Store, tid: Tid)
    requires Orderly(s) && Numbered(cfg, s) && tid in s.tickets && !Queued(s.waiting, tid)
    ensures Orderly(Requeued(cfg, s, tid))
  {
    var s1 := if cfg.mode != Aaac then NextSeq(s) else s;
    var t := s.tickets[tid];
    RequeueScoreFresh(cfg, s, tid);
    ReinsertKeepsOrder(s1, tid, RequeueScore(cfg, s, tid), Some(NextClass(cfg, t)), Some(t.attempt + 1));
  }

  lemma RequeuedPartitioned(cfg: RunConfig, s: Store, swept: seq<Tid>, tid: Tid)
    requires tid in s.tickets && tid !in swept
    requires forall i, j :: 0 <= i < j < |swept| ==> swept[i] != swept[j]
    requires forall t :: t in swept ==> t in s.tickets
    requires forall t :: t in s.tickets && t != tid ==> Placed(s, swept, t)
    ensures Partitioned(Requeued(cfg, s, tid), swept)
  {
    var s' := Requeued(cfg, s, tid);
    forall u | u in s'.tickets ensures Placed(s', swept, u) {
      QueuedAfterInsert(s.waiting, Waiter(RequeueScore(cfg, s, tid), tid), u);
      FlyingAfterWithout(s.inflight, tid, u);
    }
  }

  lemma RequeuedNumbered(cfg: RunConfig, s: Store, tid: Tid)
    requires Known(s) && Numbered(cfg, s) && tid in s.tickets
    ensures Numbered(cfg, Requeued(cfg, s, tid))
  {
    InsertNumbered(cfg, s, Requeued(cfg, s, tid), Waiter(RequeueScore(cfg, s, tid), tid));
  }

  lemma DoTimeoutIs(cfg: RunConfig, y: System, tid: Tid)
    requires Known(y.store) && tid in y.store.tickets
    ensures var y' := DoTimeout(cfg, y, tid);
            y' == y.(store := Requeued(cfg, y.store, tid), log := y.log + TimeoutEvents(cfg, tid, y.store.tickets[tid]))
  {
  }

  lemma RequeuedLogged(cfg: RunConfig, log: seq<Event>, s: Store, tid: Tid)
    requires Logged(log, s) && tid in s.tickets && s.tickets[tid].state == ADMITTED
    ensures Logged(log + TimeoutEvents(cfg, tid, s.tickets[tid]), Requeued(cfg, s, tid))
  {
    var t, s' := s.tickets[tid], Requeued(cfg, s, tid);
    forall u: Tid ensures Replay(log + TimeoutEvents(cfg, tid, t), u) == ViewOf(s', u) {
      assert Replay(log, tid) == ViewOf(s, tid) && Replay(log, u) == ViewOf(s, u);
      TimeoutReplay(cfg, log, tid, t, u);
    }
  }

  lemma RequeuedGraded(cfg: RunConfig, s: Store, tid: Tid)
    requires Graded(cfg, s) && tid in s.tickets
    ensures Graded(cfg, Requeued(cfg, s, tid))
  {
    assert GradeOk(cfg, s.tickets[tid]);
  }

  /** A failed attempt of a ticket that is in flight or swept. `y` has it taken off the sweep list. */
  lemma TimeoutKeeps(cfg: RunConfig, y: System, tid: Tid)
    requires Orderly(y.store) && Numbered(cfg, y.store) && Logged(y.log, y.store) && Graded(cfg, y.store)
    requires tid in y.store.tickets && y.store.tickets[tid].state == ADMITTED && tid !in Swept(y)
    requires !Queued(y.store.waiting, tid)
    requires forall i, j :: 0 <= i < j < |Swept(y)| ==> Swept(y)[i] != Swept(y)[j]
    requires forall t :: t in Swept(y) ==> t in y.store.tickets
    requires forall t :: t in y.store.tickets && t != tid ==> Placed(y.store, Swept(y), t)
    ensures Inv(cfg, DoTimeout(cfg, y, tid))
  {
    DoTimeoutIs(cfg, y, tid);
    RequeuedOrderly(cfg, y.store, tid);
    RequeuedPartitioned(cfg, y.store, Swept(y), tid);
    RequeuedNumbered(cfg, y.store, tid);
    RequeuedLogged(cfg, y.log, y.store, tid);
    RequeuedGraded(cfg, y.store, tid);
  }

  // ---- the remaining steps ----

  lemma UpdateClassPartitioned(s: Store, swept: seq<Tid>, tid: Tid, cls: AccessClass)
    requires Partitioned(s, swept)
    ensures Partitioned(UpdateClass(s, tid, cls), swept)
  {
    var s' := UpdateClass(s, tid, cls);
    forall u | u in s'.tickets ensures Placed(s', swept, u) {
      assert Placed(s, swept, u);
    }
  }

  lemma EstimateLogged(log: seq<Event>, s: Store, tid: Tid, cls: AccessClass)
    requires Logged(log, s) && EstimateAccepted(s, tid) && 1 <= s.tickets[tid].attempt
    ensures var t := s.tickets[tid];
            Logged(log + [TicketEvent(ESTIMATE, tid, cls, t.trueClass, t.attempt)], UpdateClass(s, tid, cls))
  {
    var e := TicketEvent(ESTIMATE, tid, cls, s.tickets[tid].trueClass, s.tickets[tid].attempt);
    forall u: Tid ensures Replay(log + [e], u) == ViewOf(UpdateClass(s, tid, cls), u) {
      ReplayAppend(log, e, u);
      assert Replay(log, u) == ViewOf(s, u);
    }
  }

  lemma EstimateKeeps(cfg: RunConfig, y: System, tid: Tid, cls: AccessClass)
    requires Inv(cfg, y)
    ensures Inv(cfg, DoEstimate(y, tid, cls))
  {
    if EstimateAccepted(y.store, tid) {
      assert GradeOk(cfg, y.store.tickets[tid]);
      UpdateClassKeepsOrder(y.store, tid, cls);
      UpdateClassPartitioned(y.store, Swept(y), tid, cls);
      EstimateLogged(y.log, y.store, tid, cls);
    }
  }

  lemma CompleteKeeps(cfg: RunConfig, y: System, tid: Tid)
    requires Inv(cfg, y) && tid in y.store.tickets && Flying(y.store.inflight, tid)
    ensures var y' := y.(store := Complete(y.store, tid, COMPLETED), log := y.log + [Log(COMPLETE, tid, y.store.tickets[tid])]);
            Inv(cfg, y')
  {
    var s' := Complete(y.store, tid, COMPLETED);
    var e := Log(COMPLETE, tid, y.store.tickets[tid]);
    assert Placed(y.store, Swept(y), tid);
    CompleteKeepsOrder(y.store, tid, COMPLETED);
    forall u | u in s'.tickets ensures Placed(s', Swept(y), u) {
      FlyingAfterWithout(y.store.inflight, tid, u);
    }
    forall u: Tid ensures Replay(y.log + [e], u) == ViewOf(s', u) {
      ReplayAppend(y.log, e, u);
    }
  }

  lemma SweepPartitioned(s: Store, now: real)
    requires Orderly(s) && Partitioned(s, [])
    ensures Partitioned(ExpireInflight(s, now), Expired(s.inflight, now))
  {
    var s', swept := ExpireInflight(s, now), Expired(s.inflight, now);
    ExpiredMembers(s.inflight, now);
    forall t | t in s'.tickets ensures Placed(s', swept, t) {
      assert Placed(s, [], t);
      SweepSplits(s, now, t);
    }
  }

  lemma SweepKeeps(cfg: RunConfig, y: System)
    requires Inv(cfg, y)
    ensures Inv(cfg, DoSweep(y))
  {
    if y.phase.Granted? {
      ExpireKeepsOrder(y.store, y.phase.r.now);
      SweepPartitioned(y.store, y.phase.r.now);
    }
  }

  /** The sweep splits the flying tickets into those that stay and those it takes. */
  lemma SweepSplits(s: Store, now: real, t: Tid)
    requires Orderly(s)
    ensures Flying(s.inflight, t) <==> Flying(Kept(s.inflight, now), t) || t in Expired(s.inflight, now)
    ensures !(Flying(Kept(s.inflight, now), t) && t in Expired(s.inflight, now))
  {
    var fs := s.inflight;
    ExpiredMembers(fs, now);
    KeptMembers(fs, now);
    FlyingIn(fs, t);
    FlyingIn(Kept(fs, now), t);
    if f :| f in fs && f.tid == t {
      var i :| 0 <= i < |fs| && fs[i] == f;
      assert forall j :: 0 <= j < |fs| && j != i ==> FLIGHT_ID(fs[j]) != FLIGHT_ID(fs[i]);
    }
  }

  lemma RequeueKeeps(cfg: RunConfig, y: System)
    requires Inv(cfg, y)
    ensures Inv(cfg, DoRequeue(cfg, y))
  {
    if y.phase.Sweeping? && y.phase.todo != [] {
      var tid, rest := y.phase.todo[0], y.phase.todo[1..];
      var y1 := y.(phase := y.phase.(todo := rest));
      assert tid in y.phase.todo && Placed(y.store, y.phase.todo, tid);
      forall t ensures t in y.phase.todo <==> t == tid || t in rest {
        assert y.phase.todo == [tid] + rest;
      }
      assert tid !in rest;
      forall t | t in y.store.tickets && t != tid ensures Placed(y.store, rest, t) {
        assert Placed(y.store, y.phase.todo, t);
      }
      TimeoutKeeps(cfg, y1, tid);
    }
  }

  lemma EndKeeps(cfg: RunConfig, y: System)
    requires Inv(cfg, y)
    ensures Inv(cfg, DoEnd(y))
  {
    if y.phase.Sweeping? && y.phase.todo == [] {
      var e := Control(y.alpha, y.muHat, y.phase.r.inFlight, y.phase.r.cMax);
      forall u: Tid ensures Replay(y.log + [e], u) == ViewOf(y.store, u) {
        ReplayAppend(y.log, e, u);
      }
    }
  }

  /** On an empty queue a `none` join admits the ticket that it created. */
  lemma NoneJoinLog(s: Store, tid: Tid, trueClass: AccessClass, now: real)
    requires Known(s) && s.waiting == []
    ensures var s1 := Joined(s, tid, trueClass, HIGH, Some(now + NONE_MODE_WINDOW));
            AdmitEvents(AdmitN(s1, 1, now, NONE_WINDOWS).tickets, AdmittedBy(s1, 1, now, NONE_WINDOWS))
            == [TicketEvent(ADMIT, tid, HIGH, trueClass, 1)]
  {
    var s1 := Joined(s, tid, trueClass, HIGH, Some(now + NONE_MODE_WINDOW));
    OneWaiter(s, Waiter(s.lastSeq + 1, tid));
    var s2, g := AdmitN(s1, 1, now, NONE_WINDOWS), AdmittedBy(s1, 1, now, NONE_WINDOWS);
    assert Head(s1.waiting, 1)[0].tid == tid;
    assert |g| == 1 && g[0].tid == tid && g[..0] == [];
    assert AdmitEvents(s2.tickets, g[..0]) == [];
  }

  lemma OneWaiter(s: Store, w: Waiter)
    requires s.waiting == []
    ensures SortBy(WAITER_KEY, s.waiting + [w]) == [w]
  {
    assert s.waiting + [w] == [w] && [w][..0] == [];
  }

  lemma NoneJoinIs(cfg: RunConfig, y: System, tid: Tid, trueClass: AccessClass, now: real)
    requires Known(y.store) && y.store.waiting == [] && cfg.mode == NoneMode
    ensures var s1 := Joined(y.store, tid, trueClass, HIGH, Some(now + NONE_MODE_WINDOW));
            var s2 := AdmitN(s1, 1, now, NONE_WINDOWS);
            var join := TicketEvent(JOIN, tid, HIGH, trueClass, 1);
            DoJoin(cfg, y, tid, trueClass, now)
            == y.(store := s2, log := y.log + [join] + AdmitEvents(s2.tickets, AdmittedBy(s1, 1, now, NONE_WINDOWS)))
  {
    NoneJoinLog(y.store, tid, trueClass, now);
    var join, admit := TicketEvent(JOIN, tid, HIGH, trueClass, 1), TicketEvent(ADMIT, tid, HIGH, trueClass, 1);
    assert y.log + [join] + [admit] == y.log + [join, admit];
  }

  lemma JoinKeeps(cfg: RunConfig, y: System, tid: Tid, trueClass: AccessClass, now: real)
    requires Inv(cfg, y) && InTime(cfg, y, Join(tid, trueClass, now))
    ensures Inv(cfg, DoJoin(cfg, y, tid, trueClass, now))
  {
    if cfg.mode != NoneMode {
      CreateKeeps(cfg, y, tid, trueClass, MEDIUM, None);
    } else {
      var expiresAt := Some(now + NONE_MODE_WINDOW);
      CreateKeeps(cfg, y, tid, trueClass, HIGH, expiresAt);
      var y1 := y.(store := Joined(y.store, tid, trueClass, HIGH, expiresAt),
                   log := y.log + [TicketEvent(JOIN, tid, HIGH, trueClass, 1)]);
      AdmitKeeps(cfg, y1, 1, now, NONE_WINDOWS);
      NoneJoinIs(cfg, y, tid, trueClass, now);
    }
  }

  /** Every step that arrives in time keeps the invariant. */
  lemma InTimeKeeps(cfg: RunConfig, y: System, step: Step)
    requires Inv(cfg, y) && InTime(cfg, y, step) && 0.0 < cfg.admission.controlTick
    ensures Inv(cfg, Next(cfg, y, step))
  {
    match step
    case Join(tid, trueClass, now) => JoinKeeps(cfg, y, tid, trueClass, now);
    case Estimate(tid, cls) => EstimateKeeps(cfg, y, tid, cls);
    case Report(tid, ok, token) =>
      if ReportAccepted(y.store, tid, ok, token) {
        if ok {
          CompleteKeeps(cfg, y, tid);
        } else {
          assert Placed(y.store, Swept(y), tid);
          TimeoutKeeps(cfg, y, tid);
        }
      }
    case TickCount(now, health) =>
    case TickAdmit =>
      if y.phase.Counted? && 0 < y.phase.r.n {
        AdmitKeeps(cfg, y, y.phase.r.n, y.phase.r.now, WindowsForAll(cfg.admission, cfg.mode));
      }
    case TickSweep => SweepKeeps(cfg, y);
    case TickRequeue => RequeueKeeps(cfg, y);
    case TickEnd => EndKeeps(cfg, y);
  }
}
