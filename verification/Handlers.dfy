/** What one API call does to the service, in the caller's terms: who is refused, what a success changes and what
    stays as it was. */
module Handlers {
  import opened Classes
  import opened Window
  import opened Seqs
  import opened QueueStore
  import opened StoreLaws
  import opened Admission
  import opened Invariants
  import opened Fairness

  /** Everything but the store and the log. */
  ghost predicate SameController(y: System, y': System) {
    y' == y.(store := y'.store, log := y'.log, completions := y'.completions)
  }

  /** No other ticket changes. */
  ghost predicate OthersKept(s: Store, s': Store, tid: Tid) {
    && s'.tickets.Keys == s.tickets.Keys + {tid}
    && forall t :: t in s.tickets && t != tid ==> s'.tickets[t] == s.tickets[t]
  }

  // ---- join ----

  /** In the queueing modes a new client waits at the end of the queue, as MEDIUM until it is classified, under the
      next number; in `none` mode it is in service at once, as HIGH, for an hour. Nobody else changes. */
  lemma JoinDoes(cfg: RunConfig, y: System, tid: Tid, trueClass: AccessClass, now: real)
    requires Inv(cfg, y) && InTime(cfg, y, Join(tid, trueClass, now))
    ensures var y' := DoJoin(cfg, y, tid, trueClass, now);
            var s, s', n := y.store, y'.store, y.store.lastSeq + 1;
            && SameController(y, y') && y'.completions == y.completions && OthersKept(s, s', tid) && s'.lastSeq == n
            && if cfg.mode == NoneMode then
                 && s'.tickets[tid] == Ticket(ADMITTED, 1, HIGH, trueClass, n, Some(now + 3600.0))
                 && s'.waiting == [] && Flight(now + 3600.0, tid) in s'.inflight
                 && y'.log == y.log + [TicketEvent(JOIN, tid, HIGH, trueClass, 1), TicketEvent(ADMIT, tid, HIGH, trueClass, 1)]
               else
                 && s'.tickets[tid] == Ticket(WAITING, 1, MEDIUM, trueClass, n, None)
                 && s'.waiting == s.waiting + [Waiter(n, tid)] && s'.inflight == s.inflight
                 && y'.log == y.log + [TicketEvent(JOIN, tid, MEDIUM, trueClass, 1)]
  {
    JoinLeavesOthers(cfg, y, tid, trueClass, now);
    if cfg.mode == NoneMode {
      NoneJoinServes(y.store, tid, trueClass, now);
    } else {
      QueueAtEnd(y.store.waiting, Waiter(y.store.lastSeq + 1, tid));
    }
  }

  lemma NoneJoinServes(s: Store, tid: Tid, trueClass: AccessClass, now: real)
    requires Known(s) && s.waiting == []
    ensures var s1 := Joined(s, tid, trueClass, HIGH, Some(now + 3600.0));
            && Known(s1)
            && var s2 := AdmitN(s1, 1, now, NONE_WINDOWS);
            && tid in s2.tickets
            && s2.tickets[tid] == Ticket(ADMITTED, 1, HIGH, trueClass, s.lastSeq + 1, Some(now + 3600.0))
            && s2.waiting == [] && Flight(now + 3600.0, tid) in s2.inflight && s2.lastSeq == s.lastSeq + 1
  {
    var s1, w := Joined(s, tid, trueClass, HIGH, Some(now + 3600.0)), Waiter(s.lastSeq + 1, tid);
    OneWaiter(s, w);
    HeadServed(s1, w, now);
  }

  lemma HeadServed(s: Store, w: Waiter, now: real)
    requires Known(s) && s.waiting == [w]
    ensures var s2 := AdmitN(s, 1, now, NONE_WINDOWS);
            && w.tid in s2.tickets && s2.tickets[w.tid] == s.tickets[w.tid].(state := ADMITTED, expiresAt := Some(now + 3600.0))
            && s2.waiting == [] && Flight(now + 3600.0, w.tid) in s2.inflight && s2.lastSeq == s.lastSeq
  {
    var h := Head(s.waiting, 1);
    assert h == [w] && h[0].tid == w.tid;
    var g := Grants(s.tickets, h, now, NONE_WINDOWS);
    assert g[0] == Flight(now + 3600.0, w.tid) && g[0] in g;
    SortByMembers(FLIGHT_KEY, s.inflight + g);
  }

  // ---- estimate ----

  /** D2: an estimate counts exactly while a ticket waits for its first admission. Then it sets the class and nothing
      else, and is logged; otherwise nothing happens. */
  lemma EstimateDoes(y: System, tid: Tid, cls: AccessClass)
    ensures var s, y' := y.store, DoEstimate(y, tid, cls);
            if tid in s.tickets && s.tickets[tid].state == WAITING && s.tickets[tid].attempt < 2 then
              && y' == y.(store := s.(tickets := s.tickets[tid := s.tickets[tid].(cls := cls)]), log := y'.log)
              && y'.log == y.log + [TicketEvent(ESTIMATE, tid, cls, s.tickets[tid].trueClass, s.tickets[tid].attempt)]
            else y' == y
  {
  }

  // ---- report ----

  /** A report is refused, and changes nothing, exactly when the ticket is unknown, the token is invalid or for another
      ticket, or a success comes without a token. The attempt that the token was issued for does not matter. */
  lemma ReportRefusedIff(cfg: RunConfig, y: System, tid: Tid, ok: bool, token: Token)
    requires Known(y.store)
    ensures DoReport(cfg, y, tid, ok, token) == y
            <==> || tid !in y.store.tickets
                 || token == BadToken
                 || (exists other :: other != tid && token == TokenFor(other))
                 || (ok && token == NoToken)
  {
    if ReportAccepted(y.store, tid, ok, token) {
      assert |DoReport(cfg, y, tid, ok, token).log| > |y.log|;
    }
  }

  /** An accepted success finishes the ticket: it leaves service, is counted for the next tick and logged, and nothing
      else about it or anybody else changes. */
  lemma SuccessFinishes(cfg: RunConfig, y: System, tid: Tid)
    requires Known(y.store) && tid in y.store.tickets
    ensures var s, y' := y.store, DoReport(cfg, y, tid, true, TokenFor(tid));
            var t := s.tickets[tid];
            && SameController(y, y') && y'.completions == y.completions + 1
            && y'.log == y.log + [TicketEvent(COMPLETE, tid, t.cls, t.trueClass, t.attempt)]
            && OthersKept(s, y'.store, tid) && y'.store.tickets[tid] == t.(state := COMPLETED)
            && y'.store.waiting == s.waiting
            && forall f :: f in y'.store.inflight <==> f in s.inflight && f.tid != tid
  {
    WithoutMembers(y.store.inflight, tid);
  }
}
