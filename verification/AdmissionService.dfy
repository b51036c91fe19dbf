/** The service itself: the re-queue policy, the control tick and the API handlers, acting in place on the
    store, the log and the controller's fields. */
module AdmissionService {
  import opened Numbers
  import opened Classes
  import opened Window
  import opened QueueStore
  import opened InMemoryStore
  import opened Admission
  import opened Invariants
  import opened Downgrades
  import opened Fairness
  import opened Tick

  /** The log as its readers see it: the accepted lines in order. */
  class Logger {
    var lines: seq<Event>

    constructor ()
      ensures lines == []
    {
      lines := [];
    }

    method Write(e: Event)
      modifies this
      ensures lines == old(lines) + [e]
    {
      lines := lines + [e];
    }
  }

  /** The re-queue policy (C4). */
  method HandleTimeout(tid: Tid, store: InMemoryQueueStore, logger: Logger, cfg: RunConfig)
    requires Known(store.Contents())
    modifies store, logger
    ensures tid !in old(store.tickets) ==> store.Contents() == old(store.Contents()) && logger.lines == old(logger.lines)
    ensures tid in old(store.tickets) ==>
              && store.Contents() == Requeued(cfg, old(store.Contents()), tid)
              && logger.lines == old(logger.lines) + TimeoutEvents(cfg, tid, old(store.tickets[tid]))
              && PutBackWorse(cfg, old(store.Contents()), store.Contents(), tid)
    ensures Known(store.Contents())
  {
    KnownRequeued(cfg, store.Contents(), tid);
    if tid in store.tickets {
      RequeuedWorse(cfg, store.Contents(), tid);
    }
    var found := store.GetTicket(tid);
    if found.None? {
      return;
    }
    var ticket := found.value;
    logger.Write(TicketEvent(TIMEOUT, tid, ticket.cls, ticket.trueClass, ticket.attempt));
    var newAttempt := ticket.attempt + 1;
    var newClass := ticket.cls;
    var score := ticket.joinSeq;
    if cfg.admission.maxAttempts <= ticket.attempt {
      newClass := LOW;
    } else {
      newClass := Downgrade(ticket.cls);
    }
    if cfg.mode != Aaac {
      score := store.NextSeq();
    }
    if newClass != ticket.cls {
      logger.Write(TicketEvent(DOWNGRADE, tid, newClass, ticket.trueClass, ticket.attempt));
    }
    store.Reinsert(tid, score, Some(newClass), Some(newAttempt));
    logger.Write(TicketEvent(REQUEUE, tid, newClass, ticket.trueClass, newAttempt));
  }

  lemma KnownRequeued(cfg: RunConfig, s: Store, tid: Tid)
    requires Known(s)
    ensures tid in s.tickets ==> Known(Requeued(cfg, s, tid))
  {
    if tid in s.tickets {
      var s1 := if cfg.mode != Aaac then NextSeq(s) else s;
      var t := s.tickets[tid];
      KnownAfterReinsert(s1, tid, RequeueScore(cfg, s, tid), Some(NextClass(cfg, t)), Some(t.attempt + 1));
    }
  }

  /** Every ticket of the sweep list put back, in order. */
  ghost function RequeueAll(cfg: RunConfig, y: System): System
    requires Known(y.store)
    decreases |Swept(y)|
  {
    if Swept(y) == [] then y else RequeueAll(cfg, DoRequeue(cfg, y))
  }

  /** A control tick that nothing interrupts. */
  ghost function WholeTick(cfg: RunConfig, y: System, now: real, h: Health): System
    requires Known(y.store) && 0.0 < cfg.admission.controlTick
  {
    DoEnd(RequeueAll(cfg, DoSweep(DoAdmit(cfg, DoCount(cfg, y, now, h)))))
  }

  /** The answer to a join. */
  datatype JoinReply = JoinReply(joinSeq: int, position: nat, etaS: real, pollIntervalMs: int)

  /** The number drawn, where the ticket now stands, and how long that takes at the present rate. */
  function JoinReplyFor(cfg: RunConfig, before: System, after: System, tid: Tid): JoinReply {
    var position := if cfg.mode == NoneMode then 0 else QueueStore.Position(after.store, tid);
    JoinReply(before.store.lastSeq + 1, position, position as real / Max(before.alpha, 1.0), cfg.admission.pollIntervalMs)
  }

  /** In the queueing modes the reply gives the place at the end of the queue, and as waiting time that place over the
      present rate, counting a rate below one as one; in `none` mode nobody waits. */
  lemma ReplyMeans(cfg: RunConfig, y: System, tid: Tid, trueClass: AccessClass, now: real)
    requires Inv(cfg, y) && InTime(cfg, y, Step.Join(tid, trueClass, now))
    ensures var y' := DoJoin(cfg, y, tid, trueClass, now);
            var r := JoinReplyFor(cfg, y, y', tid);
            && tid in y'.store.tickets && r.joinSeq == y'.store.tickets[tid].joinSeq
            && r.position == (if cfg.mode == NoneMode then 0 else |y.store.waiting|)
            && (y.alpha < 1.0 ==> r.etaS == r.position as real)
            && (1.0 <= y.alpha ==> Mul(r.etaS, y.alpha) == r.position as real)
  {
    JoinLeavesOthers(cfg, y, tid, trueClass, now);
    var r := JoinReplyFor(cfg, y, DoJoin(cfg, y, tid, trueClass, now), tid);
    if cfg.mode != NoneMode {
      JoinPosition(cfg, y, tid, trueClass, now);
    }
    Eta(r.position, y.alpha, r.etaS);
  }

  lemma Eta(position: nat, alpha: real, etaS: real)
    requires etaS == position as real / Max(alpha, 1.0)
    ensures (alpha < 1.0 ==> etaS == position as real) && (1.0 <= alpha ==> Mul(etaS, alpha) == position as real)
  {
  }

  /** An uninterrupted tick ends with one CONTROL line, which reports the rate and the estimate that the tick has set,
      the in-flight count that it read, and the cap that it computed. */
  lemma TickReports(cfg: RunConfig, y: System, now: real, h: Health)
    requires Known(y.store) && 0.0 < cfg.admission.controlTick && y.phase == Idle
    ensures var z, y1 := WholeTick(cfg, y, now, h), DoCount(cfg, y, now, h);
            && z.phase == Idle && y1.phase.Counted? && z.log != []
            && z.log[|z.log|-1] == Control(y1.alpha, y1.muHat, |y.store.inflight|, y1.phase.r.cMax)
  {
    CountFields(cfg, y, now, h);
    RequeueAllKeeps(cfg, DoSweep(DoAdmit(cfg, DoCount(cfg, y, now, h))));
  }

  lemma RequeueAllKeeps(cfg: RunConfig, y: System)
    requires Known(y.store) && y.phase.Sweeping?
    ensures var z := RequeueAll(cfg, y);
            z.phase.Sweeping? && z.phase.todo == [] && z.phase.r == y.phase.r && z.alpha == y.alpha && z.muHat == y.muHat
    decreases |Swept(y)|
  {
    if Swept(y) != [] {
      RequeueAllKeeps(cfg, DoRequeue(cfg, y));
    }
  }

  class AdmissionController {
    const cfg: RunConfig
    const store: InMemoryQueueStore
    const logger: Logger
    var completionsThisTick: nat
    var alpha: real
    var muHat: real
    var everCompleted: bool
    ghost var lastTick: real
    ghost var peak: int

    ghost predicate Valid()
      reads this, store
    {
      Known(store.Contents()) && 0.0 < cfg.admission.controlTick
    }

    /** The machine state that these fields hold in phase `phase`. */
    ghost function At(phase: Phase): System
      reads this, store, logger
    {
      System(store.Contents(), logger.lines, alpha, muHat, completionsThisTick, phase, lastTick, peak)
    }

    constructor (cfg: RunConfig)
      requires 0.0 < cfg.admission.controlTick
      ensures Valid() && this.cfg == cfg && At(Idle) == Initial(cfg)
      ensures fresh(store) && fresh(logger)
    {
      this.cfg := cfg;
      store := new InMemoryQueueStore();
      logger := new Logger();
      completionsThisTick, alpha, muHat, everCompleted := 0, cfg.admission.alphaMin, 0.0, false;
      lastTick, peak := 0.0, 0;
    }

    method RecordCompletion()
      modifies this
      ensures completionsThisTick == old(completionsThisTick) + 1 && everCompleted
      ensures alpha == old(alpha) && muHat == old(muHat) && lastTick == old(lastTick) && peak == old(peak)
    {
      completionsThisTick := completionsThisTick + 1;
      everCompleted := true;
    }

    /** Capacity estimate, rate control and the counts: everything up to the admission. */
    method Measure(now: real, health: Health) returns (r: Reading)
      requires Valid()
      modifies this
      ensures Valid() && At(Counted(r)) == DoCount(cfg, old(At(Idle)), now, health)
      ensures Exhausts(r.n, Mul(alpha, cfg.admission.controlTick), r.cMax, |store.waiting|, |store.inflight|)
    {
      ghost var y := At(Idle);
      var adm := cfg.admission;
      var comps := completionsThisTick;
      completionsThisTick := 0;
      var rate := comps as real / adm.controlTick;
      var ewmaAlpha := Min(1.0, adm.controlTick / MU_HAT_HORIZON);
      muHat := ewmaAlpha * rate + (1.0 - ewmaAlpha) * muHat;
      assert muHat == NextMuHat(cfg, y.muHat, y.completions);
      if Healthy(cfg, health) {
        alpha := alpha + adm.alphaIncrease;
      } else {
        alpha := Cut(alpha, adm.alphaDecrease);
      }
      alpha := Max(adm.alphaMin, Min(alpha, adm.alphaMax));
      assert alpha == NextAlpha(cfg, y.alpha, health);
      var totalWaiting := store.WaitingCount();
      var inFlight := store.InflightCount();
      var cMax := CMax(cfg, muHat, totalWaiting);
      QuotaExhausts(cfg, alpha, cMax, totalWaiting, inFlight);
      r := Reading(now, inFlight, cMax, Quota(cfg, alpha, cMax, totalWaiting, inFlight));
      lastTick := now;
      peak := MaxInt(peak, cMax);
    }

    method AdmitTickets(r: Reading)
      requires Valid()
      modifies store, logger
      ensures Valid() && At(Granted(r)) == DoAdmit(cfg, old(At(Counted(r))))
      ensures forall i :: 0 <= i < |old(store.waiting)| && i < r.n ==>
                ServedForWindow(cfg, old(At(Counted(r))), At(Granted(r)), old(store.waiting)[i].tid, r.now)
    {
      ServedForWindows(cfg, At(Counted(r)));
      if 0 < r.n {
        ghost var y := At(Counted(r));
        var admitted := store.AdmitN(r.n, r.now, WindowsForAll(cfg.admission, cfg.mode));
        assert Known(store.Contents()) by { assert Known(DoAdmit(cfg, y).store); }
        LogAdmitted(admitted);
      }
    }

    /** One ADMIT line for each granted ticket that is still known. */
    method LogAdmitted(admitted: seq<Flight>)
      modifies logger
      ensures logger.lines == old(logger.lines) + AdmitEvents(store.tickets, admitted)
    {
      for i := 0 to |admitted|
        invariant logger.lines == old(logger.lines) + AdmitEvents(store.tickets, admitted[..i])
      {
        assert admitted[..i+1][..i] == admitted[..i];
        var found := store.GetTicket(admitted[i].tid);
        if found.Some? {
          var ticket := found.value;
          logger.Write(TicketEvent(ADMIT, admitted[i].tid, ticket.cls, ticket.trueClass, ticket.attempt));
        }
      }
      assert admitted[..|admitted|] == admitted;
    }

    method Sweep(r: Reading)
      requires Valid()
      modifies store, logger
      ensures Valid() && At(Sweeping(r, [])) == RequeueAll(cfg, DoSweep(old(At(Granted(r)))))
    {
      var expired := store.ExpireInflight(r.now);
      RequeueExpired(expired, r);
    }

    method RequeueExpired(expired: seq<Tid>, ghost r: Reading)
      requires Valid()
      modifies store, logger
      ensures Valid() && At(Sweeping(r, [])) == RequeueAll(cfg, old(At(Sweeping(r, expired))))
    {
      ghost var all := RequeueAll(cfg, At(Sweeping(r, expired)));
      assert expired[0..] == expired;
      for i := 0 to |expired|
        invariant Valid()
        invariant RequeueAll(cfg, At(Sweeping(r, expired[i..]))) == all
      {
        assert expired[i..] == [expired[i]] + expired[i+1..];
        RequeueOne(expired[i], r, expired[i+1..]);
      }
      assert expired[|expired|..] == [];
    }

    /** The body of the sweep loop. */
    method RequeueOne(tid: Tid, ghost r: Reading, ghost rest: seq<Tid>)
      requires Valid()
      modifies store, logger
      ensures Valid() && RequeueAll(cfg, At(Sweeping(r, rest))) == RequeueAll(cfg, old(At(Sweeping(r, [tid] + rest))))
    {
      ghost var before := At(Sweeping(r, [tid] + rest));
      assert ([tid] + rest)[1..] == rest;
      HandleTimeout(tid, store, logger, cfg);
      assert At(Sweeping(r, rest)) == DoRequeue(cfg, before);
    }

    /** One control tick, uninterrupted. */
    method Tick(now: real, health: Health)
      requires Valid()
      modifies this, store, logger
      ensures Valid() && At(Idle) == WholeTick(cfg, old(At(Idle)), now, health)
    {
      var r := Measure(now, health);
      AdmitTickets(r);
      Sweep(r);
      logger.Write(Control(alpha, muHat, r.inFlight, r.cMax));
    }

    // ---- API handlers ----

    method QueueJoin(tid: Tid, trueClass: AccessClass, now: real, ghost phase: Phase) returns (reply: JoinReply)
      requires Valid()
      modifies store, logger
      ensures Valid() && At(phase) == DoJoin(cfg, old(At(phase)), tid, trueClass, now)
      ensures reply == JoinReplyFor(cfg, old(At(phase)), At(phase), tid)
    {
      var n := store.NextSeq();
      if cfg.mode == NoneMode {
        JoinNone(tid, trueClass, now, n, phase);
        reply := JoinReply(n, 0, 0.0, cfg.admission.pollIntervalMs);
      } else {
        store.CreateTicket(tid, n, trueClass, MEDIUM, 1, None);
        assert store.Contents() == Joined(old(store.Contents()), tid, trueClass, MEDIUM, None);
        var position := store.Position(tid);
        logger.Write(TicketEvent(JOIN, tid, MEDIUM, trueClass, 1));
        reply := JoinReply(n, position, position as real / Max(alpha, 1.0), cfg.admission.pollIntervalMs);
      }
    }

    /** The admission of everybody, once the number is drawn. */
    method JoinNone(tid: Tid, trueClass: AccessClass, now: real, n: int, ghost phase: Phase)
      requires Valid() && cfg.mode == NoneMode && n == store.lastSeq
      modifies store, logger
      ensures Valid()
      ensures At(phase) == DoJoin(cfg, old(At(phase)).(store := old(store.Contents()).(lastSeq := n - 1)), tid, trueClass, now)
    {
      ghost var s := store.Contents();
      store.CreateTicket(tid, n, trueClass, HIGH, 1, Some(now + NONE_MODE_WINDOW));
      assert store.Contents() == Joined(s.(lastSeq := n - 1), tid, trueClass, HIGH, Some(now + NONE_MODE_WINDOW));
      var _ := store.AdmitN(1, now, NONE_WINDOWS);
      logger.Write(TicketEvent(JOIN, tid, HIGH, trueClass, 1));
      logger.Write(TicketEvent(ADMIT, tid, HIGH, trueClass, 1));
    }

    method QueueEstimate(tid: Tid, cls: AccessClass, ghost phase: Phase) returns (accepted: bool)
      requires Valid()
      modifies store, logger
      ensures Valid() && At(phase) == DoEstimate(old(At(phase)), tid, cls)
      ensures accepted == EstimateAccepted(old(store.Contents()), tid)
    {
      var found := store.GetTicket(tid);
      if found.None? || found.value.state != WAITING || 1 < found.value.attempt {
        return false;
      }
      logger.Write(TicketEvent(ESTIMATE, tid, cls, found.value.trueClass, found.value.attempt));
      store.UpdateClass(tid, cls);
      accepted := true;
    }

    /** A success: the store, the completion count and the log line. */
    method Completed(tid: Tid, t: Ticket, ghost phase: Phase)
      requires Valid() && tid in store.tickets && t == store.tickets[tid]
      modifies this, store, logger
      ensures Valid() && At(phase) == old(At(phase)).(store := QueueStore.Complete(old(store.Contents()), tid, COMPLETED),
                                                      log := old(logger.lines) + [Log(COMPLETE, tid, t)],
                                                      completions := old(completionsThisTick) + 1)
    {
      store.Complete(tid, COMPLETED);
      RecordCompletion();
      logger.Write(TicketEvent(COMPLETE, tid, t.cls, t.trueClass, t.attempt));
    }

    /** The ticket, if the report is accepted. */
    method Accepts(tid: Tid, ok: bool, token: Token) returns (found: Option<Ticket>)
      ensures found.Some? <==> ReportAccepted(store.Contents(), tid, ok, token)
      ensures found.Some? ==> found.value == store.tickets[tid]
    {
      found := store.GetTicket(tid);
      if found.None? {
        return None;
      }
      if token != NoToken {
        if token == BadToken || token.tid != tid {
          return None;
        }
      } else if ok {
        return None;
      }
    }

    method QueueComplete(tid: Tid, ok: bool, token: Token, ghost phase: Phase) returns (accepted: bool)
      requires Valid()
      modifies this, store, logger
      ensures Valid() && At(phase) == DoReport(cfg, old(At(phase)), tid, ok, token)
      ensures accepted == ReportAccepted(old(store.Contents()), tid, ok, token)
    {
      var found := Accepts(tid, ok, token);
      if found.None? {
        return false;
      }
      if ok {
        Completed(tid, found.value, phase);
      } else {
        HandleTimeout(tid, store, logger, cfg);
      }
      accepted := true;
    }
  }

  /** An uninterrupted tick is one of the runs of the step machine. */
  lemma WholeTickIsRun(cfg: RunConfig, y: System, now: real, h: Health) returns (steps: seq<Step>)
    requires Known(y.store) && 0.0 < cfg.admission.controlTick && y.phase == Idle
    ensures Run(cfg, y, steps) == WholeTick(cfg, y, now, h)
  {
    var rest := TickTail(cfg, DoCount(cfg, y, now, h));
    RunCons(cfg, y, TickCount(now, h), rest);
    steps := [TickCount(now, h)] + rest;
  }

  lemma TickTail(cfg: RunConfig, y: System) returns (steps: seq<Step>)
    requires Known(y.store) && 0.0 < cfg.admission.controlTick
    ensures Run(cfg, y, steps) == DoEnd(RequeueAll(cfg, DoSweep(DoAdmit(cfg, y))))
  {
    var y2 := DoAdmit(cfg, y);
    var rest := RequeueRun(cfg, DoSweep(y2));
    RunCons(cfg, y2, TickSweep, rest);
    RunCons(cfg, y, TickAdmit, [TickSweep] + rest);
    steps := [TickAdmit] + ([TickSweep] + rest);
  }

  lemma RunCons(cfg: RunConfig, y: System, step: Step, rest: seq<Step>)
    requires Known(y.store) && 0.0 < cfg.admission.controlTick
    ensures Run(cfg, y, [step] + rest) == Run(cfg, Next(cfg, y, step), rest)
  {
    assert ([step] + rest)[1..] == rest;
  }

  lemma RequeueRun(cfg: RunConfig, y: System) returns (steps: seq<Step>)
    requires Known(y.store) && 0.0 < cfg.admission.controlTick
    ensures Run(cfg, y, steps) == DoEnd(RequeueAll(cfg, y))
    decreases |Swept(y)|
  {
    if Swept(y) == [] {
      steps := [TickEnd];
      assert steps[1..] == [];
    } else {
      var rest := RequeueRun(cfg, DoRequeue(cfg, y));
      steps := [TickRequeue] + rest;
      assert steps[1..] == rest;
    }
  }
}
