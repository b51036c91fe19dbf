/** The admission service as a state machine: the ticket store, the event log, the controller
    and how far the current control tick has come. Every step is total and does what the
    corresponding handler does, also on calls that arrive too late. */
module Admission {
  import Seqs
  import opened Numbers
  import opened Classes
  import opened Window
  import opened QueueStore

  datatype Kind = JOIN | ESTIMATE | ADMIT | COMPLETE | TIMEOUT | DOWNGRADE | REQUEUE

  datatype Event =
    | TicketEvent(kind: Kind, tid: Tid, cls: AccessClass, trueClass: AccessClass, attempt: int)
    | Control(alpha: real, muHat: real, inFlight: int, cMax: int)

  /** What a tick has read: its time, the in-flight count, the cap and the number to admit. */
  datatype Reading = Reading(now: real, inFlight: int, cMax: int, n: int)

  /** Between two awaits of a tick the other handlers run. */
  datatype Phase =
    | Idle
    | Counted(r: Reading)
    | Granted(r: Reading)
    | Sweeping(r: Reading, todo: seq<Tid>)

  /** `lastTick` and `peak`, the time of the latest tick and the largest cap so far,
      are history that no step reads. */
  datatype System = System(
    store: Store,
    log: seq<Event>,
    alpha: real,
    muHat: real,
    completions: nat,
    phase: Phase,
    lastTick: real,
    peak: int
  )

  datatype Health = Unreachable | Sample(p99: real, errRate: real)

  datatype Token = NoToken | TokenFor(tid: Tid) | BadToken

  datatype Step =
    | Join(tid: Tid, trueClass: AccessClass, now: real)
    | Estimate(tid: Tid, cls: AccessClass)
    | Report(tid: Tid, ok: bool, token: Token)
    | TickCount(now: real, health: Health)
    | TickAdmit
    | TickSweep
    | TickRequeue
    | TickEnd

  const MU_HAT_HORIZON := 60.0
  const MIN_C_MAX_ORIGIN_FRACTION := 4
  const NONE_MODE_WINDOW := 3600.0
  const NONE_WINDOWS: AccessClass -> real := (_: AccessClass) => NONE_MODE_WINDOW

  function Initial(cfg: RunConfig): System {
    System(EMPTY_STORE, [], cfg.admission.alphaMin, 0.0, 0, Idle, 0.0, 0)
  }

  function Log(kind: Kind, tid: Tid, t: Ticket): Event {
    TicketEvent(kind, tid, t.cls, t.trueClass, t.attempt)
  }

  // ---- handlers ----

  /** What joining makes of a store: the next number, and a ticket that waits under it. */
  function Joined(s: Store, tid: Tid, trueClass: AccessClass, cls: AccessClass, expiresAt: Option<real>): (r: Store)
    ensures Known(s) ==> Known(r)
  {
    KnownInsert(s, Waiter(s.lastSeq + 1, tid));
    CreateTicket(NextSeq(s), tid, s.lastSeq + 1, trueClass, cls, 1, expiresAt)
  }

  function DoJoin(cfg: RunConfig, y: System, tid: Tid, trueClass: AccessClass, now: real): (r: System)
    requires Known(y.store)
    ensures Known(r.store)
  {
    if cfg.mode == NoneMode then
      var s1 := Joined(y.store, tid, trueClass, HIGH, Some(now + NONE_MODE_WINDOW));
      y.(store := AdmitN(s1, 1, now, NONE_WINDOWS),
         log := y.log + [TicketEvent(JOIN, tid, HIGH, trueClass, 1), TicketEvent(ADMIT, tid, HIGH, trueClass, 1)])
    else
      y.(store := Joined(y.store, tid, trueClass, MEDIUM, None),
         log := y.log + [TicketEvent(JOIN, tid, MEDIUM, trueClass, 1)])
  }

  predicate EstimateAccepted(s: Store, tid: Tid) {
    tid in s.tickets && s.tickets[tid].state == WAITING && s.tickets[tid].attempt <= 1
  }

  function DoEstimate(y: System, tid: Tid, cls: AccessClass): System {
    if !EstimateAccepted(y.store, tid) then y else
    var t := y.store.tickets[tid];
    y.(store := UpdateClass(y.store, tid, cls),
       log := y.log + [TicketEvent(ESTIMATE, tid, cls, t.trueClass, t.attempt)])
  }

  /** The class of the next attempt. */
  function NextClass(cfg: RunConfig, t: Ticket): AccessClass {
    if cfg.admission.maxAttempts <= t.attempt then LOW else Downgrade(t.cls)
  }

  function TimeoutEvents(cfg: RunConfig, tid: Tid, t: Ticket): seq<Event> {
    var c := NextClass(cfg, t);
    [Log(TIMEOUT, tid, t)]
    + (if c != t.cls then [TicketEvent(DOWNGRADE, tid, c, t.trueClass, t.attempt)] else [])
    + [TicketEvent(REQUEUE, tid, c, t.trueClass, t.attempt + 1)]
  }

  /** C4. Only `aaac` keeps the join number as the score; the other modes take a new one. */
  function DoTimeout(cfg: RunConfig, y: System, tid: Tid): (r: System)
    requires Known(y.store)
    ensures Known(r.store)
  {
    if tid !in y.store.tickets then y else
    var t := y.store.tickets[tid];
    var s1 := if cfg.mode != Aaac then NextSeq(y.store) else y.store;
    var score := if cfg.mode != Aaac then s1.lastSeq else t.joinSeq;
    KnownAfterReinsert(s1, tid, score, Some(NextClass(cfg, t)), Some(t.attempt + 1));
    y.(store := Reinsert(s1, tid, score, Some(NextClass(cfg, t)), Some(t.attempt + 1)),
       log := y.log + TimeoutEvents(cfg, tid, t))
  }

  predicate ReportAccepted(s: Store, tid: Tid, ok: bool, token: Token) {
    && tid in s.tickets
    && token != BadToken
    && (token.TokenFor? ==> token.tid == tid)
    && (ok ==> token != NoToken)
  }

  function DoReport(cfg: RunConfig, y: System, tid: Tid, ok: bool, token: Token): (r: System)
    requires Known(y.store)
    ensures Known(r.store)
  {
    if !ReportAccepted(y.store, tid, ok, token) then y
    else if ok then
      y.(store := Complete(y.store, tid, COMPLETED),
         log := y.log + [Log(COMPLETE, tid, y.store.tickets[tid])],
         completions := y.completions + 1)
    else DoTimeout(cfg, y, tid)
  }

  // ---- the control tick ----

  function NextMuHat(cfg: RunConfig, muHat: real, completions: nat): real
    requires 0.0 < cfg.admission.controlTick
  {
    var rate := completions as real / cfg.admission.controlTick;
    var a := Min(1.0, cfg.admission.controlTick / MU_HAT_HORIZON);
    a * rate + (1.0 - a) * muHat
  }

  predicate Healthy(cfg: RunConfig, h: Health) {
    h.Sample? && h.p99 < cfg.admission.targetOriginP95 && h.errRate < cfg.admission.targetOriginErrRate
  }

  /** Multiplicative decrease. */
  function Cut(alpha: real, d: real): real { alpha * d }

  function NextAlpha(cfg: RunConfig, alpha: real, h: Health): real {
    var a := if Healthy(cfg, h) then alpha + cfg.admission.alphaIncrease else Cut(alpha, cfg.admission.alphaDecrease);
    Max(cfg.admission.alphaMin, Min(a, cfg.admission.alphaMax))
  }

  function Mix(cfg: RunConfig, c: AccessClass, default: real): real {
    if c in cfg.classMix then cfg.classMix[c] else default
  }

  function WaitingMix(cfg: RunConfig, total: nat): Tally {
    Tally(Portion(total, Mix(cfg, HIGH, 0.33)), Portion(total, Mix(cfg, MEDIUM, 0.33)), Portion(total, Mix(cfg, LOW, 0.34)))
  }

  function Portion(total: nat, share: real): int { Trunc(Mul(total as real, share)) }

  function MinCMax(cfg: RunConfig): int {
    var share := cfg.concurrencyLimit / MIN_C_MAX_ORIGIN_FRACTION;
    if share < 1 then 1 else share
  }

  function CMax(cfg: RunConfig, muHat: real, waiting: nat): int {
    CapFor(muHat, WeightedMeanWindow(WaitingMix(cfg, waiting), cfg.admission, cfg.mode), MinCMax(cfg))
  }

  /** What the estimated rate fills in the mean window, but at least the floor. */
  function CapFor(muHat: real, meanWindow: real, floor: int): int {
    MaxInt(Ceil(muHat * meanWindow), floor)
  }

  function Quota(cfg: RunConfig, alpha: real, cMax: int, waiting: nat, inFlight: nat): int {
    MinInt(MinInt(Trunc(Tokens(cfg, alpha)), MaxInt(0, cMax - inFlight)), waiting)
  }

  /** What the rate grants in one tick. */
  function Tokens(cfg: RunConfig, alpha: real): real { alpha * cfg.admission.controlTick }

  function DoCount(cfg: RunConfig, y: System, now: real, h: Health): System
    requires 0.0 < cfg.admission.controlTick
  {
    if y.phase != Idle then y else
    var muHat := NextMuHat(cfg, y.muHat, y.completions);
    var alpha := NextAlpha(cfg, y.alpha, h);
    var waiting, inFlight := |y.store.waiting|, |y.store.inflight|;
    var cMax := CMax(cfg, muHat, waiting);
    y.(alpha := alpha, muHat := muHat, completions := 0,
       phase := Counted(Reading(now, inFlight, cMax, Quota(cfg, alpha, cMax, waiting, inFlight))),
       lastTick := now,
       peak := MaxInt(y.peak, cMax))
  }

  /** One ADMIT line per granted ticket, in the order in which they were admitted. */
  function AdmitEvents(tickets: map<Tid, Ticket>, granted: seq<Flight>): seq<Event> {
    if granted == [] then [] else
    var last := granted[|granted|-1].tid;
    AdmitEvents(tickets, granted[..|granted|-1])
    + (if last in tickets then [Log(ADMIT, last, tickets[last])] else [])
  }

  function DoAdmit(cfg: RunConfig, y: System): (r: System)
    requires Known(y.store)
    ensures Known(r.store)
  {
    if !y.phase.Counted? then y else
    var r := y.phase.r;
    if r.n <= 0 then y.(phase := Granted(r)) else
    var windows := WindowsForAll(cfg.admission, cfg.mode);
    var s' := AdmitN(y.store, r.n, r.now, windows);
    y.(store := s',
       log := y.log + AdmitEvents(s'.tickets, AdmittedBy(y.store, r.n, r.now, windows)),
       phase := Granted(r))
  }

  function DoSweep(y: System): System {
    if !y.phase.Granted? then y else
    y.(store := ExpireInflight(y.store, y.phase.r.now),
       phase := Sweeping(y.phase.r, Expired(y.store.inflight, y.phase.r.now)))
  }

  function DoRequeue(cfg: RunConfig, y: System): (r: System)
    requires Known(y.store)
    ensures Known(r.store)
  {
    if !y.phase.Sweeping? || y.phase.todo == [] then y else
    DoTimeout(cfg, y.(phase := y.phase.(todo := y.phase.todo[1..])), y.phase.todo[0])
  }

  function DoEnd(y: System): System {
    if !y.phase.Sweeping? || y.phase.todo != [] then y else
    y.(phase := Idle, log := y.log + [Control(y.alpha, y.muHat, y.phase.r.inFlight, y.phase.r.cMax)])
  }

  function Next(cfg: RunConfig, y: System, step: Step): (r: System)
    requires Known(y.store) && 0.0 < cfg.admission.controlTick
    ensures Known(r.store)
  {
    match step
    case Join(tid, trueClass, now) => DoJoin(cfg, y, tid, trueClass, now)
    case Estimate(tid, cls) => DoEstimate(y, tid, cls)
    case Report(tid, ok, token) => DoReport(cfg, y, tid, ok, token)
    case TickCount(now, health) => DoCount(cfg, y, now, health)
    case TickAdmit => DoAdmit(cfg, y)
    case TickSweep => DoSweep(y)
    case TickRequeue => DoRequeue(cfg, y)
    case TickEnd => DoEnd(y)
  }

  /** The state after a sequence of steps. */
  function Run(cfg: RunConfig, y: System, steps: seq<Step>): (r: System)
    requires Known(y.store) && 0.0 < cfg.admission.controlTick
    ensures Known(r.store)
    decreases |steps|
  {
    if steps == [] then y else Run(cfg, Next(cfg, y, steps[0]), steps[1..])
  }

  lemma KnownAfterReinsert(s: Store, tid: Tid, score: int, c: Option<AccessClass>, attempt: Option<int>)
    requires Known(s) && tid in s.tickets
    ensures Known(Reinsert(s, tid, score, c, attempt))
  {
    KnownInsert(s, Waiter(score, tid));
  }

  lemma KnownInsert(s: Store, w: Waiter)
    ensures Known(s) ==> forall x :: x in Seqs.SortBy(WAITER_KEY, s.waiting + [w]) ==> x.tid in s.tickets || x.tid == w.tid
  {
    Seqs.SortByMembers(WAITER_KEY, s.waiting + [w]);
  }
}
