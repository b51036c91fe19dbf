/** The ticket store as a value, and what each operation of the store protocol does to it. */
module QueueStore {
  import opened Classes
  import opened Seqs

  /** Ticket ids are opaque: only their equality matters. */
  type Tid = nat

  datatype TicketState = WAITING | ADMITTED | COMPLETED

  datatype Ticket = Ticket(
    state: TicketState,
    attempt: int,
    cls: AccessClass,
    trueClass: AccessClass,
    joinSeq: int,
    expiresAt: Option<real>
  )

  datatype Waiter = Waiter(score: int, tid: Tid)
  datatype Flight = Flight(exp: real, tid: Tid)

  datatype Counters = Counters(waiting: Tally, completed: Tally, timedOut: Tally)

  datatype Store = Store(
    lastSeq: int,
    tickets: map<Tid, Ticket>,
    waiting: seq<Waiter>,
    inflight: seq<Flight>,
    counters: Counters
  )

  const EMPTY_STORE := Store(0, map[], [], [], Counters(ZERO_TALLY, ZERO_TALLY, ZERO_TALLY))

  const WAITER_KEY: Waiter -> real := (w: Waiter) => w.score as real
  const FLIGHT_KEY: Flight -> real := (f: Flight) => f.exp

  /** Every queued id has a record: the lookups of the store never fail. */
  ghost predicate Known(s: Store) {
    forall i :: 0 <= i < |s.waiting| ==> s.waiting[i].tid in s.tickets
  }

  function NextSeq(s: Store): Store {
    s.(lastSeq := s.lastSeq + 1)
  }

  function CreateTicket(s: Store, tid: Tid, score: int, trueClass: AccessClass, cls: AccessClass,
                        attempt: int, expiresAt: Option<real>): Store {
    s.(tickets := s.tickets[tid := Ticket(WAITING, attempt, cls, trueClass, score, expiresAt)],
       waiting := SortBy(WAITER_KEY, s.waiting + [Waiter(score, tid)]),
       counters := s.counters.(waiting := s.counters.waiting.Add(trueClass, 1)))
  }

  function GetTicket(s: Store, tid: Tid): Option<Ticket> {
    if tid in s.tickets then Some(s.tickets[tid]) else None
  }

  // ---- admission ----

  function Head(q: seq<Waiter>, n: int): seq<Waiter> {
    q[..if n <= 0 then 0 else if n <= |q| then n else |q|]
  }

  function Tail(q: seq<Waiter>, n: int): seq<Waiter> {
    q[|Head(q, n)|..]
  }

  predicate Queued(q: seq<Waiter>, tid: Tid) {
    exists i :: 0 <= i < |q| && q[i].tid == tid
  }

  function Admit(t: Ticket, now: real, windows: AccessClass -> real): Ticket {
    t.(state := ADMITTED, expiresAt := Some(now + windows(t.cls)))
  }

  function AdmitAll(tickets: map<Tid, Ticket>, q: seq<Waiter>, now: real, windows: AccessClass -> real): map<Tid, Ticket> {
    map t | t in tickets :: if Queued(q, t) then Admit(tickets[t], now, windows) else tickets[t]
  }

  /** One in-flight entry per admitted ticket, expiring one window of its class from now. */
  function Grants(tickets: map<Tid, Ticket>, q: seq<Waiter>, now: real, windows: AccessClass -> real): seq<Flight>
    requires forall i :: 0 <= i < |q| ==> q[i].tid in tickets
  {
    seq(|q|, i requires 0 <= i < |q| => Flight(now + windows(tickets[q[i].tid].cls), q[i].tid))
  }

  /** Does the queue entry belong to true class `c`? */
  predicate HasTrueClass(tickets: map<Tid, Ticket>, w: Waiter, c: AccessClass) {
    w.tid in tickets && tickets[w.tid].trueClass == c
  }

  function ClassCount(tickets: map<Tid, Ticket>, q: seq<Waiter>, c: AccessClass): nat {
    CountIf(q, w => HasTrueClass(tickets, w, c))
  }

  function Subtract(t: Tally, tickets: map<Tid, Ticket>, q: seq<Waiter>): Tally {
    Tally(t.high - ClassCount(tickets, q, HIGH),
          t.medium - ClassCount(tickets, q, MEDIUM),
          t.low - ClassCount(tickets, q, LOW))
  }

  function AdmitN(s: Store, n: int, now: real, windows: AccessClass -> real): Store
    requires Known(s)
  {
    var q := Head(s.waiting, n);
    s.(tickets := AdmitAll(s.tickets, q, now, windows),
       waiting := Tail(s.waiting, n),
       inflight := SortBy(FLIGHT_KEY, s.inflight + Grants(s.tickets, q, now, windows)),
       counters := s.counters.(waiting := Subtract(s.counters.waiting, s.tickets, q)))
  }

  /** What admitting returns: the granted ids with their expiries, in queue order. */
  function AdmittedBy(s: Store, n: int, now: real, windows: AccessClass -> real): seq<Flight>
    requires Known(s)
  {
    Grants(s.tickets, Head(s.waiting, n), now, windows)
  }

  // ---- re-queue, completion, expiry ----

  function Without(fs: seq<Flight>, tid: Tid): seq<Flight> {
    if fs == [] then [] else
    Without(fs[..|fs|-1], tid) + (if fs[|fs|-1].tid == tid then [] else [fs[|fs|-1]])
  }

  function GetOr<T>(o: Option<T>, default: T): T {
    match o case None => default case Some(v) => v
  }

  function Reinsert(s: Store, tid: Tid, score: int, newClass: Option<AccessClass>, attempt: Option<int>): Store
    requires tid in s.tickets
  {
    var t := s.tickets[tid];
    s.(tickets := s.tickets[tid := t.(state := WAITING, cls := GetOr(newClass, t.cls), attempt := GetOr(attempt, t.attempt))],
       waiting := SortBy(WAITER_KEY, s.waiting + [Waiter(score, tid)]),
       inflight := Without(s.inflight, tid),
       counters := s.counters.(waiting := s.counters.waiting.Add(t.trueClass, 1),
                               timedOut := s.counters.timedOut.Add(t.trueClass, 1)))
  }

  function UpdateClass(s: Store, tid: Tid, newClass: AccessClass): Store {
    if tid !in s.tickets then s else
    s.(tickets := s.tickets[tid := s.tickets[tid].(cls := newClass)])
  }

  /** The index of the first entry of `tid`, and 0 when there is none. */
  function Position(s: Store, tid: Tid): nat {
    PositionIn(s.waiting, tid)
  }

  function PositionIn(q: seq<Waiter>, tid: Tid): (r: nat)
    ensures Queued(q, tid) ==> r < |q| && q[r].tid == tid && forall i :: 0 <= i < r ==> q[i].tid != tid
    ensures !Queued(q, tid) ==> r == 0
  {
    if !Queued(q, tid) || q[0].tid == tid then 0 else
    assert exists i :: 0 <= i < |q[1..]| && q[1..][i].tid == tid by {
      var i :| 0 <= i < |q| && q[i].tid == tid;
      assert q[1..][i-1].tid == tid;
    }
    1 + PositionIn(q[1..], tid)
  }

  function Expired(fs: seq<Flight>, now: real): seq<Tid> {
    if fs == [] then [] else
    Expired(fs[..|fs|-1], now) + (if fs[|fs|-1].exp <= now then [fs[|fs|-1].tid] else [])
  }

  function Kept(fs: seq<Flight>, now: real): seq<Flight> {
    if fs == [] then [] else
    Kept(fs[..|fs|-1], now) + (if fs[|fs|-1].exp <= now then [] else [fs[|fs|-1]])
  }

  function ExpireInflight(s: Store, now: real): Store {
    s.(inflight := Kept(s.inflight, now))
  }

  function Complete(s: Store, tid: Tid, state: TicketState): Store {
    var s' := s.(inflight := Without(s.inflight, tid));
    if tid !in s.tickets then s' else
    var t := s.tickets[tid];
    s'.(tickets := s.tickets[tid := t.(state := state)],
        counters := if state == COMPLETED
                    then s.counters.(completed := s.counters.completed.Add(t.trueClass, 1))
                    else s.counters)
  }
}
