/** The event log read back: one ticket's lines, in order, as an automaton. */
module EventReplay {
  import opened Classes
  import opened Seqs
  import opened QueueStore
  import opened Admission

  /** What the log so far says about one ticket. `Lapsed` is inside a timeout, between its
      TIMEOUT line and its REQUEUE line; `Garbled` is an order the service must not write. */
  datatype View =
    | Unborn
    | Waits(attempt: int, cls: AccessClass, trueClass: AccessClass)
    | Serves(attempt: int, cls: AccessClass, trueClass: AccessClass)
    | Lapsed(attempt: int, cls: AccessClass, trueClass: AccessClass, downgraded: bool)
    | Finished(attempt: int, cls: AccessClass, trueClass: AccessClass)
    | Garbled

  /** The line repeats the attempt and the class that the view has reached. */
  predicate Echoes(v: View, e: Event)
    requires e.TicketEvent? && (v.Waits? || v.Serves? || v.Lapsed?)
  {
    e.attempt == v.attempt && e.cls == v.cls && e.trueClass == v.trueClass
  }

  function Advance(v: View, e: Event): View
    requires e.TicketEvent?
  {
    match e.kind
    case JOIN =>
      if v.Unborn? && e.attempt == 1 then Waits(1, e.cls, e.trueClass) else Garbled
    case ESTIMATE =>
      if v.Waits? && v.attempt == 1 && e.attempt == 1 && e.trueClass == v.trueClass then Waits(1, e.cls, v.trueClass) else Garbled
    case ADMIT =>
      if v.Waits? && Echoes(v, e) then Serves(v.attempt, v.cls, v.trueClass) else Garbled
    case COMPLETE =>
      if v.Serves? && Echoes(v, e) then Finished(v.attempt, v.cls, v.trueClass) else Garbled
    case TIMEOUT =>
      if v.Serves? && Echoes(v, e) then Lapsed(v.attempt, v.cls, v.trueClass, false) else Garbled
    case DOWNGRADE =>
      if v.Lapsed? && !v.downgraded && e.attempt == v.attempt && e.trueClass == v.trueClass && v.cls.Rank() < e.cls.Rank()
      then Lapsed(v.attempt, e.cls, v.trueClass, true) else Garbled
    case REQUEUE =>
      if v.Lapsed? && e.attempt == v.attempt + 1 && e.cls == v.cls && e.trueClass == v.trueClass
      then Waits(v.attempt + 1, v.cls, v.trueClass) else Garbled
  }

  predicate About(e: Event, tid: Tid) {
    e.TicketEvent? && e.tid == tid
  }

  /** The fold of a log over the lines of one ticket. */
  function Replay(log: seq<Event>, tid: Tid): View {
    if log == [] then Unborn else
    var v, e := Replay(log[..|log|-1], tid), log[|log|-1];
    if About(e, tid) then Advance(v, e) else v
  }

  /** The kinds of one ticket's lines. */
  function Kinds(log: seq<Event>, tid: Tid): seq<Kind> {
    if log == [] then [] else
    var e := log[|log|-1];
    Kinds(log[..|log|-1], tid) + (if About(e, tid) then [e.kind] else [])
  }

  function Count(log: seq<Event>, tid: Tid, kind: Kind): nat {
    CountIf(log, e => About(e, tid) && e.kind == kind)
  }

  lemma ReplayAppend(log: seq<Event>, e: Event, tid: Tid)
    ensures Replay(log + [e], tid) == if About(e, tid) then Advance(Replay(log, tid), e) else Replay(log, tid)
  {
    assert (log + [e])[..|log + [e]|-1] == log;
  }

  lemma {:induction false} ReplayElsewhere(log: seq<Event>, es: seq<Event>, tid: Tid)
    requires forall i :: 0 <= i < |es| ==> !About(es[i], tid)
    ensures Replay(log + es, tid) == Replay(log, tid)
  {
    if es == [] {
      assert log + es == log;
    } else {
      ReplayElsewhere(log, es[..|es|-1], tid);
      ReplayAppend(log + es[..|es|-1], es[|es|-1], tid);
      assert log + es == log + es[..|es|-1] + [es[|es|-1]];
    }
  }

  /** Nothing recovers from a garbled history. */
  lemma {:induction false} GarbledStays(log: seq<Event>, es: seq<Event>, tid: Tid)
    requires Replay(log, tid).Garbled?
    ensures Replay(log + es, tid).Garbled?
  {
    if es == [] {
      assert log + es == log;
    } else {
      GarbledStays(log, es[..|es|-1], tid);
      ReplayAppend(log + es[..|es|-1], es[|es|-1], tid);
      assert log + es == log + es[..|es|-1] + [es[|es|-1]];
    }
  }

  /** What the record of a ticket says, in the log's terms. */
  function ViewOf(s: Store, tid: Tid): View {
    if tid !in s.tickets then Unborn else
    var t := s.tickets[tid];
    match t.state
    case WAITING => Waits(t.attempt, t.cls, t.trueClass)
    case ADMITTED => Serves(t.attempt, t.cls, t.trueClass)
    case COMPLETED => Finished(t.attempt, t.cls, t.trueClass)
  }

  // ---- what any well-formed history says (I2, I6) ----

  /** One ticket's attempt number is one more than its timeouts, a class change costs a DOWNGRADE,
      and two timeouts end in LOW. */
  ghost predicate Tallied(v: View, timeouts: nat, downgrades: nat) {
    match v
    case Unborn => timeouts == 0 && downgrades == 0
    case Garbled => true
    case Lapsed(attempt, cls, _, downgraded) =>
      && attempt == timeouts && 1 <= timeouts
      && downgrades <= cls.Rank()
      && (timeouts == 1 ==> downgrades == if downgraded then 1 else 0)
    case _ =>
      && v.attempt == 1 + timeouts
      && downgrades <= v.cls.Rank()
      && (timeouts == 0 ==> downgrades == 0)
  }

  lemma {:induction false} HistoryTallied(log: seq<Event>, tid: Tid)
    ensures Tallied(Replay(log, tid), Count(log, tid, TIMEOUT), Count(log, tid, DOWNGRADE))
  {
    if log != [] {
      HistoryTallied(log[..|log|-1], tid);
    }
  }

  /** At most two DOWNGRADE lines ever appear for one ticket. */
  lemma AtMostTwoDowngrades(log: seq<Event>, tid: Tid)
    requires !Replay(log, tid).Garbled?
    ensures Count(log, tid, DOWNGRADE) <= 2
  {
    HistoryTallied(log, tid);
  }

  /** Every attempt that started has an ADMIT line, and every one but the last a TIMEOUT line. */
  ghost predicate Admitted(v: View, admits: nat, timeouts: nat) {
    match v
    case Garbled => true
    case Serves(_, _, _) => admits == timeouts + 1
    case Finished(_, _, _) => admits == timeouts + 1
    case _ => admits == timeouts
  }

  lemma {:induction false} HistoryAdmitted(log: seq<Event>, tid: Tid)
    ensures Admitted(Replay(log, tid), Count(log, tid, ADMIT), Count(log, tid, TIMEOUT))
  {
    if log != [] {
      HistoryAdmitted(log[..|log|-1], tid);
    }
  }

  // ---- the shape of a history ----

  function Repeat(k: Kind, n: nat): seq<Kind> {
    seq(n, _ => k)
  }

  /** One failed attempt; `d` says whether it lowered the class. */
  function Cycle(d: bool): seq<Kind> {
    if d then [ADMIT, TIMEOUT, DOWNGRADE, REQUEUE] else [ADMIT, TIMEOUT, REQUEUE]
  }

  function Cycles(ds: seq<bool>): seq<Kind> {
    if ds == [] then [] else Cycles(ds[..|ds|-1]) + Cycle(ds[|ds|-1])
  }

  /** JOIN ESTIMATE^n, then the failed attempts `ds`, then `rest`. */
  function History(n: nat, ds: seq<bool>, rest: seq<Kind>): seq<Kind> {
    [JOIN] + Repeat(ESTIMATE, n) + Cycles(ds) + rest
  }

  /** The unfinished end of a history in view `v`. */
  function Rest(v: View): seq<Kind> {
    match v
    case Serves(_, _, _) => [ADMIT]
    case Finished(_, _, _) => [ADMIT, COMPLETE]
    case Lapsed(_, _, _, d) => if d then [ADMIT, TIMEOUT, DOWNGRADE] else [ADMIT, TIMEOUT]
    case _ => []
  }

  ghost predicate Shaped(kinds: seq<Kind>, v: View) {
    match v
    case Unborn => kinds == []
    case Garbled => true
    case _ => exists n: nat, ds: seq<bool> :: kinds == History(n, ds, Rest(v)) && FailedSoFar(v, ds)
  }

  ghost predicate FailedSoFar(v: View, ds: seq<bool>)
    requires !v.Unborn? && !v.Garbled?
  {
    v.attempt == 1 + |ds|
  }

  lemma HistoryExtends(n: nat, ds: seq<bool>, rest: seq<Kind>, k: Kind)
    ensures History(n, ds, rest) + [k] == History(n, ds, rest + [k])
  {
    assert [JOIN] + Repeat(ESTIMATE, n) + Cycles(ds) + rest + [k] == [JOIN] + Repeat(ESTIMATE, n) + Cycles(ds) + (rest + [k]);
  }

  lemma HistoryEstimate(n: nat)
    ensures History(n, [], []) + [ESTIMATE] == History(n + 1, [], [])
  {
    assert Repeat(ESTIMATE, n + 1) == Repeat(ESTIMATE, n) + [ESTIMATE];
  }

  lemma HistoryRequeue(n: nat, ds: seq<bool>, d: bool, rest: seq<Kind>)
    requires rest + [REQUEUE] == Cycle(d)
    ensures History(n, ds, rest) + [REQUEUE] == History(n, ds + [d], [])
  {
    assert (ds + [d])[..|ds + [d]|-1] == ds;
    assert Cycles(ds + [d]) == Cycles(ds) + Cycle(d);
    HistoryExtends(n, ds, rest, REQUEUE);
    assert [JOIN] + Repeat(ESTIMATE, n) + Cycles(ds) + Cycle(d) == [JOIN] + Repeat(ESTIMATE, n) + (Cycles(ds) + Cycle(d)) + [];
  }

  lemma ShapeJoin(kinds: seq<Kind>, v: View, e: Event)
    requires e.TicketEvent? && e.kind == JOIN && Shaped(kinds, v) && !Advance(v, e).Garbled?
    ensures Shaped(kinds + [e.kind], Advance(v, e))
  {
    var v' := Advance(v, e);
    assert kinds + [e.kind] == History(0, [], Rest(v')) && FailedSoFar(v', []);
  }

  lemma ShapeEstimate(kinds: seq<Kind>, v: View, e: Event)
    requires e.TicketEvent? && e.kind == ESTIMATE && Shaped(kinds, v) && !Advance(v, e).Garbled?
    ensures Shaped(kinds + [e.kind], Advance(v, e))
  {
    var v' := Advance(v, e);
    var n: nat, ds: seq<bool> :| kinds == History(n, ds, Rest(v)) && FailedSoFar(v, ds);
    HistoryEstimate(n);
    assert ds == [];
    assert kinds + [e.kind] == History(n + 1, [], Rest(v')) && FailedSoFar(v', []);
  }

  lemma ShapeRequeue(kinds: seq<Kind>, v: View, e: Event)
    requires e.TicketEvent? && e.kind == REQUEUE && Shaped(kinds, v) && !Advance(v, e).Garbled?
    ensures Shaped(kinds + [e.kind], Advance(v, e))
  {
    var v' := Advance(v, e);
    var n: nat, ds: seq<bool> :| kinds == History(n, ds, Rest(v)) && FailedSoFar(v, ds);
    HistoryRequeue(n, ds, v.downgraded, Rest(v));
    assert kinds + [e.kind] == History(n, ds + [v.downgraded], Rest(v')) && FailedSoFar(v', ds + [v.downgraded]);
  }

  lemma ShapeStep(kinds: seq<Kind>, v: View, e: Event)
    requires e.TicketEvent? && Shaped(kinds, v) && !Advance(v, e).Garbled?
    ensures Shaped(kinds + [e.kind], Advance(v, e))
  {
    if e.kind == JOIN {
      ShapeJoin(kinds, v, e);
    } else if e.kind == ESTIMATE {
      ShapeEstimate(kinds, v, e);
    } else if e.kind == REQUEUE {
      ShapeRequeue(kinds, v, e);
    } else {
      var v' := Advance(v, e);
      var n: nat, ds: seq<bool> :| kinds == History(n, ds, Rest(v)) && FailedSoFar(v, ds);
      HistoryExtends(n, ds, Rest(v), e.kind);
      assert kinds + [e.kind] == History(n, ds, Rest(v')) && FailedSoFar(v', ds);
    }
  }

  /** I6: the lines of a ticket read JOIN, ESTIMATEs, failed attempts, and an attempt in progress or done;
      no ESTIMATE follows an ADMIT. */
  lemma {:induction false} HistoryShaped(log: seq<Event>, tid: Tid)
    ensures Shaped(Kinds(log, tid), Replay(log, tid))
  {
    if log != [] {
      var init, e := log[..|log|-1], log[|log|-1];
      HistoryShaped(init, tid);
      if About(e, tid) && !Replay(log, tid).Garbled? {
        ShapeStep(Kinds(init, tid), Replay(init, tid), e);
      } else {
        assert Kinds(init, tid) + [] == Kinds(init, tid);
      }
    }
  }
}
