/** Reading the event log: one trace per ticket, and the metrics of a group of tickets. */
module Metrics {
  import opened Classes
  import opened Numbers
  import opened Seqs

  type TicketId = nat

  datatype EventType =
    | Join | Estimate | Admit | Complete | Timeout | Requeue | Downgrade | Abandon | OriginSample | Control

  /** One line of the log: fields that may be missing are options. */
  datatype Event = Event(name: EventType, ticket: Option<TicketId>, ts: Option<real>, trueClass: Option<int>,
                         accessClass: Option<int>, bytes: Option<real>, ok: Option<bool>)

  datatype Trace = Trace(
    trueClass: Option<int>,
    estimated: Option<int>,
    joinTs: Option<real>,
    lastCompleteTs: Option<real>,
    completedOk: bool,
    admits: nat,
    timeouts: nat,
    timeoutsWithoutBytes: nat,
    requeues: nat,
    downgrades: nat,
    abandoned: bool,
    bytesSuccess: int,
    bytesTotal: int,
    missingOk: bool,
    nEvents: nat
  )

  const EMPTY_TRACE: Trace := Trace(None, None, None, None, false, 0, 0, 0, 0, 0, false, 0, 0, false, 0)

  // ---- grouping ----

  predicate OfTicket(e: Event) { e.name != OriginSample && e.name != Control }

  predicate Attributed(e: Event) { OfTicket(e) && e.ticket.Some? }

  predicate Unattributed(e: Event) { OfTicket(e) && e.ticket.None? }

  /** The events of one ticket, in the order of the log. */
  function GroupOf(log: seq<Event>, t: TicketId): seq<Event> {
    if log == [] then []
    else
      GroupOf(log[..|log|-1], t) + OwnOnly(log[|log|-1], t)
  }

  function OwnOnly(e: Event, t: TicketId): seq<Event> {
    if Attributed(e) && e.ticket.value == t then [e] else []
  }

  ghost predicate Grouped(log: seq<Event>, groups: map<TicketId, seq<Event>>) {
    && (forall t :: t in groups <==> GroupOf(log, t) != [])
    && (forall t :: t in groups ==> groups[t] == GroupOf(log, t))
  }

  method ByTicket(log: seq<Event>) returns (groups: map<TicketId, seq<Event>>)
    ensures Grouped(log, groups)
  {
    groups := map[];
    for i := 0 to |log|
      invariant Grouped(log[..i], groups)
    {
      var e := log[i];
      assert log[..i+1][..i] == log[..i] && log[..i+1][i] == e;
      assert forall t :: GroupOf(log[..i+1], t) == GroupOf(log[..i], t) + OwnOnly(e, t);
      if Attributed(e) {
        var t := e.ticket.value;
        groups := groups[t := (if t in groups then groups[t] else []) + [e]];
      }
    }
    assert log[..|log|] == log;
  }

  // ---- one trace ----

  predicate Succeeded(e: Event) { e.name == Complete && (e.ok.None? || e.ok.value) }

  /** Positive bytes count, truncated. */
  function BytesOf(e: Event): int {
    if e.bytes.Some? && 0.0 < e.bytes.value then Trunc(e.bytes.value) else 0
  }

  function SuccessBytes(e: Event): int { if Succeeded(e) then BytesOf(e) else 0 }

  function Earlier(a: Option<real>, ts: Option<real>): Option<real> {
    if ts.None? then a else if a.None? || ts.value < a.value then ts else a
  }

  /** What every event adds to its trace. */
  function Noted(t: Trace, e: Event): Trace {
    t.(nEvents := t.nEvents + 1,
       trueClass := if t.trueClass.None? then e.trueClass else t.trueClass,
       bytesTotal := t.bytesTotal + BytesOf(e))
  }

  function Finished(t: Trace, e: Event): Trace {
    var t1 := t.(missingOk := t.missingOk || e.ok.None?);
    if !Succeeded(e) then t1
    else t1.(completedOk := true, bytesSuccess := t.bytesSuccess + BytesOf(e),
             lastCompleteTs := if e.ts.Some? then e.ts else t.lastCompleteTs)
  }

  /** What its own kind adds. */
  function Marked(t: Trace, e: Event): Trace {
    match e.name
    case Join => t.(joinTs := Earlier(t.joinTs, e.ts))
    case Estimate => if e.accessClass.Some? then t.(estimated := e.accessClass) else t
    case Admit => t.(admits := t.admits + 1)
    case Timeout =>
      t.(timeouts := t.timeouts + 1,
         timeoutsWithoutBytes := if e.bytes.None? then t.timeoutsWithoutBytes + 1 else t.timeoutsWithoutBytes)
    case Requeue => t.(requeues := t.requeues + 1)
    case Downgrade => t.(downgrades := t.downgrades + 1)
    case Abandon => t.(abandoned := true)
    case Complete => Finished(t, e)
    case _ => t
  }

  function Absorb(t: Trace, e: Event): Trace { Marked(Noted(t, e), e) }

  function Traced(es: seq<Event>): Trace {
    if es == [] then EMPTY_TRACE else Absorb(Traced(es[..|es|-1]), es[|es|-1])
  }

  function TsKey(e: Event): real { if e.ts.Some? then e.ts.value else 0.0 }

  function TraceOf(log: seq<Event>, t: TicketId): Trace { Traced(SortBy(TsKey, GroupOf(log, t))) }

  class TicketTrace {
    var trueClass: Option<int>
    var estimated: Option<int>
    var joinTs: Option<real>
    var lastCompleteTs: Option<real>
    var completedOk: bool
    var admits: nat
    var timeouts: nat
    var timeoutsWithoutBytes: nat
    var requeues: nat
    var downgrades: nat
    var abandoned: bool
    var bytesSuccess: int
    var bytesTotal: int
    var missingOk: bool
    var nEvents: nat

    function Contents(): Trace
      reads this
    {
      Trace(trueClass, estimated, joinTs, lastCompleteTs, completedOk, admits, timeouts, timeoutsWithoutBytes, requeues,
            downgrades, abandoned, bytesSuccess, bytesTotal, missingOk, nEvents)
    }

    constructor ()
      ensures Contents() == EMPTY_TRACE
    {
      trueClass, estimated, joinTs, lastCompleteTs := None, None, None, None;
      completedOk, abandoned, missingOk := false, false, false;
      admits, timeouts, timeoutsWithoutBytes, requeues, downgrades, nEvents := 0, 0, 0, 0, 0, 0;
      bytesSuccess, bytesTotal := 0, 0;
    }

    method Finish(e: Event)
      requires e.name == Complete
      modifies this
      ensures Contents() == Finished(old(Contents()), e)
    {
      var ok := true;
      if e.ok.Some? {
        ok := e.ok.value;
      } else {
        missingOk := true;
      }
      if ok {
        completedOk := true;
        if e.ts.Some? {
          lastCompleteTs := e.ts;
        }
        if e.bytes.Some? && 0.0 < e.bytes.value {
          bytesSuccess := bytesSuccess + Trunc(e.bytes.value);
        }
      }
    }

    method Note(e: Event)
      modifies this
      ensures Contents() == Noted(old(Contents()), e)
    {
      nEvents := nEvents + 1;
      if trueClass.None? {
        trueClass := e.trueClass;
      }
      if e.bytes.Some? && 0.0 < e.bytes.value {
        bytesTotal := bytesTotal + Trunc(e.bytes.value);
      }
    }

    method Mark(e: Event)
      modifies this
      ensures Contents() == Marked(old(Contents()), e)
    {
      match e.name {
        case Join =>
          if e.ts.Some? && (joinTs.None? || e.ts.value < joinTs.value) {
            joinTs := e.ts;
          }
        case Estimate =>
          if e.accessClass.Some? {
            estimated := e.accessClass;
          }
        case Admit => admits := admits + 1;
        case Timeout =>
          timeouts := timeouts + 1;
          if e.bytes.None? {
            timeoutsWithoutBytes := timeoutsWithoutBytes + 1;
          }
        case Requeue => requeues := requeues + 1;
        case Downgrade => downgrades := downgrades + 1;
        case Abandon => abandoned := true;
        case Complete => Finish(e);
        case _ =>
      }
    }

    method Add(e: Event)
      modifies this
      ensures Contents() == Absorb(old(Contents()), e)
    {
      Note(e);
      Mark(e);
    }
  }

  method BuildTrace(events: seq<Event>) returns (t: Trace)
    ensures t == Traced(events)
  {
    var trace := new TicketTrace();
    for i := 0 to |events|
      invariant fresh(trace) && trace.Contents() == Traced(events[..i])
    {
      assert events[..i+1][..i] == events[..i];
      trace.Add(events[i]);
    }
    assert events[..|events|] == events;
    t := trace.Contents();
  }

  method TraceAll(groups: map<TicketId, seq<Event>>) returns (traces: map<TicketId, Trace>)
    ensures traces.Keys == groups.Keys
    ensures forall t :: t in groups ==> traces[t] == Traced(SortBy(TsKey, groups[t]))
  {
    traces := map[];
    var left := groups.Keys;
    while left != {}
      invariant left <= groups.Keys
      invariant traces.Keys == groups.Keys - left
      invariant forall t :: t in traces ==> traces[t] == Traced(SortBy(TsKey, groups[t]))
      decreases |left|
    {
      var t :| t in left;
      var trace := BuildTrace(SortBy(TsKey, groups[t]));
      traces := traces[t := trace];
      left := left - {t};
    }
  }

  /** One trace per ticket of the log, and the number of ticket events that name no ticket. */
  method BuildTraces(log: seq<Event>) returns (traces: map<TicketId, Trace>, unattributable: nat)
    ensures forall t :: t in traces <==> GroupOf(log, t) != []
    ensures forall t :: t in traces ==> traces[t] == TraceOf(log, t)
    ensures unattributable == CountIf(log, Unattributed)
  {
    var groups := ByTicket(log);
    traces := TraceAll(groups);
    unattributable := TicketEventsWithoutId(log);
  }

  method TicketEventsWithoutId(log: seq<Event>) returns (n: nat)
    ensures n == CountIf(log, Unattributed)
  {
    n := 0;
    for i := 0 to |log|
      invariant n == CountIf(log[..i], Unattributed)
    {
      assert log[..i+1][..i] == log[..i];
      if OfTicket(log[i]) && log[i].ticket.None? {
        n := n + 1;
      }
    }
    assert log[..|log|] == log;
  }

  // ---- a trace counts its events, in any order ----

  function Is(k: EventType): Event -> bool { (e: Event) => e.name == k }

  predicate Any(e: Event) { true }

  lemma AbsorbCounts(t: Trace, e: Event)
    ensures var r := Absorb(t, e);
            && r.nEvents == t.nEvents + 1
            && r.admits == t.admits + (if Is(Admit)(e) then 1 else 0)
            && r.timeouts == t.timeouts + (if Is(Timeout)(e) then 1 else 0)
            && r.requeues == t.requeues + (if Is(Requeue)(e) then 1 else 0)
            && r.downgrades == t.downgrades + if Is(Downgrade)(e) then 1 else 0
  {
  }

  lemma {:induction false} TracedCounts(es: seq<Event>)
    ensures var t := Traced(es);
            && t.nEvents == |es|
            && t.admits == CountIf(es, Is(Admit)) && t.timeouts == CountIf(es, Is(Timeout))
            && t.requeues == CountIf(es, Is(Requeue)) && t.downgrades == CountIf(es, Is(Downgrade))
  {
    if es != [] {
      TracedCounts(es[..|es|-1]);
      AbsorbCounts(Traced(es[..|es|-1]), es[|es|-1]);
    }
  }

  lemma {:induction false} TracedFlags(es: seq<Event>)
    ensures var t := Traced(es);
            (t.completedOk <==> 0 < CountIf(es, Succeeded)) && (t.abandoned <==> 0 < CountIf(es, Is(Abandon)))
  {
    if es != [] {
      TracedFlags(es[..|es|-1]);
    }
  }

  lemma AbsorbBytes(t: Trace, e: Event)
    ensures Absorb(t, e).bytesTotal == t.bytesTotal + BytesOf(e)
    ensures Absorb(t, e).bytesSuccess == t.bytesSuccess + SuccessBytes(e)
  {
  }

  lemma {:induction false} TracedBytes(es: seq<Event>)
    ensures Traced(es).bytesTotal == Sum(es, BytesOf) && Traced(es).bytesSuccess == Sum(es, SuccessBytes)
  {
    if es != [] {
      TracedBytes(es[..|es|-1]);
      AbsorbBytes(Traced(es[..|es|-1]), es[|es|-1]);
    }
  }

  lemma {:induction false} InsertSum(s: seq<Event>, x: Event, f: Event -> int)
    ensures Sum(InsertBy(TsKey, s, x), f) == Sum(s, f) + f(x)
  {
    var r := InsertBy(TsKey, s, x);
    if s == [] || TsKey(s[|s|-1]) <= TsKey(x) {
      assert r[..|r|-1] == s;
    } else {
      InsertSum(s[..|s|-1], x, f);
      assert r[..|r|-1] == InsertBy(TsKey, s[..|s|-1], x);
    }
  }

  lemma {:induction false} SortSum(s: seq<Event>, f: Event -> int)
    ensures Sum(SortBy(TsKey, s), f) == Sum(s, f)
  {
    if s != [] {
      SortSum(s[..|s|-1], f);
      InsertSum(SortBy(TsKey, s[..|s|-1]), s[|s|-1], f);
    }
  }

  /** The counts and the bytes of a ticket do not depend on the order of its events in the log. */
  lemma TraceCounts(log: seq<Event>, t: TicketId)
    ensures var g, r := GroupOf(log, t), TraceOf(log, t);
            && r.nEvents == |g|
            && r.admits == CountIf(g, Is(Admit)) && r.timeouts == CountIf(g, Is(Timeout))
            && r.requeues == CountIf(g, Is(Requeue)) && r.downgrades == CountIf(g, Is(Downgrade))
            && (r.completedOk <==> 0 < CountIf(g, Succeeded)) && (r.abandoned <==> 0 < CountIf(g, Is(Abandon)))
            && r.bytesTotal == Sum(g, BytesOf) && r.bytesSuccess == Sum(g, SuccessBytes)
  {
    var g := GroupOf(log, t);
    TracedCounts(SortBy(TsKey, g));
    TracedFlags(SortBy(TsKey, g));
    TracedBytes(SortBy(TsKey, g));
    SortByCount(TsKey, g, Is(Admit));
    SortByCount(TsKey, g, Is(Timeout));
    SortByCount(TsKey, g, Is(Requeue));
    SortByCount(TsKey, g, Is(Downgrade));
    SortByCount(TsKey, g, Succeeded);
    SortByCount(TsKey, g, Is(Abandon));
    SortSum(g, BytesOf);
    SortSum(g, SuccessBytes);
  }

  lemma {:induction false} SuccessSum(es: seq<Event>)
    ensures 0 <= Sum(es, SuccessBytes) <= Sum(es, BytesOf)
  {
    if es != [] {
      SuccessSum(es[..|es|-1]);
    }
  }

  /** Successful bytes are never more than all bytes. */
  lemma {:induction false} SuccessWithinTotal(es: seq<Event>)
    ensures 0 <= Traced(es).bytesSuccess <= Traced(es).bytesTotal
  {
    TracedBytes(es);
    SuccessSum(es);
  }

  // ---- the labels of a trace ----

  /** The first class label that the events carry. */
  ghost predicate FirstLabel(es: seq<Event>, x: Option<int>) {
    if forall i :: 0 <= i < |es| ==> es[i].trueClass.None? then x.None?
    else exists i :: 0 <= i < |es| && x.Some? && es[i].trueClass == x && forall j :: 0 <= j < i ==> es[j].trueClass.None?
  }

  predicate Classifies(e: Event) { e.name == Estimate && e.accessClass.Some? }

  /** The class of the last ESTIMATE that carries one. */
  ghost predicate LastEstimate(es: seq<Event>, x: Option<int>) {
    if forall i :: 0 <= i < |es| ==> !Classifies(es[i]) then x.None?
    else exists i :: 0 <= i < |es| && Classifies(es[i]) && es[i].accessClass == x && forall j :: i < j < |es| ==> !Classifies(es[j])
  }

  predicate Unmarked(e: Event) { e.name == Complete && e.ok.None? }

  predicate Bare(e: Event) { e.name == Timeout && e.bytes.None? }

  lemma AbsorbLabels(t: Trace, e: Event)
    ensures var r := Absorb(t, e);
            && r.trueClass == (if t.trueClass.None? then e.trueClass else t.trueClass)
            && r.estimated == (if Classifies(e) then e.accessClass else t.estimated)
            && r.missingOk == (t.missingOk || Unmarked(e))
            && r.timeoutsWithoutBytes == t.timeoutsWithoutBytes + if Bare(e) then 1 else 0
  {
    NotedLabels(t, e);
    MarkedLabels(Noted(t, e), e);
  }

  lemma NotedLabels(t: Trace, e: Event)
    ensures var r := Noted(t, e);
            && r.trueClass == (if t.trueClass.None? then e.trueClass else t.trueClass)
            && r.estimated == t.estimated && r.missingOk == t.missingOk && r.timeoutsWithoutBytes == t.timeoutsWithoutBytes
  {
  }

  lemma MarkedLabels(t: Trace, e: Event)
    ensures var r := Marked(t, e);
            && r.trueClass == t.trueClass
            && r.estimated == (if Classifies(e) then e.accessClass else t.estimated)
            && r.missingOk == (t.missingOk || Unmarked(e))
            && r.timeoutsWithoutBytes == t.timeoutsWithoutBytes + if Bare(e) then 1 else 0
  {
  }

  lemma {:induction false} TracedTrueClass(es: seq<Event>)
    ensures FirstLabel(es, Traced(es).trueClass)
  {
    if es != [] {
      var most, last := es[..|es|-1], es[|es|-1];
      TracedTrueClass(most);
      AbsorbLabels(Traced(most), last);
      if i :| 0 <= i < |most| && Traced(most).trueClass.Some? && most[i].trueClass == Traced(most).trueClass
              && forall j :: 0 <= j < i ==> most[j].trueClass.None? {
        assert es[i] == most[i] && forall j :: 0 <= j < i ==> es[j] == most[j];
      } else {
        assert forall j :: 0 <= j < |most| ==> es[j] == most[j];
      }
    }
  }

  lemma {:induction false} TracedEstimate(es: seq<Event>)
    ensures LastEstimate(es, Traced(es).estimated)
  {
    if es != [] {
      var most, last := es[..|es|-1], es[|es|-1];
      TracedEstimate(most);
      AbsorbLabels(Traced(most), last);
      assert forall j :: 0 <= j < |most| ==> es[j] == most[j];
      if Classifies(last) {
        assert Classifies(es[|es|-1]);
      } else if i :| 0 <= i < |most| && Classifies(most[i]) && most[i].accessClass == Traced(most).estimated
                     && forall j :: i < j < |most| ==> !Classifies(most[j]) {
        assert Classifies(es[i]);
      }
    }
  }

  lemma {:induction false} TracedMarks(es: seq<Event>)
    ensures Traced(es).missingOk <==> 0 < CountIf(es, Unmarked)
    ensures Traced(es).timeoutsWithoutBytes == CountIf(es, Bare)
  {
    if es != [] {
      TracedMarks(es[..|es|-1]);
      AbsorbLabels(Traced(es[..|es|-1]), es[|es|-1]);
    }
  }

  /** The labels of a ticket, from its events in order of time: its class is the first that any of them carries, its
      estimate the last that was made; COMPLETE lines without an outcome and TIMEOUT lines without bytes are noted. */
  lemma TraceLabels(log: seq<Event>, t: TicketId)
    ensures var es, r := SortBy(TsKey, GroupOf(log, t)), TraceOf(log, t);
            && FirstLabel(es, r.trueClass) && LastEstimate(es, r.estimated)
            && (r.missingOk <==> 0 < CountIf(es, Unmarked)) && r.timeoutsWithoutBytes == CountIf(es, Bare)
  {
    TracedTrueClass(SortBy(TsKey, GroupOf(log, t)));
    TracedEstimate(SortBy(TsKey, GroupOf(log, t)));
    TracedMarks(SortBy(TsKey, GroupOf(log, t)));
  }

  // ---- the two instants between which a completion is timed ----

  predicate TimedJoin(e: Event) { e.name == Join && e.ts.Some? }

  predicate TimedSuccess(e: Event) { Succeeded(e) && e.ts.Some? }

  /** `x` is the smallest instant of the events that satisfy `p`, or nothing if none does. */
  ghost predicate Earliest(es: seq<Event>, p: Event -> bool, x: Option<real>)
    requires forall e :: p(e) ==> e.ts.Some?
  {
    && (x.None? <==> forall i :: 0 <= i < |es| ==> !p(es[i]))
    && (x.Some? ==> exists i :: 0 <= i < |es| && p(es[i]) && es[i].ts == x)
    && forall i :: 0 <= i < |es| && p(es[i]) ==> x.Some? && x.value <= es[i].ts.value
  }

  ghost predicate Latest(es: seq<Event>, p: Event -> bool, x: Option<real>)
    requires forall e :: p(e) ==> e.ts.Some?
  {
    && (x.None? <==> forall i :: 0 <= i < |es| ==> !p(es[i]))
    && (x.Some? ==> exists i :: 0 <= i < |es| && p(es[i]) && es[i].ts == x)
    && forall i :: 0 <= i < |es| && p(es[i]) ==> x.Some? && es[i].ts.value <= x.value
  }

  /** The join time of a trace is the earliest of its JOIN events, in whatever order they come. */
  lemma {:induction false} JoinIsEarliest(es: seq<Event>)
    ensures Earliest(es, TimedJoin, Traced(es).joinTs)
  {
    if es != [] {
      var most, last := es[..|es|-1], es[|es|-1];
      JoinIsEarliest(most);
      AbsorbTimes(Traced(most), last);
      assert forall i :: 0 <= i < |most| ==> es[i] == most[i];
      var x := Traced(es).joinTs;
      if TimedJoin(last) && x == last.ts {
        assert TimedJoin(es[|es|-1]);
      } else if x.Some? {
        var i :| 0 <= i < |most| && TimedJoin(most[i]) && most[i].ts == x;
        assert TimedJoin(es[i]);
      }
    }
  }

  lemma AbsorbTimes(t: Trace, e: Event)
    ensures Absorb(t, e).joinTs == if e.name == Join then Earlier(t.joinTs, e.ts) else t.joinTs
    ensures Absorb(t, e).lastCompleteTs == if TimedSuccess(e) then e.ts else t.lastCompleteTs
  {
  }

  lemma LatestAppend(most: seq<Event>, last: Event, x: Option<real>)
    requires Latest(most, TimedSuccess, x)
    requires forall i :: 0 <= i < |most| ==> TsKey(most[i]) <= TsKey(last)
    ensures Latest(most + [last], TimedSuccess, if TimedSuccess(last) then last.ts else x)
  {
    var es := most + [last];
    assert forall i :: 0 <= i < |most| ==> es[i] == most[i];
    if TimedSuccess(last) {
      assert TimedSuccess(es[|most|]) && es[|most|].ts == last.ts;
    } else if x.Some? {
      var i :| 0 <= i < |most| && TimedSuccess(most[i]) && most[i].ts == x;
      assert TimedSuccess(es[i]);
    }
  }

  /** Its completion time is the latest of its successes, because the events come in order of time. */
  lemma {:induction false} CompletionIsLatest(es: seq<Event>)
    requires SortedBy(TsKey, es)
    ensures Latest(es, TimedSuccess, Traced(es).lastCompleteTs)
  {
    if es != [] {
      var most, last := es[..|es|-1], es[|es|-1];
      CompletionIsLatest(most);
      AbsorbTimes(Traced(most), last);
      LatestAppend(most, last, Traced(most).lastCompleteTs);
      assert es == most + [last];
    }
  }

  /** So time to completion runs from the earliest JOIN to the latest success of the ticket. */
  lemma CompletionIsTimed(log: seq<Event>, t: TicketId)
    ensures var es := SortBy(TsKey, GroupOf(log, t));
            && Earliest(es, TimedJoin, TraceOf(log, t).joinTs)
            && Latest(es, TimedSuccess, TraceOf(log, t).lastCompleteTs)
            && multiset(es) == multiset(GroupOf(log, t))
  {
    SortBySorted(TsKey, GroupOf(log, t));
    SortByMultiset(TsKey, GroupOf(log, t));
    JoinIsEarliest(SortBy(TsKey, GroupOf(log, t)));
    CompletionIsLatest(SortBy(TsKey, GroupOf(log, t)));
  }

  // ---- nothing is lost between the log and the traces ----

  function InGroup(t: TicketId, p: Event -> bool): Event -> bool {
    (e: Event) => Attributed(e) && e.ticket.value == t && p(e)
  }

  function InGroups(ts: seq<TicketId>, p: Event -> bool): Event -> bool {
    (e: Event) => Attributed(e) && e.ticket.value in ts && p(e)
  }

  lemma {:induction false} GroupCount(log: seq<Event>, t: TicketId, p: Event -> bool)
    ensures CountIf(GroupOf(log, t), p) == CountIf(log, InGroup(t, p))
  {
    if log != [] {
      GroupCount(log[..|log|-1], t, p);
      var e := log[|log|-1];
      if Attributed(e) && e.ticket.value == t {
        assert (GroupOf(log[..|log|-1], t) + [e])[..|GroupOf(log[..|log|-1], t)|] == GroupOf(log[..|log|-1], t);
      } else {
        assert GroupOf(log, t) == GroupOf(log[..|log|-1], t);
      }
    }
  }

  /** How many of a ticket's events satisfy `p`. */
  function CountIn(log: seq<Event>, p: Event -> bool): TicketId -> int {
    (t: TicketId) => CountIf(GroupOf(log, t), p)
  }

  lemma {:induction false} GroupsCount(log: seq<Event>, ts: seq<TicketId>, p: Event -> bool)
    requires forall i, j :: 0 <= i < j < |ts| ==> ts[i] != ts[j]
    ensures Sum(ts, CountIn(log, p)) == CountIf(log, InGroups(ts, p))
  {
    if ts == [] {
      CountIfNone(log, InGroups(ts, p));
    } else {
      var before, last := ts[..|ts|-1], ts[|ts|-1];
      GroupsCount(log, before, p);
      GroupCount(log, last, p);
      assert last !in before && ts == before + [last];
      CountIfSplit(log, InGroups(before, p), InGroup(last, p), InGroups(ts, p));
    }
  }

  function Dropped(p: Event -> bool): Event -> bool { (e: Event) => Unattributed(e) && p(e) }

  function Ticketed(p: Event -> bool): Event -> bool { (e: Event) => OfTicket(e) && p(e) }

  lemma {:induction false} GroupOfMember(log: seq<Event>, i: nat)
    requires i < |log| && Attributed(log[i])
    ensures GroupOf(log, log[i].ticket.value) != []
  {
    if i < |log| - 1 {
      GroupOfMember(log[..|log|-1], i);
    }
  }

  /** For any kind of event: what the tickets hold together with what names no ticket is what the log holds. */
  lemma EveryEventCounted(log: seq<Event>, ts: seq<TicketId>, p: Event -> bool)
    requires forall i, j :: 0 <= i < j < |ts| ==> ts[i] != ts[j]
    requires forall t :: t in ts <==> GroupOf(log, t) != []
    ensures Sum(ts, CountIn(log, p)) + CountIf(log, Dropped(p)) == CountIf(log, Ticketed(p))
  {
    GroupsCount(log, ts, p);
    forall i | 0 <= i < |log| && Attributed(log[i]) ensures log[i].ticket.value in ts {
      GroupOfMember(log, i);
    }
    CountIfSplit(log, InGroups(ts, p), Dropped(p), Ticketed(p));
  }

  function NEvents(log: seq<Event>): TicketId -> int { (t: TicketId) => TraceOf(log, t).nEvents }

  function Admits(log: seq<Event>): TicketId -> int { (t: TicketId) => TraceOf(log, t).admits }

  lemma {:induction false} SumSame(ts: seq<TicketId>, f: TicketId -> int, g: TicketId -> int)
    requires forall i :: 0 <= i < |ts| ==> f(ts[i]) == g(ts[i])
    ensures Sum(ts, f) == Sum(ts, g)
  {
    if ts != [] {
      SumSame(ts[..|ts|-1], f, g);
    }
  }

  /** The events of all traces and the unattributable ones are all the ticket events; likewise the admissions. */
  lemma TracesAddUp(log: seq<Event>, ts: seq<TicketId>)
    requires forall i, j :: 0 <= i < j < |ts| ==> ts[i] != ts[j]
    requires forall t :: t in ts <==> GroupOf(log, t) != []
    ensures Sum(ts, NEvents(log)) + CountIf(log, Unattributed) == CountIf(log, OfTicket)
    ensures Sum(ts, Admits(log)) + CountIf(log, Dropped(Is(Admit))) == CountIf(log, Is(Admit))
  {
    forall i | 0 <= i < |ts|
      ensures NEvents(log)(ts[i]) == CountIn(log, Any)(ts[i]) && Admits(log)(ts[i]) == CountIn(log, Is(Admit))(ts[i])
    {
      TraceCounts(log, ts[i]);
      CountIfAll(GroupOf(log, ts[i]), Any);
    }
    SumSame(ts, NEvents(log), CountIn(log, Any));
    SumSame(ts, Admits(log), CountIn(log, Is(Admit)));
    EveryEventCounted(log, ts, Any);
    EveryEventCounted(log, ts, Is(Admit));
    CountIfSame(log, Dropped(Any), Unattributed);
    CountIfSame(log, Ticketed(Any), OfTicket);
    CountIfSame(log, Ticketed(Is(Admit)), Is(Admit));
  }

  // ---- the distribution of attempts ----

  function Above(k: int): nat -> bool { (a: nat) => k < a }

  /** P(attempts > k), scaled by the number of completers, for k = 0 .. highest. */
  function Tail(attempts: seq<nat>, highest: nat): (r: seq<nat>)
    ensures |r| == highest + 1
  {
    seq(highest + 1, k requires 0 <= k <= highest => CountIf(attempts, Above(k)))
  }

  ghost predicate IsHighest(attempts: seq<nat>, m: nat) {
    m in attempts && forall i :: 0 <= i < |attempts| ==> attempts[i] <= m
  }

  lemma {:induction false} TailAppend(attempts: seq<nat>, a: nat, highest: nat)
    requires a <= highest + 1
    ensures SumInts(Tail(attempts + [a], highest)) == SumInts(Tail(attempts, highest)) + a
    decreases highest
  {
    var s := attempts + [a];
    assert s[..|attempts|] == attempts;
    assert CountIf(s, Above(highest)) == CountIf(attempts, Above(highest)) + if highest < a then 1 else 0;
    if highest == 0 {
      assert Tail(s, 0) == [CountIf(s, Above(0))] && Tail(attempts, 0) == [CountIf(attempts, Above(0))];
      assert [CountIf(s, Above(0))][..0] == [] && [CountIf(attempts, Above(0))][..0] == [];
    } else {
      assert Tail(s, highest)[..highest] == Tail(s, highest - 1);
      assert Tail(attempts, highest)[..highest] == Tail(attempts, highest - 1);
      TailAppend(attempts, if a == highest + 1 then highest else a, highest - 1);
      if a == highest + 1 {
        TailSame(attempts, a, highest, highest - 1);
      }
    }
  }

  /** Below both of them, two last values leave the same tail. */
  lemma TailSame(attempts: seq<nat>, a: nat, b: nat, highest: nat)
    requires highest < a && highest < b
    ensures Tail(attempts + [a], highest) == Tail(attempts + [b], highest)
  {
    forall k | 0 <= k <= highest ensures CountIf(attempts + [a], Above(k)) == CountIf(attempts + [b], Above(k)) {
      assert (attempts + [a])[..|attempts|] == attempts && (attempts + [b])[..|attempts|] == attempts;
    }
  }

  lemma {:induction false} TailSum(attempts: seq<nat>, highest: nat)
    requires forall i :: 0 <= i < |attempts| ==> attempts[i] <= highest
    ensures SumInts(Tail(attempts, highest)) == SumInts(attempts)
  {
    if attempts == [] {
      TailEmpty(highest);
    } else {
      var most, last := attempts[..|attempts|-1], attempts[|attempts|-1];
      TailSum(most, highest);
      TailAppend(most, last, highest);
      assert attempts == most + [last];
    }
  }

  lemma {:induction false} TailEmpty(highest: nat)
    ensures SumInts(Tail([], highest)) == 0
  {
    var t := Tail([], highest);
    if highest > 0 {
      TailEmpty(highest - 1);
      assert t[..highest] == Tail([], highest - 1);
    } else {
      assert t == [0] && [0][..0] == [];
    }
  }

  function ToReals(s: seq<nat>, n: nat): (r: seq<real>)
    requires 0 < n
    ensures |r| == |s|
  {
    seq(|s|, k requires 0 <= k < |s| => s[k] as real / n as real)
  }

  /** P(attempts > k) for k = 0 .. the largest; nothing for no completers. */
  method Ccdf(attempts: seq<nat>) returns (r: seq<(nat, real)>)
    ensures attempts == [] ==> r == []
    ensures attempts != [] ==>
      exists m: nat :: IsHighest(attempts, m) && |r| == m + 1
        && forall k :: 0 <= k <= m ==> r[k] == (k, CountIf(attempts, Above(k)) as real / |attempts| as real)
  {
    r := [];
    if attempts == [] {
      return;
    }
    var highest := Largest(attempts);
    for k := 0 to highest + 1
      invariant |r| == k
      invariant forall j :: 0 <= j < k ==> r[j] == (j, CountIf(attempts, Above(j)) as real / |attempts| as real)
    {
      r := r + [(k, CountIf(attempts, Above(k)) as real / |attempts| as real)];
    }
    assert IsHighest(attempts, highest);
  }

  method Largest(attempts: seq<nat>) returns (m: nat)
    requires attempts != []
    ensures IsHighest(attempts, m)
  {
    m := attempts[0];
    for i := 1 to |attempts|
      invariant m in attempts && forall j :: 0 <= j < i ==> attempts[j] <= m
    {
      if m < attempts[i] {
        m := attempts[i];
      }
    }
  }

  lemma {:induction false} SumOver(s: seq<nat>, n: nat)
    requires 0 < n
    ensures SumReals(ToReals(s, n)) == SumInts(s) as real / n as real
  {
    if s != [] {
      SumOver(s[..|s|-1], n);
      assert ToReals(s, n)[..|s|-1] == ToReals(s[..|s|-1], n);
      AddOver(SumInts(s[..|s|-1]), s[|s|-1], n);
    }
  }

  lemma AddOver(a: int, b: int, n: nat)
    requires 0 < n
    ensures (a + b) as real / n as real == a as real / n as real + b as real / n as real
  {
  }

  lemma OverGrows(a: nat, b: nat, n: nat)
    requires 0 < n && a <= b
    ensures a as real / n as real <= b as real / n as real
  {
    AddOver(a, b - a, n);
  }

  lemma TailShape(attempts: seq<nat>, highest: nat)
    requires IsHighest(attempts, highest)
    ensures var tail := Tail(attempts, highest);
            && (forall k :: 0 <= k < highest ==> tail[k+1] <= tail[k])
            && tail[highest] == 0
            && (0 < highest ==> 0 < tail[highest-1])
  {
    var tail := Tail(attempts, highest);
    forall k | 0 <= k < highest ensures tail[k+1] <= tail[k] {
      CountIfAtMost(attempts, Above(k + 1), Above(k));
    }
    CountIfNone(attempts, Above(highest));
    if 0 < highest {
      var i :| 0 <= i < |attempts| && attempts[i] == highest;
      CountIfSome(attempts, Above(highest - 1), i);
    }
  }

  lemma FractionsFall(s: seq<nat>, n: nat)
    requires 0 < n && s != [] && forall k :: 0 <= k < |s| - 1 ==> s[k+1] <= s[k]
    ensures var p := ToReals(s, n);
            (forall k :: 0 <= k < |s| - 1 ==> p[k+1] <= p[k]) && (s[|s|-1] == 0 ==> p[|s|-1] == 0.0)
  {
    forall k | 0 <= k < |s| - 1 ensures ToReals(s, n)[k+1] <= ToReals(s, n)[k] {
      OverGrows(s[k+1], s[k], n);
    }
  }

  /** The mean number of attempts is the sum of the distribution, which never rises, ends at zero, and not before. */
  lemma MeanIsTailSum(attempts: seq<nat>, highest: nat)
    requires attempts != [] && IsHighest(attempts, highest)
    ensures var tail := Tail(attempts, highest);
            var p := ToReals(tail, |attempts|);
            && SumReals(p) == SumInts(attempts) as real / |attempts| as real
            && (forall k :: 0 <= k < highest ==> p[k+1] <= p[k])
            && p[highest] == 0.0
            && (0 < highest ==> 0 < tail[highest-1])
  {
    TailSum(attempts, highest);
    SumOver(Tail(attempts, highest), |attempts|);
    TailShape(attempts, highest);
    FractionsFall(Tail(attempts, highest), |attempts|);
  }

  // ---- the metrics of a group ----

  datatype ClassMetrics = ClassMetrics(joined: nat, completed: nat, rate: real, attempts: seq<nat>,
                                       bytesSuccess: int, bytesTotal: int, goodput: Option<real>)

  predicate DidComplete(t: Trace) { t.completedOk }

  function BytesWon(t: Trace): int { t.bytesSuccess }

  function BytesSpent(t: Trace): int { t.bytesTotal }

  function Attempts(ts: seq<Trace>): seq<nat> {
    if ts == [] then []
    else Attempts(ts[..|ts|-1]) + if ts[|ts|-1].completedOk then [ts[|ts|-1].admits] else []
  }

  function MetricsOf(ts: seq<Trace>): ClassMetrics {
    var done, won, spent := CountIf(ts, DidComplete), Sum(ts, BytesWon), Sum(ts, BytesSpent);
    ClassMetrics(|ts|, done, if ts == [] then 0.0 else done as real / |ts| as real, Attempts(ts),
                 won, spent, if spent == 0 then None else Some(won as real / spent as real))
  }

  /** Each trace is that of some ticket of the log. */
  ghost predicate FromLog(log: seq<Event>, ts: seq<Trace>) {
    forall i :: 0 <= i < |ts| ==> exists t: TicketId :: ts[i] == TraceOf(log, t)
  }

  lemma {:induction false} WonWithinSpent(log: seq<Event>, ts: seq<Trace>)
    requires FromLog(log, ts)
    ensures 0 <= Sum(ts, BytesWon) <= Sum(ts, BytesSpent)
  {
    if ts != [] {
      var last := ts[|ts|-1];
      WonWithinSpent(log, ts[..|ts|-1]);
      var t: TicketId :| last == TraceOf(log, t);
      SuccessWithinTotal(SortBy(TsKey, GroupOf(log, t)));
    }
  }

  lemma Fraction(a: int, b: int)
    requires 0 <= a <= b && 0 < b
    ensures 0.0 <= a as real / b as real <= 1.0
  {
  }

  lemma {:induction false} AttemptsCount(ts: seq<Trace>)
    ensures |Attempts(ts)| == CountIf(ts, DidComplete)
  {
    if ts != [] {
      AttemptsCount(ts[..|ts|-1]);
    }
  }

  /** Rates are fractions, for the traces of any tickets of any log. */
  lemma RatesAreFractions(log: seq<Event>, ts: seq<Trace>)
    requires FromLog(log, ts)
    ensures var m := MetricsOf(ts);
            && 0.0 <= m.rate <= 1.0 && m.completed <= m.joined && |m.attempts| == m.completed
            && (m.goodput.Some? ==> 0.0 <= m.goodput.value <= 1.0)
            && (m.goodput.None? ==> m.bytesSuccess == 0)
  {
    WonWithinSpent(log, ts);
    AttemptsCount(ts);
    CountIfBound(ts, DidComplete);
    if ts != [] {
      Fraction(CountIf(ts, DidComplete), |ts|);
    }
    if Sum(ts, BytesSpent) != 0 {
      Fraction(Sum(ts, BytesWon), Sum(ts, BytesSpent));
    }
  }

  // ---- the metrics of a group, read off the log ----

  /** The traces of the listed tickets. */
  ghost predicate TracesOf(log: seq<Event>, ids: seq<TicketId>, ts: seq<Trace>) {
    |ts| == |ids| && forall i :: 0 <= i < |ids| ==> ts[i] == TraceOf(log, ids[i])
  }

  predicate SaysCompleted(e: Event) { e.name == Complete && e.ok != Some(false) }

  /** The ticket has a COMPLETE line that does not say it failed. */
  function Won(log: seq<Event>): TicketId -> bool { (t: TicketId) => 0 < CountIf(GroupOf(log, t), SaysCompleted) }

  /** The whole bytes of a line: missing and negative amounts count as none. */
  lemma BytesBetween(e: Event)
    ensures if e.bytes.Some? && 0.0 < e.bytes.value
            then BytesOf(e) as real <= e.bytes.value < BytesOf(e) as real + 1.0 else BytesOf(e) == 0
    ensures SuccessBytes(e) == if SaysCompleted(e) then BytesOf(e) else 0
  {
  }

  function Winners(log: seq<Event>, ids: seq<TicketId>): seq<TicketId> {
    if ids == [] then []
    else Winners(log, ids[..|ids|-1]) + if Won(log)(ids[|ids|-1]) then [ids[|ids|-1]] else []
  }

  function BytesIn(log: seq<Event>): TicketId -> int { (t: TicketId) => Sum(GroupOf(log, t), BytesOf) }

  function SuccessBytesIn(log: seq<Event>): TicketId -> int { (t: TicketId) => Sum(GroupOf(log, t), SuccessBytes) }

  /** Each number of attempts is the number of ADMIT lines of one completer, in the order of the tickets. */
  ghost predicate AdmitsOf(log: seq<Event>, winners: seq<TicketId>, attempts: seq<nat>) {
    && |attempts| == |winners|
    && forall i :: 0 <= i < |winners| ==> attempts[i] == CountIf(GroupOf(log, winners[i]), Is(Admit))
  }

  lemma {:induction false} GroupCounts(log: seq<Event>, ids: seq<TicketId>, ts: seq<Trace>)
    requires TracesOf(log, ids, ts)
    ensures CountIf(ts, DidComplete) == CountIf(ids, Won(log))
    ensures Sum(ts, BytesSpent) == Sum(ids, BytesIn(log)) && Sum(ts, BytesWon) == Sum(ids, SuccessBytesIn(log))
    ensures AdmitsOf(log, Winners(log, ids), Attempts(ts))
  {
    if ids != [] {
      GroupCounts(log, ids[..|ids|-1], ts[..|ts|-1]);
      TraceCounts(log, ids[|ids|-1]);
      CountIfSame(GroupOf(log, ids[|ids|-1]), Succeeded, SaysCompleted);
    }
  }

  /** What the metrics of a group of tickets say of the log: how many completed, the ADMIT lines of each that did, the
      bytes of all lines and of the successful ones; the rates times what they are rates of are these counts. */
  lemma MetricsMean(log: seq<Event>, ids: seq<TicketId>, ts: seq<Trace>)
    requires TracesOf(log, ids, ts)
    ensures var m := MetricsOf(ts);
            && m.joined == |ids| && m.completed == CountIf(ids, Won(log))
            && Mul(m.rate, m.joined as real) == m.completed as real && (ids == [] ==> m.rate == 0.0)
            && AdmitsOf(log, Winners(log, ids), m.attempts)
            && m.bytesTotal == Sum(ids, BytesIn(log)) && m.bytesSuccess == Sum(ids, SuccessBytesIn(log))
            && (m.goodput.None? <==> m.bytesTotal == 0)
            && (m.goodput.Some? ==> Mul(m.goodput.value, m.bytesTotal as real) == m.bytesSuccess as real)
  {
    GroupCounts(log, ids, ts);
    if ids != [] {
      QuotientTimes(CountIf(ts, DidComplete), |ts|);
    }
    if Sum(ts, BytesSpent) != 0 {
      QuotientTimes(Sum(ts, BytesWon), Sum(ts, BytesSpent));
    }
  }

  lemma QuotientTimes(a: int, b: int)
    requires b != 0
    ensures Mul(a as real / b as real, b as real) == a as real
  {
  }

  predicate Usable(t: Trace) { t.joinTs.Some? }

  /** The usable tickets are those with a JOIN line that carries a time. */
  lemma UsableIff(log: seq<Event>, t: TicketId)
    ensures Usable(TraceOf(log, t)) <==> exists i :: 0 <= i < |GroupOf(log, t)| && TimedJoin(GroupOf(log, t)[i])
  {
    var g, es := GroupOf(log, t), SortBy(TsKey, GroupOf(log, t));
    CompletionIsTimed(log, t);
    SortByMembers(TsKey, g);
    if i :| 0 <= i < |g| && TimedJoin(g[i]) {
      assert g[i] in g && g[i] in es;
    }
    if i :| 0 <= i < |es| && TimedJoin(es[i]) {
      assert es[i] in es && es[i] in g;
    }
  }

  predicate NoClass(t: Trace) { Usable(t) && t.trueClass.None? }

  function OfClass(c: int): Trace -> bool { (t: Trace) => Usable(t) && t.trueClass == Some(c) }

  predicate Classed(t: Trace) { Usable(t) && t.trueClass.Some? && 0 <= t.trueClass.value <= 2 }

  predicate Stray(t: Trace) { Usable(t) && t.trueClass.Some? && !(0 <= t.trueClass.value <= 2) }

  predicate Known(t: Trace) { Usable(t) && t.trueClass.Some? }

  predicate HighOrMedium(t: Trace) { OfClass(0)(t) || OfClass(1)(t) }

  /** The classes and the tickets without one make up the usable tickets, except for labels that are no class. */
  lemma ClassesAddUp(ts: seq<Trace>)
    ensures CountIf(ts, OfClass(0)) + CountIf(ts, OfClass(1)) + CountIf(ts, OfClass(2)) + CountIf(ts, NoClass)
         == CountIf(ts, Usable) - CountIf(ts, Stray)
  {
    CountIfSplit(ts, OfClass(0), OfClass(1), HighOrMedium);
    CountIfSplit(ts, HighOrMedium, OfClass(2), Classed);
    CountIfSplit(ts, Classed, Stray, Known);
    CountIfSplit(ts, Known, NoClass, Usable);
  }

  /** So the class totals are complete if and only if every usable label is a class. */
  lemma ClassesCompleteIff(ts: seq<Trace>)
    ensures CountIf(ts, OfClass(0)) + CountIf(ts, OfClass(1)) + CountIf(ts, OfClass(2)) + CountIf(ts, NoClass)
         == CountIf(ts, Usable)
       <==> forall i :: 0 <= i < |ts| && Known(ts[i]) ==> 0 <= ts[i].trueClass.value <= 2
  {
    ClassesAddUp(ts);
    if forall i :: 0 <= i < |ts| && Known(ts[i]) ==> 0 <= ts[i].trueClass.value <= 2 {
      CountIfNone(ts, Stray);
    } else {
      var i :| 0 <= i < |ts| && Known(ts[i]) && !(0 <= ts[i].trueClass.value <= 2);
      CountIfSome(ts, Stray, i);
    }
  }

  // ---- judging the classifier ----

  predicate Judged(t: Trace) { t.trueClass.Some? && t.estimated.Some? }

  predicate Correct(t: Trace) { Judged(t) && t.estimated.value == t.trueClass.value }

  predicate Optimistic(t: Trace) { Judged(t) && t.estimated.value < t.trueClass.value }

  predicate Pessimistic(t: Trace) { Judged(t) && t.trueClass.value < t.estimated.value }

  predicate Wrong(t: Trace) { Optimistic(t) || Pessimistic(t) }

  /** Every judged ticket is correct, optimistic or pessimistic, and exactly one of them. */
  lemma {:induction false} JudgementsAddUp(ts: seq<Trace>)
    ensures CountIf(ts, Correct) + CountIf(ts, Optimistic) + CountIf(ts, Pessimistic) == CountIf(ts, Judged)
  {
    CountIfSplit(ts, Optimistic, Pessimistic, Wrong);
    CountIfSplit(ts, Correct, Wrong, Judged);
  }

  /** An optimistic error is one that gives the client a heavier page than its link bears, a pessimistic one a lighter. */
  lemma JudgedByPage(t: Trace, actual: AccessClass, guess: AccessClass)
    requires t.trueClass == Some(actual.Rank()) && t.estimated == Some(guess.Rank())
    ensures Optimistic(t) <==> VariantFor(actual).Weight() < VariantFor(guess).Weight()
    ensures Pessimistic(t) <==> VariantFor(guess).Weight() < VariantFor(actual).Weight()
    ensures Correct(t) <==> actual == guess
  {
  }
}
