/** The bounded queue in front of the origin's concurrency semaphore, under any interleaving of arrivals,
    wake-ups, departures and cancellations. The semaphore is asyncio's: first in, first out, and a permit that
    is handed to a waiter stays its own until the waiter runs. */
module OriginSlots {
  import opened Seqs

  type RequestId = nat

  /** A queued request: its future is pending, holds a permit, was cancelled, or was cancelled after
      the permit had been handed over. */
  datatype Status = Pending | Granted | Cancelled | GrantedCancelled

  datatype Waiter = Waiter(id: RequestId, status: Status)

  datatype Slots = Slots(
    limit: nat,
    queueLimit: nat,
    value: nat,
    waiters: seq<Waiter>,
    waiting: int,
    inFlight: int,
    serving: set<RequestId>,
    arrivals: nat,
    rejected: nat,
    served: nat,
    abandoned: nat,
    cancelledQueued: nat
  )

  function Initial(limit: nat, queueLimit: nat): Slots {
    Slots(limit, queueLimit, limit, [], 0, 0, {}, 0, 0, 0, 0, 0)
  }

  datatype Step =
    | Arrive(id: RequestId)
    | Cancel(i: nat)
    | Resume(i: nat)
    | Leave(id: RequestId, completed: bool)

  predicate Holds(w: Waiter) { w.status == Granted || w.status == GrantedCancelled }

  predicate IsPending(w: Waiter) { w.status == Pending }

  /** The semaphore cannot be taken at once: no permit is free, or somebody queued is ahead. */
  predicate Locked(s: Slots) {
    s.value == 0 || exists i :: 0 <= i < |s.waiters| && s.waiters[i].status != Cancelled
  }

  /** Hand a permit to the first pending waiter. */
  function Grant(ws: seq<Waiter>): (r: seq<Waiter>)
    ensures |r| == |ws|
  {
    if ws == [] then []
    else if ws[0].status == Pending then [ws[0].(status := Granted)] + ws[1..]
    else [ws[0]] + Grant(ws[1..])
  }

  predicate AnyPending(ws: seq<Waiter>) {
    exists i :: 0 <= i < |ws| && ws[i].status == Pending
  }

  function WakeUpNext(s: Slots): Slots {
    if 0 < s.value && AnyPending(s.waiters) then s.(value := s.value - 1, waiters := Grant(s.waiters)) else s
  }

  function Remove(ws: seq<Waiter>, i: nat): seq<Waiter>
    requires i < |ws|
  {
    ws[..i] + ws[i+1..]
  }

  function DoArrive(s: Slots, id: RequestId): Slots {
    if s.queueLimit <= s.waiting then s.(arrivals := s.arrivals + 1, rejected := s.rejected + 1)
    else if !Locked(s) then
      s.(arrivals := s.arrivals + 1, value := s.value - 1, inFlight := s.inFlight + 1, serving := s.serving + {id})
    else s.(arrivals := s.arrivals + 1, waiting := s.waiting + 1, waiters := s.waiters + [Waiter(id, Pending)])
  }

  function DoCancel(s: Slots, i: nat): Slots {
    if |s.waiters| <= i then s else
    match s.waiters[i].status
    case Pending => s.(waiters := s.waiters[i := s.waiters[i].(status := Cancelled)])
    case Granted => s.(waiters := s.waiters[i := s.waiters[i].(status := GrantedCancelled)])
    case _ => s
  }

  function DoResume(s: Slots, i: nat): Slots {
    if |s.waiters| <= i then s else
    var rest := s.(waiters := Remove(s.waiters, i), waiting := s.waiting - 1);
    match s.waiters[i].status
    case Pending => s
    case Granted => WakeUpNext(rest).(inFlight := s.inFlight + 1, serving := s.serving + {s.waiters[i].id})
    case Cancelled => rest.(cancelledQueued := s.cancelledQueued + 1)
    case GrantedCancelled => WakeUpNext(rest.(value := s.value + 1)).(cancelledQueued := s.cancelledQueued + 1)
  }

  function DoLeave(s: Slots, id: RequestId, completed: bool): Slots {
    if id !in s.serving then s else
    WakeUpNext(s.(value := s.value + 1, inFlight := s.inFlight - 1, serving := s.serving - {id},
                  served := if completed then s.served + 1 else s.served,
                  abandoned := if completed then s.abandoned else s.abandoned + 1))
  }

  function Next(s: Slots, step: Step): Slots {
    match step
    case Arrive(id) => DoArrive(s, id)
    case Cancel(i) => DoCancel(s, i)
    case Resume(i) => DoResume(s, i)
    case Leave(id, completed) => DoLeave(s, id, completed)
  }

  function Run(s: Slots, steps: seq<Step>): Slots
    decreases |steps|
  {
    if steps == [] then s else Run(Next(s, steps[0]), steps[1..])
  }

  /** An arrival carries an id that nobody in the system uses. */
  ghost predicate FreshArrival(s: Slots, step: Step) {
    step.Arrive? ==> step.id !in s.serving && forall i :: 0 <= i < |s.waiters| ==> s.waiters[i].id != step.id
  }

  ghost predicate FreshRun(s: Slots, steps: seq<Step>)
    decreases |steps|
  {
    steps == [] || (FreshArrival(s, steps[0]) && FreshRun(Next(s, steps[0]), steps[1..]))
  }

  // ---- the invariant ----

  /** Permits go to the front of the queue. */
  ghost predicate Fifo(ws: seq<Waiter>) {
    forall i, j :: 0 <= i < j < |ws| && IsPending(ws[i]) ==> !Holds(ws[j])
  }

  /** A free permit with somebody pending means that a waiter that holds a permit has still to run and pass
      the wake-up on. */
  ghost predicate Attended(value: nat, ws: seq<Waiter>) {
    0 < value && AnyPending(ws) ==> exists i :: 0 <= i < |ws| && Holds(ws[i])
  }

  /** Nobody is queued twice, or both queued and in service. */
  ghost predicate Apart(ws: seq<Waiter>, serving: set<RequestId>) {
    && (forall i :: 0 <= i < |ws| ==> ws[i].id !in serving)
    && (forall i, j :: 0 <= i < j < |ws| ==> ws[i].id != ws[j].id)
  }

  /** No permit is lost or invented, the queue is bounded, every arrival is accounted for. */
  ghost predicate Conserved(s: Slots) {
    && s.value + CountIf(s.waiters, Holds) + s.inFlight == s.limit
    && s.waiting == |s.waiters| <= s.queueLimit
    && s.inFlight == |s.serving|
    && s.arrivals == s.rejected + s.waiting + s.inFlight + s.served + s.abandoned + s.cancelledQueued
  }

  ghost predicate Inv(s: Slots) {
    Conserved(s) && Apart(s.waiters, s.serving) && Fifo(s.waiters) && Attended(s.value, s.waiters)
  }

  // ---- the queue, one waiter changed or removed ----

  lemma {:induction false} GrantFacts(ws: seq<Waiter>) returns (k: nat)
    requires AnyPending(ws)
    ensures k < |ws| && ws[k].status == Pending && Grant(ws) == ws[k := ws[k].(status := Granted)]
    ensures forall i :: 0 <= i < k ==> !IsPending(ws[i])
  {
    if ws[0].status == Pending {
      k := 0;
    } else {
      var i :| 0 <= i < |ws| && ws[i].status == Pending;
      assert ws[1..][i-1].status == Pending;
      var j := GrantFacts(ws[1..]);
      k := j + 1;
      assert forall i :: 0 < i < k ==> ws[i] == ws[1..][i-1];
    }
  }

  /** Changing one element changes a count by what that element contributes. */
  lemma {:induction false} UpdateCount(ws: seq<Waiter>, i: nat, w: Waiter, p: Waiter -> bool)
    requires i < |ws|
    ensures CountIf(ws[i := w], p) + (if p(ws[i]) then 1 else 0) == CountIf(ws, p) + if p(w) then 1 else 0
  {
    var most := ws[..|ws|-1];
    if i == |ws| - 1 {
      assert ws[i := w][..|ws|-1] == most;
    } else {
      assert ws[i := w][..|ws|-1] == most[i := w];
      UpdateCount(most, i, w, p);
    }
  }

  lemma {:induction false} RemoveCount(ws: seq<Waiter>, i: nat, p: Waiter -> bool)
    requires i < |ws|
    ensures CountIf(Remove(ws, i), p) + (if p(ws[i]) then 1 else 0) == CountIf(ws, p)
  {
    var most, r := ws[..|ws|-1], Remove(ws, i);
    if i == |ws| - 1 {
      assert r == most;
    } else {
      assert r[..|r|-1] == Remove(most, i);
      RemoveCount(most, i, p);
    }
  }

  /** What stays behind keeps its place, its order and its own ids. */
  lemma RemoveKeeps(ws: seq<Waiter>, i: nat, serving: set<RequestId>)
    requires i < |ws| && Fifo(ws) && Apart(ws, serving)
    ensures var r := Remove(ws, i); |r| == |ws| - 1 && Fifo(r) && Apart(r, serving + {ws[i].id})
  {
    var r := Remove(ws, i);
    assert forall a :: 0 <= a < |r| ==> r[a] == if a < i then ws[a] else ws[a+1];
  }

  /** Removing a waiter that holds no permit leaves nobody unattended. */
  lemma RemoveAttended(value: nat, ws: seq<Waiter>, i: nat)
    requires i < |ws| && !Holds(ws[i]) && Attended(value, ws)
    ensures Attended(value, Remove(ws, i))
  {
    var r := Remove(ws, i);
    if 0 < value && AnyPending(r) {
      var p :| 0 <= p < |r| && r[p].status == Pending;
      assert ws[if p < i then p else p + 1].status == Pending;
      var h :| 0 <= h < |ws| && Holds(ws[h]);
      assert Holds(r[if h < i then h else h - 1]);
    }
  }

  /** The woken waiter takes one permit, in turn, and will pass the wake-up on. */
  lemma GrantKeeps(ws: seq<Waiter>, serving: set<RequestId>)
    requires AnyPending(ws) && Fifo(ws) && Apart(ws, serving)
    ensures var r := Grant(ws); Fifo(r) && Apart(r, serving) && CountIf(r, Holds) == CountIf(ws, Holds) + 1
    ensures forall v: nat :: Attended(v, Grant(ws))
  {
    var k := GrantFacts(ws);
    UpdateCount(ws, k, ws[k].(status := Granted), Holds);
    var r := Grant(ws);
    assert forall i :: 0 <= i < |r| && i != k ==> r[i] == ws[i];
    assert Holds(r[k]);
  }

  /** A wake-up moves a permit, keeps the order, and leaves no free permit with a pending waiter unattended. */
  lemma WakeKeeps(s: Slots)
    requires Conserved(s) && Apart(s.waiters, s.serving) && Fifo(s.waiters)
    ensures Inv(WakeUpNext(s))
  {
    if 0 < s.value && AnyPending(s.waiters) {
      GrantKeeps(s.waiters, s.serving);
    }
  }

  // ---- the steps ----

  lemma JoinKeeps(ws: seq<Waiter>, id: RequestId, serving: set<RequestId>)
    requires Fifo(ws) && Apart(ws, serving + {id}) && id !in serving
    ensures var r := ws + [Waiter(id, Pending)]; Fifo(r) && Apart(r, serving) && CountIf(r, Holds) == CountIf(ws, Holds)
  {
    var r := ws + [Waiter(id, Pending)];
    assert r[..|ws|] == ws;
    assert forall i :: 0 <= i < |ws| ==> ws[i].id != id && ws[i].id !in serving;
  }

  lemma JoinAttended(value: nat, ws: seq<Waiter>, id: RequestId)
    requires Attended(value, ws) && (value == 0 || exists i :: 0 <= i < |ws| && ws[i].status != Cancelled)
    ensures Attended(value, ws + [Waiter(id, Pending)])
  {
    if 0 < value {
      var i :| 0 <= i < |ws| && ws[i].status != Cancelled;
      assert Holds(ws[i]) || AnyPending(ws);
      var h :| 0 <= h < |ws| && Holds(ws[h]);
      assert Holds((ws + [Waiter(id, Pending)])[h]);
    }
  }

  lemma ArriveKeeps(s: Slots, id: RequestId)
    requires Inv(s) && FreshArrival(s, Arrive(id))
    ensures Inv(DoArrive(s, id))
  {
    if s.waiting < s.queueLimit {
      if Locked(s) {
        JoinKeeps(s.waiters, id, s.serving);
        JoinAttended(s.value, s.waiters, id);
      } else {
        assert |s.serving + {id}| == |s.serving| + 1;
      }
    }
  }

  lemma CancelledKeeps(value: nat, ws: seq<Waiter>, i: nat, w: Waiter, serving: set<RequestId>)
    requires Fifo(ws) && Apart(ws, serving) && Attended(value, ws)
    requires i < |ws| && w.id == ws[i].id && Holds(w) == Holds(ws[i]) && !IsPending(w)
    ensures var r := ws[i := w];
            Fifo(r) && Apart(r, serving) && Attended(value, r) && CountIf(r, Holds) == CountIf(ws, Holds)
  {
    var r := ws[i := w];
    UpdateCount(ws, i, w, Holds);
    if 0 < value && AnyPending(r) {
      var p :| 0 <= p < |r| && r[p].status == Pending;
      assert ws[p].status == Pending;
      var h :| 0 <= h < |ws| && Holds(ws[h]);
      assert Holds(r[h]);
    }
  }

  lemma CancelKeeps(s: Slots, i: nat)
    requires Inv(s)
    ensures Inv(DoCancel(s, i))
  {
    if i < |s.waiters| {
      var w := s.waiters[i];
      if w.status == Pending {
        CancelledKeeps(s.value, s.waiters, i, w.(status := Cancelled), s.serving);
      } else if w.status == Granted {
        CancelledKeeps(s.value, s.waiters, i, w.(status := GrantedCancelled), s.serving);
      }
    }
  }

  lemma CancelledResumes(s: Slots, i: nat)
    requires Inv(s) && i < |s.waiters| && s.waiters[i].status == Cancelled
    ensures Inv(DoResume(s, i))
  {
    RemoveCount(s.waiters, i, Holds);
    RemoveKeeps(s.waiters, i, s.serving);
    RemoveAttended(s.value, s.waiters, i);
  }

  /** A waiter cancelled after its grant has given the permit back, to be passed on. */
  function GaveBack(s: Slots, i: nat): Slots
    requires i < |s.waiters|
  {
    s.(waiters := Remove(s.waiters, i), waiting := s.waiting - 1, value := s.value + 1, cancelledQueued := s.cancelledQueued + 1)
  }

  lemma GaveBackKeeps(s: Slots, i: nat)
    requires Inv(s) && i < |s.waiters| && s.waiters[i].status == GrantedCancelled
    ensures var r := GaveBack(s, i); Conserved(r) && Apart(r.waiters, r.serving) && Fifo(r.waiters)
  {
    RemoveCount(s.waiters, i, Holds);
    RemoveKeeps(s.waiters, i, s.serving);
  }

  lemma GrantedCancelledResumes(s: Slots, i: nat)
    requires Inv(s) && i < |s.waiters| && s.waiters[i].status == GrantedCancelled
    ensures Inv(DoResume(s, i))
  {
    GaveBackKeeps(s, i);
    WakeKeeps(GaveBack(s, i));
    assert DoResume(s, i) == WakeUpNext(GaveBack(s, i));
  }

  /** A granted waiter has entered service, and the wake-up is still to be passed on. */
  function Entered(s: Slots, i: nat): Slots
    requires i < |s.waiters|
  {
    s.(waiters := Remove(s.waiters, i), waiting := s.waiting - 1, inFlight := s.inFlight + 1,
       serving := s.serving + {s.waiters[i].id})
  }

  lemma EnteredKeeps(s: Slots, i: nat)
    requires Inv(s) && i < |s.waiters| && s.waiters[i].status == Granted
    ensures var r := Entered(s, i); Conserved(r) && Apart(r.waiters, r.serving) && Fifo(r.waiters)
  {
    RemoveCount(s.waiters, i, Holds);
    RemoveKeeps(s.waiters, i, s.serving);
    assert |s.serving + {s.waiters[i].id}| == |s.serving| + 1;
  }

  lemma GrantedResumes(s: Slots, i: nat)
    requires Inv(s) && i < |s.waiters| && s.waiters[i].status == Granted
    ensures Inv(DoResume(s, i))
  {
    EnteredKeeps(s, i);
    WakeKeeps(Entered(s, i));
    assert DoResume(s, i) == WakeUpNext(Entered(s, i));
  }

  lemma ResumeKeeps(s: Slots, i: nat)
    requires Inv(s)
    ensures Inv(DoResume(s, i))
  {
    if i < |s.waiters| {
      match s.waiters[i].status
      case Pending =>
      case Granted => GrantedResumes(s, i);
      case Cancelled => CancelledResumes(s, i);
      case GrantedCancelled => GrantedCancelledResumes(s, i);
    }
  }

  lemma LeaveKeeps(s: Slots, id: RequestId, completed: bool)
    requires Inv(s)
    ensures Inv(DoLeave(s, id, completed))
  {
    if id in s.serving {
      assert |s.serving - {id}| == |s.serving| - 1;
      WakeKeeps(s.(value := s.value + 1, inFlight := s.inFlight - 1, serving := s.serving - {id},
                   served := if completed then s.served + 1 else s.served,
                   abandoned := if completed then s.abandoned else s.abandoned + 1));
    }
  }

  lemma StepKeeps(s: Slots, step: Step)
    requires Inv(s) && FreshArrival(s, step)
    ensures Inv(Next(s, step))
  {
    match step
    case Arrive(id) => ArriveKeeps(s, id);
    case Cancel(i) => CancelKeeps(s, i);
    case Resume(i) => ResumeKeeps(s, i);
    case Leave(id, completed) => LeaveKeeps(s, id, completed);
  }

  lemma {:induction false} RunKeeps(s: Slots, steps: seq<Step>)
    requires Inv(s) && FreshRun(s, steps)
    ensures Inv(Run(s, steps))
    decreases |steps|
  {
    if steps != [] {
      StepKeeps(s, steps[0]);
      RunKeeps(Next(s, steps[0]), steps[1..]);
    }
  }

  /** Over every run: the queue and the service stay within their limits and every arrival is accounted for. */
  lemma BoundedAndConserved(limit: nat, queueLimit: nat, steps: seq<Step>)
    requires FreshRun(Initial(limit, queueLimit), steps)
    ensures var s := Run(Initial(limit, queueLimit), steps);
            && 0 <= s.waiting <= queueLimit && 0 <= s.inFlight <= limit
            && s.arrivals == s.rejected + s.waiting + s.inFlight + s.served + s.abandoned + s.cancelledQueued
  {
    RunKeeps(Initial(limit, queueLimit), steps);
    LimitsStay(Initial(limit, queueLimit), steps);
  }

  lemma {:induction false} LimitsStay(s: Slots, steps: seq<Step>)
    ensures Run(s, steps).limit == s.limit && Run(s, steps).queueLimit == s.queueLimit
    decreases |steps|
  {
    if steps != [] {
      LimitsStay(Next(s, steps[0]), steps[1..]);
    }
  }

  /** Work conservation: once every woken or cancelled waiter has run, requests queue only while all slots are busy. */
  lemma QueueOnlyWhenFull(s: Slots)
    requires Inv(s) && s.waiters != [] && forall i :: 0 <= i < |s.waiters| ==> s.waiters[i].status == Pending
    ensures s.inFlight == s.limit
  {
    CountIfNone(s.waiters, Holds);
    assert AnyPending(s.waiters) by { assert s.waiters[0].status == Pending; }
  }

  // ---- what each step counts ----

  /** An arrival is shed exactly when the queue is full; otherwise it is served at once exactly when a permit is free
      and nobody queues alive, and else it queues last. */
  lemma ArrivalGoesWhere(s: Slots, id: RequestId)
    ensures var r := Next(s, Arrive(id));
            var full := s.queueLimit <= s.waiting;
            var direct := 0 < s.value && forall i :: 0 <= i < |s.waiters| ==> s.waiters[i].status == Cancelled;
            && r.arrivals == s.arrivals + 1
            && r.rejected == s.rejected + (if full then 1 else 0)
            && r.serving == (if !full && direct then s.serving + {id} else s.serving)
            && r.inFlight == s.inFlight + (if !full && direct then 1 else 0)
            && r.value == s.value - (if !full && direct then 1 else 0)
            && r.waiters == (if full || direct then s.waiters else s.waiters + [Waiter(id, Pending)])
            && r.waiting == s.waiting + (if full || direct then 0 else 1)
            && r.served == s.served && r.abandoned == s.abandoned && r.cancelledQueued == s.cancelledQueued
  {
  }

  /** A departure is counted as served exactly when the request completed and as abandoned exactly when its client went
      away; a waiter that runs enters service exactly when it holds a permit and was not cancelled. */
  lemma CountedOnce(s: Slots, step: Step)
    requires !step.Arrive?
    ensures var r := Next(s, step);
            && r.arrivals == s.arrivals && r.rejected == s.rejected
            && r.served == s.served + (if step.Leave? && step.id in s.serving && step.completed then 1 else 0)
            && r.abandoned == s.abandoned + (if step.Leave? && step.id in s.serving && !step.completed then 1 else 0)
            && r.cancelledQueued == s.cancelledQueued
               + (if step.Resume? && step.i < |s.waiters| && s.waiters[step.i].status in {Cancelled, GrantedCancelled} then 1 else 0)
            && r.serving == (if step.Leave? then s.serving - {step.id}
                             else if step.Resume? && step.i < |s.waiters| && s.waiters[step.i].status == Granted
                                  then s.serving + {s.waiters[step.i].id}
                             else s.serving)
  {
  }

  /** A cancellation marks its waiter, which keeps its place and any permit it was handed, and nothing else. */
  lemma CancelMarks(s: Slots, i: nat)
    requires i < |s.waiters|
    ensures var r := Next(s, Cancel(i));
            && r == s.(waiters := r.waiters) && |r.waiters| == |s.waiters|
            && r.waiters[i] == Waiter(s.waiters[i].id, if Holds(s.waiters[i]) then GrantedCancelled else Cancelled)
            && forall j :: 0 <= j < |s.waiters| && j != i ==> r.waiters[j] == s.waiters[j]
  {
  }

  /** The departures of a run that completed, or that did not. */
  function Departures(s: Slots, steps: seq<Step>, completed: bool): nat
    decreases |steps|
  {
    if steps == [] then 0 else
    (if steps[0].Leave? && steps[0].id in s.serving && steps[0].completed == completed then 1 else 0)
    + Departures(Next(s, steps[0]), steps[1..], completed)
  }

  /** Over every run the two counters are the completed and the abandoned departures. */
  lemma {:induction false} DeparturesCounted(s: Slots, steps: seq<Step>)
    ensures Run(s, steps).served == s.served + Departures(s, steps, true)
    ensures Run(s, steps).abandoned == s.abandoned + Departures(s, steps, false)
    decreases |steps|
  {
    if steps != [] {
      if steps[0].Arrive? {
        ArrivalGoesWhere(s, steps[0].id);
      } else {
        CountedOnce(s, steps[0]);
      }
      DeparturesCounted(Next(s, steps[0]), steps[1..]);
    }
  }

  // ---- served in the order of arrival ----

  ghost predicate Waits(ws: seq<Waiter>, a: RequestId) {
    exists i :: 0 <= i < |ws| && ws[i] == Waiter(a, Pending)
  }

  /** `a` waits at `i`, and `b`, if it is queued at all, only behind it. */
  ghost predicate WaitsAt(ws: seq<Waiter>, a: RequestId, b: RequestId, i: nat) {
    i < |ws| && ws[i] == Waiter(a, Pending) && forall j :: 0 <= j < |ws| && ws[j].id == b ==> i < j
  }

  /** `a` waits, and `b` is neither in service nor ahead of it. */
  ghost predicate Precedes(s: Slots, a: RequestId, b: RequestId) {
    b !in s.serving && exists i :: WaitsAt(s.waiters, a, b, i)
  }

  lemma WakePrecedes(s: Slots, a: RequestId, b: RequestId)
    requires Precedes(s, a, b) && Waits(WakeUpNext(s).waiters, a)
    requires forall i, j :: 0 <= i < j < |s.waiters| ==> s.waiters[i].id != s.waiters[j].id
    ensures Precedes(WakeUpNext(s), a, b)
  {
    var i :| WaitsAt(s.waiters, a, b, i);
    if 0 < s.value && AnyPending(s.waiters) {
      var k := GrantFacts(s.waiters);
      var r := WakeUpNext(s).waiters;
      var p :| 0 <= p < |r| && r[p] == Waiter(a, Pending);
      assert s.waiters[p].id == a && p == i;
      assert WaitsAt(r, a, b, i);
    } else {
      assert WaitsAt(WakeUpNext(s).waiters, a, b, i);
    }
  }

  lemma RemovePrecedes(ws: seq<Waiter>, k: nat, a: RequestId, b: RequestId, i: nat)
    requires k < |ws| && k != i && WaitsAt(ws, a, b, i)
    ensures WaitsAt(Remove(ws, k), a, b, if k < i then i - 1 else i)
  {
    var r := Remove(ws, k);
    assert forall j :: 0 <= j < |r| ==> r[j] == if j < k then ws[j] else ws[j+1];
  }

  /** A woken waiter runs; it is not `b`, because permits go to the front. */
  lemma ResumePrecedes(s: Slots, k: nat, a: RequestId, b: RequestId)
    requires Inv(s) && Precedes(s, a, b) && Waits(DoResume(s, k).waiters, a)
    ensures Precedes(DoResume(s, k), a, b)
  {
    if k < |s.waiters| && s.waiters[k].status != Pending {
      var i :| WaitsAt(s.waiters, a, b, i);
      RemovePrecedes(s.waiters, k, a, b, i);
      RemoveKeeps(s.waiters, k, s.serving);
      var rest := s.(waiters := Remove(s.waiters, k), waiting := s.waiting - 1);
      assert Precedes(rest, a, b);
      match s.waiters[k].status
      case Granted => WakePrecedes(rest, a, b);
      case Cancelled =>
      case GrantedCancelled => WakePrecedes(rest.(value := s.value + 1), a, b);
    }
  }

  lemma ArrivePrecedes(s: Slots, id: RequestId, a: RequestId, b: RequestId)
    requires Precedes(s, a, b)
    ensures Precedes(DoArrive(s, id), a, b)
  {
    var i: nat :| WaitsAt(s.waiters, a, b, i);
    assert s.waiters[i].status != Cancelled;
    assert WaitsAt(DoArrive(s, id).waiters, a, b, i);
  }

  lemma CancelPrecedes(s: Slots, k: nat, a: RequestId, b: RequestId)
    requires Apart(s.waiters, s.serving) && Precedes(s, a, b) && Waits(DoCancel(s, k).waiters, a)
    ensures Precedes(DoCancel(s, k), a, b)
  {
    var i: nat :| WaitsAt(s.waiters, a, b, i);
    var r := DoCancel(s, k).waiters;
    var p :| 0 <= p < |r| && r[p] == Waiter(a, Pending);
    assert s.waiters[p].id == a && s.waiters[i].id == a;
    assert WaitsAt(r, a, b, i);
  }

  lemma LeavePrecedes(s: Slots, id: RequestId, completed: bool, a: RequestId, b: RequestId)
    requires Apart(s.waiters, s.serving) && Precedes(s, a, b) && Waits(DoLeave(s, id, completed).waiters, a)
    ensures Precedes(DoLeave(s, id, completed), a, b)
  {
    if id in s.serving {
      var s1 := s.(value := s.value + 1, inFlight := s.inFlight - 1, serving := s.serving - {id},
                   served := if completed then s.served + 1 else s.served,
                   abandoned := if completed then s.abandoned else s.abandoned + 1);
      assert Precedes(s1, a, b);
      WakePrecedes(s1, a, b);
    }
  }

  lemma StepPrecedes(s: Slots, step: Step, a: RequestId, b: RequestId)
    requires Inv(s) && Precedes(s, a, b) && Waits(Next(s, step).waiters, a)
    ensures Precedes(Next(s, step), a, b)
  {
    match step
    case Arrive(id) => ArrivePrecedes(s, id, a, b);
    case Cancel(k) => CancelPrecedes(s, k, a, b);
    case Resume(k) => ResumePrecedes(s, k, a, b);
    case Leave(id, completed) => LeavePrecedes(s, id, completed, a, b);
  }

  ghost predicate KeepsWaiting(s: Slots, steps: seq<Step>, a: RequestId)
    decreases |steps|
  {
    Waits(s.waiters, a) && (steps == [] || KeepsWaiting(Next(s, steps[0]), steps[1..], a))
  }

  /** No overtaking, over every run: while a request waits, nobody who queues behind it or has yet to arrive gets
      into service. */
  lemma {:induction false} NoOvertaking(s: Slots, steps: seq<Step>, a: RequestId, b: RequestId)
    requires Inv(s) && FreshRun(s, steps) && Precedes(s, a, b) && KeepsWaiting(s, steps, a)
    ensures Precedes(Run(s, steps), a, b) && b !in Run(s, steps).serving
    decreases |steps|
  {
    if steps != [] {
      StepKeeps(s, steps[0]);
      StepPrecedes(s, steps[0], a, b);
      NoOvertaking(Next(s, steps[0]), steps[1..], a, b);
    }
  }

  // ---- in place ----

  /** The state behind the handlers: the two counters around the semaphore, and the semaphore. */
  class OriginState {
    const limit: nat
    const queueLimit: nat
    var waiting: int
    var inFlight: int
    var value: nat
    var waiters: seq<Waiter>
    var serving: set<RequestId>
    var arrivals: nat
    var rejected: nat
    var served: nat
    var abandoned: nat
    var cancelledQueued: nat

    ghost function Contents(): Slots
      reads this
    {
      Slots(limit, queueLimit, value, waiters, waiting, inFlight, serving, arrivals, rejected, served, abandoned, cancelledQueued)
    }

    constructor (limit: nat, queueLimit: nat)
      ensures Contents() == Initial(limit, queueLimit)
    {
      this.limit, this.queueLimit := limit, queueLimit;
      waiting, inFlight, value, waiters, serving := 0, 0, limit, [], {};
      arrivals, rejected, served, abandoned, cancelledQueued := 0, 0, 0, 0, 0;
    }

    /** Wake the first waiter that is not done, if a permit is free. */
    method WakeUp()
      modifies this
      ensures Contents() == WakeUpNext(old(Contents()))
    {
      if value == 0 {
        return;
      }
      for i := 0 to |waiters|
        invariant Contents() == old(Contents())
        invariant forall j :: 0 <= j < i ==> waiters[j].status != Pending
      {
        if waiters[i].status == Pending {
          var k := GrantFacts(waiters);
          value := value - 1;
          waiters := waiters[i := waiters[i].(status := Granted)];
          return;
        }
      }
    }

    /** `/origin/result` up to its first suspension. */
    method Request(id: RequestId) returns (accepted: bool)
      modifies this
      ensures Contents() == DoArrive(old(Contents()), id)
      ensures accepted == (old(waiting) < queueLimit)
    {
      arrivals := arrivals + 1;
      if queueLimit <= waiting {
        rejected := rejected + 1;
        return false;
      }
      waiting := waiting + 1;
      var locked := value == 0 || exists i :: 0 <= i < |waiters| && waiters[i].status != Cancelled;
      if locked {
        waiters := waiters + [Waiter(id, Pending)];
      } else {
        value := value - 1;
        waiting := waiting - 1;
        inFlight := inFlight + 1;
        serving := serving + {id};
      }
      accepted := true;
    }

    /** A queued request runs again: it was granted a permit, or cancelled, or both. */
    method Resumed(i: nat)
      requires i < |waiters| && waiters[i].status != Pending
      modifies this
      ensures Contents() == DoResume(old(Contents()), i)
    {
      var w := waiters[i];
      waiters := Remove(waiters, i);
      if w.status == Cancelled {
        waiting := waiting - 1;
        cancelledQueued := cancelledQueued + 1;
      } else if w.status == GrantedCancelled {
        value := value + 1;
        WakeUp();
        waiting := waiting - 1;
        cancelledQueued := cancelledQueued + 1;
      } else {
        if 0 < value {
          WakeUp();
        }
        waiting := waiting - 1;
        inFlight := inFlight + 1;
        serving := serving + {w.id};
      }
    }

    /** A request in service ends, by finishing or because its client went away. */
    method Left(id: RequestId, completed: bool)
      requires id in serving
      modifies this
      ensures Contents() == DoLeave(old(Contents()), id, completed)
    {
      if completed {
        served := served + 1;
      } else {
        abandoned := abandoned + 1;
      }
      inFlight := inFlight - 1;
      serving := serving - {id};
      value := value + 1;
      WakeUp();
    }
  }
}
