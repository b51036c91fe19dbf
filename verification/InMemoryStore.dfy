/** The in-memory ticket store: two lists kept sorted, changed in place. */
module InMemoryStore {
  import opened Classes
  import opened Seqs
  import opened QueueStore
  import opened StoreLaws

  /** The store over two sorted lists. Each method holds the lock, so it is one step. */
  class InMemoryQueueStore {
    var lastSeq: int
    var tickets: map<Tid, Ticket>
    var waiting: seq<Waiter>
    var inflight: seq<Flight>
    var counters: Counters

    ghost function Contents(): Store
      reads this
    {
      Store(lastSeq, tickets, waiting, inflight, counters)
    }

    constructor ()
      ensures Contents() == EMPTY_STORE
    {
      lastSeq, tickets, waiting, inflight := 0, map[], [], [];
      counters := Counters(ZERO_TALLY, ZERO_TALLY, ZERO_TALLY);
    }

    method NextSeq() returns (r: int)
      modifies this
      ensures Contents() == QueueStore.NextSeq(old(Contents())) && r == lastSeq
    {
      lastSeq := lastSeq + 1;
      r := lastSeq;
    }

    method CreateTicket(tid: Tid, score: int, trueClass: AccessClass, cls: AccessClass,
                        attempt: int, expiresAt: Option<real>)
      modifies this
      ensures Contents() == QueueStore.CreateTicket(old(Contents()), tid, score, trueClass, cls, attempt, expiresAt)
    {
      tickets := tickets[tid := Ticket(WAITING, attempt, cls, trueClass, score, expiresAt)];
      waiting := waiting + [Waiter(score, tid)];
      waiting := SortBy(WAITER_KEY, waiting);
      counters := counters.(waiting := counters.waiting.Add(trueClass, 1));
    }

    method GetTicket(tid: Tid) returns (t: Option<Ticket>)
      ensures t == QueueStore.GetTicket(Contents(), tid)
    {
      t := if tid in tickets then Some(tickets[tid]) else None;
    }

    method AdmitN(n: int, now: real, windows: AccessClass -> real) returns (admitted: seq<Flight>)
      requires Known(Contents())
      modifies this
      ensures Contents() == QueueStore.AdmitN(old(Contents()), n, now, windows)
      ensures admitted == AdmittedBy(old(Contents()), n, now, windows)
    {
      ghost var s := Contents();
      ghost var h := Head(waiting, n);
      admitted := [];
      var toPop := if n <= |waiting| then n else |waiting|;
      var k := 0;
      AfterZero(s, h, now, windows);
      while k < toPop
        invariant 0 <= k <= |h| && h == s.waiting[..|h|]
        invariant toPop <= 0 ==> k == |h|
        invariant 0 < toPop ==> toPop == |h|
        invariant Contents() == After(s, h, k, now, windows)
        invariant admitted == Grants(s.tickets, h[..k], now, windows)
      {
        var f := AdmitFirst(now, windows, s, h, k);
        admitted := admitted + [f];
        k := k + 1;
      }
      assert h[..k] == h;
      inflight := SortBy(FLIGHT_KEY, inflight);
    }

    /** The body of the admission loop. */
    method AdmitFirst(now: real, windows: AccessClass -> real, ghost s: Store, ghost h: seq<Waiter>, ghost k: nat) returns (f: Flight)
      requires Known(s) && k < |h| <= |s.waiting| && h == s.waiting[..|h|] && Contents() == After(s, h, k, now, windows)
      modifies this
      ensures Contents() == After(s, h, k + 1, now, windows)
      ensures Grants(s.tickets, h[..k+1], now, windows) == Grants(s.tickets, h[..k], now, windows) + [f]
    {
      AfterStep(s, h, k, now, windows);
      var tid := waiting[0].tid;
      waiting := waiting[1..];
      var t := tickets[tid];
      var exp := now + windows(t.cls);
      tickets := tickets[tid := t.(state := ADMITTED, expiresAt := Some(exp))];
      f := Flight(exp, tid);
      inflight := inflight + [f];
      counters := counters.(waiting := counters.waiting.Add(t.trueClass, -1));
    }

    method Reinsert(tid: Tid, score: int, newClass: Option<AccessClass>, attempt: Option<int>)
      requires tid in tickets
      modifies this
      ensures Contents() == QueueStore.Reinsert(old(Contents()), tid, score, newClass, attempt)
    {
      var t := tickets[tid];
      if newClass.Some? {
        t := t.(cls := newClass.value);
      }
      if attempt.Some? {
        t := t.(attempt := attempt.value);
      }
      t := t.(state := WAITING);
      tickets := tickets[tid := t];
      DropFlight(tid);
      waiting := waiting + [Waiter(score, tid)];
      waiting := SortBy(WAITER_KEY, waiting);
      counters := counters.(timedOut := counters.timedOut.Add(t.trueClass, 1));
      counters := counters.(waiting := counters.waiting.Add(t.trueClass, 1));
    }

    method DropFlight(tid: Tid)
      modifies this
      ensures Contents() == old(Contents()).(inflight := Without(old(inflight), tid))
    {
      var kept := [];
      for i := 0 to |inflight|
        invariant kept == Without(inflight[..i], tid) && Contents() == old(Contents())
      {
        assert inflight[..i+1][..i] == inflight[..i];
        if inflight[i].tid != tid {
          kept := kept + [inflight[i]];
        }
      }
      assert inflight[..|inflight|] == inflight;
      inflight := kept;
    }

    method UpdateClass(tid: Tid, newClass: AccessClass)
      modifies this
      ensures Contents() == QueueStore.UpdateClass(old(Contents()), tid, newClass)
    {
      if tid in tickets {
        tickets := tickets[tid := tickets[tid].(cls := newClass)];
      }
    }

    method Position(tid: Tid) returns (r: nat)
      ensures r == QueueStore.Position(Contents(), tid)
    {
      for i := 0 to |waiting|
        invariant forall j :: 0 <= j < i ==> waiting[j].tid != tid
      {
        if waiting[i].tid == tid {
          return i;
        }
      }
      r := 0;
    }

    method WaitingCount() returns (n: nat)
      ensures n == |waiting|
    {
      n := |waiting|;
    }

    method InflightCount() returns (n: nat)
      ensures n == |inflight|
    {
      n := |inflight|;
    }

    method ExpireInflight(now: real) returns (expired: seq<Tid>)
      modifies this
      ensures Contents() == QueueStore.ExpireInflight(old(Contents()), now)
      ensures expired == Expired(old(inflight), now)
    {
      expired := [];
      var kept := [];
      for i := 0 to |inflight|
        invariant expired == Expired(inflight[..i], now) && kept == Kept(inflight[..i], now)
        invariant Contents() == old(Contents())
      {
        assert inflight[..i+1][..i] == inflight[..i];
        if inflight[i].exp <= now {
          expired := expired + [inflight[i].tid];
        } else {
          kept := kept + [inflight[i]];
        }
      }
      assert inflight[..|inflight|] == inflight;
      inflight := kept;
    }

    method Complete(tid: Tid, state: TicketState)
      modifies this
      ensures Contents() == QueueStore.Complete(old(Contents()), tid, state)
    {
      if tid in tickets {
        tickets := tickets[tid := tickets[tid].(state := state)];
        if state == COMPLETED {
          counters := counters.(completed := counters.completed.Add(tickets[tid].trueClass, 1));
        }
      }
      DropFlight(tid);
    }
  }
}
