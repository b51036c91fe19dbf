/** The shape that every operation of the store keeps when its ids and scores are fresh. */
module StoreLaws {
  import opened Classes
  import opened Seqs
  import opened QueueStore

  const WAITER_ID: Waiter -> Tid := (w: Waiter) => w.tid
  const FLIGHT_ID: Flight -> Tid := (f: Flight) => f.tid

  ghost predicate ScoresIncrease(q: seq<Waiter>) {
    forall i, j :: 0 <= i < j < |q| ==> q[i].score < q[j].score
  }

  predicate Flying(fs: seq<Flight>, tid: Tid) {
    exists i :: 0 <= i < |fs| && fs[i].tid == tid
  }

  /** Both lists are sorted and free of repeated ids, no id is in both, and every id has a record. */
  ghost predicate Orderly(s: Store) {
    && Known(s)
    && ScoresIncrease(s.waiting)
    && DistinctBy(WAITER_ID, s.waiting)
    && SortedBy(FLIGHT_KEY, s.inflight)
    && DistinctBy(FLIGHT_ID, s.inflight)
    && forall i :: 0 <= i < |s.inflight| ==> s.inflight[i].tid in s.tickets && !Queued(s.waiting, s.inflight[i].tid)
  }

  ghost predicate FreshScore(q: seq<Waiter>, score: int) {
    forall i :: 0 <= i < |q| ==> q[i].score != score
  }

  // ---- the waiting list ----

  /** Appending an entry with a new score and sorting puts it between the smaller and the larger scores. */
  lemma QueueInsert(q: seq<Waiter>, w: Waiter) returns (k: nat)
    requires ScoresIncrease(q) && FreshScore(q, w.score)
    ensures k <= |q| && SortBy(WAITER_KEY, q + [w]) == q[..k] + [w] + q[k..]
    ensures forall i :: 0 <= i < k ==> q[i].score < w.score
    ensures forall i :: k <= i < |q| ==> w.score < q[i].score
  {
    SortByAppend(WAITER_KEY, q, w);
    k := InsertByPlace(WAITER_KEY, q, w);
    forall i | 0 <= i < k ensures q[i].score < w.score {
      assert WAITER_KEY(q[i]) <= WAITER_KEY(w);
    }
    forall i | k <= i < |q| ensures w.score < q[i].score {
      assert WAITER_KEY(w) < WAITER_KEY(q[i]);
    }
  }

  lemma QueueInsertKeeps(q: seq<Waiter>, w: Waiter)
    requires ScoresIncrease(q) && FreshScore(q, w.score)
    requires DistinctBy(WAITER_ID, q) && !Queued(q, w.tid)
    ensures var r := SortBy(WAITER_KEY, q + [w]); ScoresIncrease(r) && DistinctBy(WAITER_ID, r)
  {
    var k := QueueInsert(q, w);
    var r := SortBy(WAITER_KEY, q + [w]);
    forall i, j | 0 <= i < j < |r| ensures r[i].score < r[j].score && WAITER_ID(r[i]) != WAITER_ID(r[j]) {
      assert r[i] == if i < k then q[i] else if i == k then w else q[i-1];
      assert r[j] == if j < k then q[j] else if j == k then w else q[j-1];
      assert forall m :: 0 <= m < |q| ==> WAITER_ID(q[m]) != w.tid;
    }
  }

  /** A score above all others queues at the end. */
  lemma QueueAtEnd(q: seq<Waiter>, w: Waiter)
    requires ScoresIncrease(q)
    requires forall i :: 0 <= i < |q| ==> q[i].score < w.score
    ensures SortBy(WAITER_KEY, q + [w]) == q + [w]
  {
    SortByAppend(WAITER_KEY, q, w);
    InsertByAtEnd(WAITER_KEY, q, w);
  }

  /** With distinct ids, the position of a ticket is the index of its entry. */
  lemma PositionUnique(q: seq<Waiter>, tid: Tid, i: nat)
    requires DistinctBy(WAITER_ID, q) && i < |q| && q[i].tid == tid
    ensures PositionIn(q, tid) == i
  {
    var p := PositionIn(q, tid);
    assert Queued(q, tid);
    assert forall j :: 0 <= j < |q| && j != i ==> WAITER_ID(q[j]) != WAITER_ID(q[i]);
  }

  /** Which ids wait after an insertion, whatever the list looked like. */
  lemma QueuedAfterInsert(q: seq<Waiter>, w: Waiter, t: Tid)
    ensures Queued(SortBy(WAITER_KEY, q + [w]), t) <==> Queued(q, t) || t == w.tid
  {
    var r := SortBy(WAITER_KEY, q + [w]);
    SortByMembers(WAITER_KEY, q + [w]);
    if Queued(r, t) {
      var i :| 0 <= i < |r| && r[i].tid == t;
      assert r[i] in r && r[i] in q + [w];
    }
    if Queued(q, t) {
      var i :| 0 <= i < |q| && q[i].tid == t;
      assert q[i] in q + [w] && q[i] in r;
      var j :| 0 <= j < |r| && r[j] == q[i];
    }
    assert w in q + [w] && w in r;
    var j :| 0 <= j < |r| && r[j] == w;
  }

  // ---- the in-flight list ----

  lemma {:induction false} WithoutMembers(fs: seq<Flight>, tid: Tid)
    ensures forall f :: f in Without(fs, tid) <==> f in fs && f.tid != tid
  {
    if fs != [] {
      WithoutMembers(fs[..|fs|-1], tid);
      assert fs == fs[..|fs|-1] + [fs[|fs|-1]];
    }
  }

  lemma {:induction false} WithoutKeeps(fs: seq<Flight>, tid: Tid)
    requires SortedBy(FLIGHT_KEY, fs) && DistinctBy(FLIGHT_ID, fs)
    ensures var r := Without(fs, tid); SortedBy(FLIGHT_KEY, r) && DistinctBy(FLIGHT_ID, r)
  {
    if fs != [] {
      var t := fs[..|fs|-1];
      WithoutKeeps(t, tid);
      WithoutMembers(t, tid);
      var r := Without(t, tid);
      forall i | 0 <= i < |r| ensures FLIGHT_KEY(r[i]) <= FLIGHT_KEY(fs[|fs|-1]) && FLIGHT_ID(r[i]) != FLIGHT_ID(fs[|fs|-1]) {
        assert r[i] in r && r[i] in t;
      }
    }
  }

  lemma {:induction false} KeptMembers(fs: seq<Flight>, now: real)
    ensures forall f :: f in Kept(fs, now) <==> f in fs && now < f.exp
    ensures |Kept(fs, now)| + |Expired(fs, now)| == |fs|
  {
    if fs != [] {
      KeptMembers(fs[..|fs|-1], now);
      assert fs == fs[..|fs|-1] + [fs[|fs|-1]];
    }
  }

  lemma {:induction false} KeptKeeps(fs: seq<Flight>, now: real)
    requires SortedBy(FLIGHT_KEY, fs) && DistinctBy(FLIGHT_ID, fs)
    ensures var r := Kept(fs, now); SortedBy(FLIGHT_KEY, r) && DistinctBy(FLIGHT_ID, r)
  {
    if fs != [] {
      var t := fs[..|fs|-1];
      KeptKeeps(t, now);
      KeptMembers(t, now);
      var r := Kept(t, now);
      forall i | 0 <= i < |r| ensures FLIGHT_KEY(r[i]) <= FLIGHT_KEY(fs[|fs|-1]) && FLIGHT_ID(r[i]) != FLIGHT_ID(fs[|fs|-1]) {
        assert r[i] in r && r[i] in t;
      }
    }
  }

  /** The expired ids are exactly those of the entries that are dropped, each once. */
  lemma {:induction false} ExpiredMembers(fs: seq<Flight>, now: real)
    requires DistinctBy(FLIGHT_ID, fs)
    ensures forall t :: t in Expired(fs, now) <==> exists i :: 0 <= i < |fs| && fs[i].tid == t && fs[i].exp <= now
    ensures forall i, j :: 0 <= i < j < |Expired(fs, now)| ==> Expired(fs, now)[i] != Expired(fs, now)[j]
  {
    if fs != [] {
      var t, last := fs[..|fs|-1], fs[|fs|-1];
      ExpiredMembers(t, now);
      var r := Expired(t, now);
      forall i | 0 <= i < |r| ensures r[i] != last.tid {
        assert r[i] in r;
        var j :| 0 <= j < |t| && t[j].tid == r[i];
        assert FLIGHT_ID(fs[j]) != FLIGHT_ID(last);
      }
      forall u ensures u in Expired(fs, now) <==> exists i :: 0 <= i < |fs| && fs[i].tid == u && fs[i].exp <= now {
        if u in r {
          var i :| 0 <= i < |t| && t[i].tid == u && t[i].exp <= now;
          assert fs[i] == t[i];
        }
        if i :| 0 <= i < |fs| && fs[i].tid == u && fs[i].exp <= now {
          assert i < |t| ==> t[i] == fs[i];
        }
      }
    }
  }

  lemma FlyingIn(fs: seq<Flight>, t: Tid)
    ensures Flying(fs, t) <==> exists f :: f in fs && f.tid == t
  {
    if Flying(fs, t) {
      var i :| 0 <= i < |fs| && fs[i].tid == t;
      assert fs[i] in fs;
    }
  }

  lemma FlyingAfterWithout(fs: seq<Flight>, tid: Tid, t: Tid)
    ensures Flying(Without(fs, tid), t) <==> Flying(fs, t) && t != tid
  {
    WithoutMembers(fs, tid);
    FlyingIn(fs, t);
    FlyingIn(Without(fs, tid), t);
  }

  lemma FlyingAfterSort(fs: seq<Flight>, t: Tid)
    ensures Flying(SortBy(FLIGHT_KEY, fs), t) <==> Flying(fs, t)
  {
    SortByMembers(FLIGHT_KEY, fs);
    FlyingIn(fs, t);
    FlyingIn(SortBy(FLIGHT_KEY, fs), t);
  }

  /** A list of distinct ids is as long as its set. */
  lemma {:induction false} IdCount(ids: seq<Tid>, s: set<Tid>)
    requires forall i, j :: 0 <= i < j < |ids| ==> ids[i] != ids[j]
    requires forall t :: t in s <==> t in ids
    ensures |s| == |ids|
  {
    if ids == [] {
      assert s == {};
    } else {
      var t, last := ids[..|ids|-1], ids[|ids|-1];
      assert forall u :: u in s - {last} <==> u in t by {
        assert ids == t + [last];
        assert last !in t;
      }
      IdCount(t, s - {last});
    }
  }

  // ---- each operation keeps the shape ----

  lemma CreateKeepsOrder(s: Store, tid: Tid, score: int, trueClass: AccessClass, cls: AccessClass, attempt: int, expiresAt: Option<real>)
    requires Orderly(s) && tid !in s.tickets && FreshScore(s.waiting, score)
    ensures Orderly(CreateTicket(s, tid, score, trueClass, cls, attempt, expiresAt))
  {
    var w := Waiter(score, tid);
    var s' := CreateTicket(s, tid, score, trueClass, cls, attempt, expiresAt);
    QueueInsertKeeps(s.waiting, w);
    KnownAfterInsert(s, s', w);
    forall i | 0 <= i < |s'.inflight| ensures !Queued(s'.waiting, s'.inflight[i].tid) {
      QueuedAfterInsert(s.waiting, w, s'.inflight[i].tid);
    }
  }

  lemma KnownAfterInsert(s: Store, s': Store, w: Waiter)
    requires Known(s) && s.tickets.Keys <= s'.tickets.Keys && w.tid in s'.tickets
    requires s'.waiting == SortBy(WAITER_KEY, s.waiting + [w])
    ensures Known(s')
  {
    forall i | 0 <= i < |s'.waiting| ensures s'.waiting[i].tid in s'.tickets {
      QueuedAfterInsert(s.waiting, w, s'.waiting[i].tid);
    }
  }

  lemma ReinsertKeepsOrder(s: Store, tid: Tid, score: int, newClass: Option<AccessClass>, attempt: Option<int>)
    requires Orderly(s) && tid in s.tickets && !Queued(s.waiting, tid) && FreshScore(s.waiting, score)
    ensures Orderly(Reinsert(s, tid, score, newClass, attempt))
  {
    var w := Waiter(score, tid);
    var s' := Reinsert(s, tid, score, newClass, attempt);
    QueueInsertKeeps(s.waiting, w);
    KnownAfterInsert(s, s', w);
    WithoutKeeps(s.inflight, tid);
    WithoutMembers(s.inflight, tid);
    forall i | 0 <= i < |s'.inflight| ensures s'.inflight[i].tid in s'.tickets && !Queued(s'.waiting, s'.inflight[i].tid) {
      assert s'.inflight[i] in s'.inflight && s'.inflight[i] in s.inflight;
      QueuedAfterInsert(s.waiting, w, s'.inflight[i].tid);
    }
  }

  lemma CompleteKeepsOrder(s: Store, tid: Tid, state: TicketState)
    requires Orderly(s)
    ensures Orderly(Complete(s, tid, state))
  {
    var s' := Complete(s, tid, state);
    WithoutKeeps(s.inflight, tid);
    WithoutMembers(s.inflight, tid);
    forall i | 0 <= i < |s'.inflight| ensures s'.inflight[i].tid in s'.tickets && !Queued(s'.waiting, s'.inflight[i].tid) {
      assert s'.inflight[i] in s'.inflight && s'.inflight[i] in s.inflight;
    }
  }

  lemma ExpireKeepsOrder(s: Store, now: real)
    requires Orderly(s)
    ensures Orderly(ExpireInflight(s, now))
  {
    var s' := ExpireInflight(s, now);
    KeptKeeps(s.inflight, now);
    KeptMembers(s.inflight, now);
    forall i | 0 <= i < |s'.inflight| ensures s'.inflight[i].tid in s'.tickets && !Queued(s'.waiting, s'.inflight[i].tid) {
      assert s'.inflight[i] in s'.inflight && s'.inflight[i] in s.inflight;
    }
  }

  /** Who waits after an admission: those that waited, but for the head. */
  lemma AdmitQueued(s: Store, n: int, t: Tid)
    requires DistinctBy(WAITER_ID, s.waiting)
    ensures var h, rest := Head(s.waiting, n), Tail(s.waiting, n);
            && (Queued(s.waiting, t) <==> Queued(h, t) || Queued(rest, t))
            && !(Queued(h, t) && Queued(rest, t))
  {
    var q, h, rest := s.waiting, Head(s.waiting, n), Tail(s.waiting, n);
    assert forall i :: 0 <= i < |h| ==> h[i] == q[i];
    assert forall j :: 0 <= j < |rest| ==> rest[j] == q[|h| + j];
    if i :| 0 <= i < |h| && h[i].tid == t {
      forall j | 0 <= j < |rest| ensures rest[j].tid != t {
        assert WAITER_ID(q[i]) != WAITER_ID(q[|h| + j]);
      }
    }
    if i :| 0 <= i < |q| && q[i].tid == t {
      assert if i < |h| then h[i].tid == t else rest[i - |h|].tid == t;
    }
  }

  /** Who is in flight after an admission: the head joins those that were. */
  lemma AdmitFlying(s: Store, n: int, now: real, windows: AccessClass -> real, t: Tid)
    requires Known(s)
    ensures Flying(AdmitN(s, n, now, windows).inflight, t) <==> Flying(s.inflight, t) || Queued(Head(s.waiting, n), t)
  {
    var h := Head(s.waiting, n);
    var g := Grants(s.tickets, h, now, windows);
    var all := s.inflight + g;
    FlyingAfterSort(all, t);
    if i :| 0 <= i < |h| && h[i].tid == t {
      assert all[|s.inflight| + i].tid == t;
    }
    if i :| 0 <= i < |s.inflight| && s.inflight[i].tid == t {
      assert all[i].tid == t;
    }
    if i :| 0 <= i < |all| && all[i].tid == t {
      assert if i < |s.inflight| then s.inflight[i].tid == t else h[i - |s.inflight|].tid == t;
    }
  }

  /** Who waits and who is in flight after an admission. */
  lemma AdmitMembers(s: Store, n: int, now: real, windows: AccessClass -> real, t: Tid)
    requires Orderly(s)
    ensures var s', h := AdmitN(s, n, now, windows), Head(s.waiting, n);
            && (Queued(s.waiting, t) <==> Queued(h, t) || Queued(s'.waiting, t))
            && !(Queued(h, t) && Queued(s'.waiting, t))
            && (Flying(s'.inflight, t) <==> Flying(s.inflight, t) || Queued(h, t))
  {
    AdmitQueued(s, n, t);
    AdmitFlying(s, n, now, windows, t);
  }

  lemma GrantsDistinct(s: Store, n: int, now: real, windows: AccessClass -> real)
    requires Orderly(s)
    ensures DistinctBy(FLIGHT_ID, s.inflight + Grants(s.tickets, Head(s.waiting, n), now, windows))
  {
    var h := Head(s.waiting, n);
    var all := s.inflight + Grants(s.tickets, h, now, windows);
    forall i, j | 0 <= i < j < |all| ensures FLIGHT_ID(all[i]) != FLIGHT_ID(all[j]) {
      if j < |s.inflight| {
        assert FLIGHT_ID(s.inflight[i]) != FLIGHT_ID(s.inflight[j]);
      } else {
        var y := s.waiting[j - |s.inflight|];
        assert all[j].tid == y.tid && Queued(s.waiting, y.tid);
        if |s.inflight| <= i {
          assert WAITER_ID(s.waiting[i - |s.inflight|]) != WAITER_ID(y);
        }
      }
    }
  }

  lemma AdmitKeepsOrder(s: Store, n: int, now: real, windows: AccessClass -> real)
    requires Orderly(s)
    ensures Orderly(AdmitN(s, n, now, windows))
  {
    var s', h := AdmitN(s, n, now, windows), Head(s.waiting, n);
    var g := Grants(s.tickets, h, now, windows);
    GrantsDistinct(s, n, now, windows);
    SortBySorted(FLIGHT_KEY, s.inflight + g);
    SortByDistinct(FLIGHT_KEY, FLIGHT_ID, s.inflight + g);
    assert s.waiting == h + s'.waiting;
    assert DistinctBy(WAITER_ID, s'.waiting) by {
      forall i, j | 0 <= i < j < |s'.waiting| ensures WAITER_ID(s'.waiting[i]) != WAITER_ID(s'.waiting[j]) {
        assert WAITER_ID(s.waiting[|h| + i]) != WAITER_ID(s.waiting[|h| + j]);
      }
    }
    forall i | 0 <= i < |s'.inflight| ensures s'.inflight[i].tid in s'.tickets && !Queued(s'.waiting, s'.inflight[i].tid) {
      AdmitMembers(s, n, now, windows, s'.inflight[i].tid);
      assert Flying(s'.inflight, s'.inflight[i].tid);
    }
  }

  lemma UpdateClassKeepsOrder(s: Store, tid: Tid, c: AccessClass)
    requires Orderly(s)
    ensures Orderly(UpdateClass(s, tid, c))
  {
  }

  // ---- the admission loop, one pop at a time ----

  /** The store inside the admission loop, with `k` entries of `h` popped and nothing sorted yet. */
  ghost function After(s: Store, h: seq<Waiter>, k: nat, now: real, windows: AccessClass -> real): Store
    requires Known(s) && k <= |h| <= |s.waiting| && h == s.waiting[..|h|]
  {
    s.(tickets := AdmitAll(s.tickets, h[..k], now, windows),
       waiting := s.waiting[k..],
       inflight := s.inflight + Grants(s.tickets, h[..k], now, windows),
       counters := s.counters.(waiting := Subtract(s.counters.waiting, s.tickets, h[..k])))
  }

  lemma AfterZero(s: Store, h: seq<Waiter>, now: real, windows: AccessClass -> real)
    requires Known(s) && |h| <= |s.waiting| && h == s.waiting[..|h|]
    ensures After(s, h, 0, now, windows) == s
  {
    assert h[..0] == [];
    assert AdmitAll(s.tickets, [], now, windows) == s.tickets;
  }

  lemma AfterStep(s: Store, h: seq<Waiter>, k: nat, now: real, windows: AccessClass -> real)
    requires Known(s) && k < |h| <= |s.waiting| && h == s.waiting[..|h|]
    ensures var a, w := After(s, h, k, now, windows), h[k];
            && a.waiting != [] && a.waiting[0] == w && w.tid in a.tickets
            && var t := a.tickets[w.tid];
            && var f := Flight(now + windows(t.cls), w.tid);
            && After(s, h, k + 1, now, windows)
               == a.(tickets := a.tickets[w.tid := t.(state := ADMITTED, expiresAt := Some(f.exp))],
                     waiting := a.waiting[1..],
                     inflight := a.inflight + [f],
                     counters := a.counters.(waiting := a.counters.waiting.Add(t.trueClass, -1)))
            && Grants(s.tickets, h[..k+1], now, windows) == Grants(s.tickets, h[..k], now, windows) + [f]
  {
    AdmitAllStep(s.tickets, h, k, now, windows);
    SubtractStep(s.counters.waiting, s.tickets, h, k);
    var f := Flight(now + windows(s.tickets[h[k].tid].cls), h[k].tid);
    assert Grants(s.tickets, h[..k+1], now, windows) == Grants(s.tickets, h[..k], now, windows) + [f];
    assert s.inflight + (Grants(s.tickets, h[..k], now, windows) + [f])
        == s.inflight + Grants(s.tickets, h[..k], now, windows) + [f];
  }

  lemma AdmitAllStep(tickets: map<Tid, Ticket>, h: seq<Waiter>, k: nat, now: real, windows: AccessClass -> real)
    requires k < |h| && h[k].tid in tickets
    ensures var before := AdmitAll(tickets, h[..k], now, windows);
            && before[h[k].tid].cls == tickets[h[k].tid].cls
            && before[h[k].tid].trueClass == tickets[h[k].tid].trueClass
            && AdmitAll(tickets, h[..k+1], now, windows)
               == before[h[k].tid := Admit(before[h[k].tid], now, windows)]
  {
    var before, after := AdmitAll(tickets, h[..k], now, windows), AdmitAll(tickets, h[..k+1], now, windows);
    forall t | t in tickets
      ensures after[t] == if t == h[k].tid then Admit(before[t], now, windows) else before[t]
    {
      assert forall i :: 0 <= i < k ==> h[..k+1][i] == h[..k][i];
      assert h[..k+1][k] == h[k];
    }
  }

  lemma SubtractStep(t: Tally, tickets: map<Tid, Ticket>, h: seq<Waiter>, k: nat)
    requires k < |h| && h[k].tid in tickets
    ensures Subtract(t, tickets, h[..k+1]) == Subtract(t, tickets, h[..k]).Add(tickets[h[k].tid].trueClass, -1)
  {
    assert h[..k+1][..k] == h[..k];
  }
}
