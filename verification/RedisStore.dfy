/** The Redis ticket store over hashes and sorted sets, and its agreement with the in-memory store. */
module RedisStore {
  import opened Classes
  import opened Seqs
  import opened QueueStore
  import opened StoreLaws

  /** The sorted set `z` holds exactly the entries of the list `q`. */
  ghost predicate WaitingSet(z: map<Tid, int>, q: seq<Waiter>) {
    && (forall i :: 0 <= i < |q| ==> q[i].tid in z && z[q[i].tid] == q[i].score)
    && (forall t :: t in z ==> Queued(q, t))
  }

  ghost predicate InflightSet(z: map<Tid, real>, fs: seq<Flight>) {
    && (forall i :: 0 <= i < |fs| ==> fs[i].tid in z && z[fs[i].tid] == fs[i].exp)
    && (forall t :: t in z ==> Flying(fs, t))
  }

  datatype Partial = Partial(state: TicketState, cls: Option<AccessClass>, attempt: Option<int>)

  /** Writing a state, and maybe a class and an attempt, over the fields that are there. */
  function Overwritten(bare: map<Tid, Partial>, tid: Tid, state: TicketState, newClass: Option<AccessClass>, attempt: Option<int>): Partial {
    var before := if tid in bare then bare[tid] else Partial(state, None, None);
    Partial(state, if newClass.Some? then newClass else before.cls, if attempt.Some? then attempt else before.attempt)
  }

  class RedisQueueStore {
    var lastSeq: int
    var tickets: map<Tid, Ticket>
    var waiting: map<Tid, int>
    var inflight: map<Tid, real>
    var counters: Counters
    /** Hashes without a true class: the store wrote a state to an id that it did not know. */
    var bare: map<Tid, Partial>

    /** These keys hold what the sorted-list store `m` holds. */
    ghost predicate Represents(m: Store)
      reads this
    {
      && lastSeq == m.lastSeq && tickets == m.tickets && counters == m.counters && bare == map[]
      && WaitingSet(waiting, m.waiting) && InflightSet(inflight, m.inflight)
    }

    /** Every key but the waiting set. */
    ghost predicate RestRepresents(m: Store)
      reads this
    {
      && lastSeq == m.lastSeq && tickets == m.tickets && counters == m.counters && bare == map[]
      && InflightSet(inflight, m.inflight)
    }

    constructor ()
      ensures Represents(EMPTY_STORE)
    {
      lastSeq, tickets, waiting, inflight := 0, map[], map[], map[];
      counters := Counters(ZERO_TALLY, ZERO_TALLY, ZERO_TALLY);
      bare := map[];
    }

    method NextSeq(ghost m: Store) returns (r: int)
      requires Represents(m)
      modifies this
      ensures Represents(QueueStore.NextSeq(m)) && r == m.lastSeq + 1
    {
      lastSeq := lastSeq + 1;
      r := lastSeq;
    }

    /** Whatever the keys held before: the record, the score and the counter. They still hold what the list store
        holds unless the id was already waiting or the expiry is zero. */
    method CreateTicket(tid: Tid, score: int, trueClass: AccessClass, cls: AccessClass,
                        attempt: int, expiresAt: Option<real>, ghost m: Store)
      modifies this
      ensures lastSeq == old(lastSeq) && inflight == old(inflight) && bare == old(bare) - {tid}
      ensures tickets == old(tickets)[tid := Ticket(WAITING, attempt, cls, trueClass, score, Stored(expiresAt))]
      ensures waiting == old(waiting)[tid := score]
      ensures counters == old(counters).(waiting := old(counters).waiting.Add(trueClass, 1))
      ensures old(Represents(m)) && !Queued(m.waiting, tid) && expiresAt != Some(0.0) ==>
                Represents(QueueStore.CreateTicket(m, tid, score, trueClass, cls, attempt, expiresAt))
    {
      if Represents(m) && !Queued(m.waiting, tid) {
        WaitingSetInsert(waiting, m.waiting, Waiter(score, tid));
      }
      tickets := tickets[tid := Ticket(WAITING, attempt, cls, trueClass, score, Stored(expiresAt))];
      bare := bare - {tid};
      waiting := waiting[tid := score];
      counters := counters.(waiting := counters.waiting.Add(trueClass, 1));
    }

    method GetTicket(tid: Tid, ghost m: Store) returns (t: Option<Ticket>)
      requires Represents(m)
      ensures t == QueueStore.GetTicket(m, tid)
    {
      t := if tid in tickets then Some(tickets[tid]) else None;
    }

    /** ZPOPMIN: the members with the lowest scores, lowest first. */
    method PopMin(n: int, ghost q: seq<Waiter>) returns (popped: seq<Tid>)
      requires WaitingSet(waiting, q) && ScoresIncrease(q) && DistinctBy(WAITER_ID, q)
      modifies this`waiting
      ensures popped == Ids(Head(q, n)) && WaitingSet(waiting, Tail(q, n))
    {
      popped := [];
      assert q[0..] == q && Ids(q[..0]) == [];
      while |popped| < n && waiting != map[]
        invariant |popped| <= |q| && (|popped| <= n || popped == [])
        invariant popped == Ids(q[..|popped|]) && WaitingSet(waiting, q[|popped|..])
        decreases n - |popped|
      {
        var t := PopLeast(q, |popped|);
        popped := popped + [t];
      }
      assert |popped| < |q| ==> q[|popped|..][0].tid in waiting;
    }

    /** Take out the member with the lowest score. */
    method PopLeast(ghost q: seq<Waiter>, ghost k: nat) returns (t: Tid)
      requires ScoresIncrease(q) && DistinctBy(WAITER_ID, q) && k <= |q| && WaitingSet(waiting, q[k..]) && waiting != map[]
      modifies this`waiting
      ensures k < |q| && WaitingSet(waiting, q[k+1..]) && Ids(q[..k+1]) == Ids(q[..k]) + [t]
    {
      RestHead(waiting, q, k);
      t :| t in waiting && IsLeast(waiting, t);
      RestPop(waiting, q, k, t);
      waiting := waiting - {t};
    }

    method AdmitN(n: int, now: real, windows: AccessClass -> real, ghost m: Store) returns (admitted: seq<Flight>)
      requires Represents(m) && Orderly(m)
      modifies this
      ensures Represents(QueueStore.AdmitN(m, n, now, windows))
      ensures admitted == AdmittedBy(m, n, now, windows)
    {
      if n <= 0 {
        AdmitNothing(m, n, now, windows);
        return [];
      }
      var popped := PopMin(n, m.waiting);
      ghost var h := Head(m.waiting, n);
      admitted := AdmitPopped(popped, now, windows, m, h);
      assert h[..|h|] == h;
      InflightSetSort(inflight, m.inflight + Grants(m.tickets, h, now, windows));
    }

    /** The loop of the admission script over the popped members. */
    method AdmitPopped(popped: seq<Tid>, now: real, windows: AccessClass -> real, ghost m: Store, ghost h: seq<Waiter>)
      returns (admitted: seq<Flight>)
      requires Orderly(m) && |h| <= |m.waiting| && h == m.waiting[..|h|] && popped == Ids(h)
      requires RestRepresents(m)
      modifies this`tickets, this`inflight, this`counters
      ensures RestRepresents(After(m, h, |h|, now, windows))
      ensures admitted == Grants(m.tickets, h, now, windows)
    {
      admitted := [];
      AfterZero(m, h, now, windows);
      for k := 0 to |popped|
        invariant RestRepresents(After(m, h, k, now, windows))
        invariant admitted == Grants(m.tickets, h[..k], now, windows)
      {
        var granted := AdmitOne(popped[k], now, windows, m, h, k);
        GrantsStep(m.tickets, h, k, now, windows);
        admitted := admitted + granted;
      }
      assert h[..|h|] == h;
    }

    /** The body of the admission script for one popped member. */
    method AdmitOne(tid: Tid, now: real, windows: AccessClass -> real, ghost m: Store, ghost h: seq<Waiter>, ghost k: nat)
      returns (granted: seq<Flight>)
      requires Orderly(m) && k < |h| <= |m.waiting| && h == m.waiting[..|h|] && tid == h[k].tid
      requires RestRepresents(After(m, h, k, now, windows))
      modifies this`tickets, this`inflight, this`counters
      ensures RestRepresents(After(m, h, k + 1, now, windows))
      ensures granted == [Flight(now + windows(m.tickets[tid].cls), tid)]
    {
      granted := [];
      AfterStep(m, h, k, now, windows);
      AdmitAllStep(m.tickets, h, k, now, windows);
      if tid in tickets {
        var t := tickets[tid];
        var exp := now + windows(t.cls);
        tickets := tickets[tid := t.(state := ADMITTED, expiresAt := Some(exp))];
        InflightSetAppend(m, h, k, now, windows, inflight, Flight(exp, tid));
        inflight := inflight[tid := exp];
        counters := counters.(waiting := counters.waiting.Add(t.trueClass, -1));
        granted := [Flight(exp, tid)];
      }
    }

    /** Whatever the keys held before. For an unknown id a hash without a true class appears, and the timeout is
        counted for class HIGH. They still hold what the list store holds unless the ticket was already waiting. */
    method Reinsert(tid: Tid, score: int, newClass: Option<AccessClass>, attempt: Option<int>, ghost m: Store)
      modifies this
      ensures lastSeq == old(lastSeq)
      ensures waiting == old(waiting)[tid := score] && inflight == old(inflight) - {tid}
      ensures tid in old(tickets) ==>
                var t := old(tickets)[tid];
                && tickets == old(tickets)[tid := t.(state := WAITING, cls := GetOr(newClass, t.cls), attempt := GetOr(attempt, t.attempt))]
                && bare == old(bare)
      ensures tid !in old(tickets) ==>
                && tickets == old(tickets)
                && bare == old(bare)[tid := Overwritten(old(bare), tid, WAITING, newClass, attempt)]
      ensures var c := if tid in old(tickets) then old(tickets)[tid].trueClass else HIGH;
              counters == old(counters).(waiting := old(counters).waiting.Add(c, 1), timedOut := old(counters).timedOut.Add(c, 1))
      ensures old(Represents(m)) && tid in m.tickets && !Queued(m.waiting, tid) ==>
                Represents(QueueStore.Reinsert(m, tid, score, newClass, attempt))
    {
      if Represents(m) && !Queued(m.waiting, tid) {
        InflightSetRemove(inflight, m.inflight, tid);
        WaitingSetInsert(waiting, m.waiting, Waiter(score, tid));
      }
      var c := if tid in tickets then tickets[tid].trueClass else HIGH;
      if tid in tickets {
        var t := tickets[tid];
        if newClass.Some? {
          t := t.(cls := newClass.value);
        }
        if attempt.Some? {
          t := t.(attempt := attempt.value);
        }
        tickets := tickets[tid := t.(state := WAITING)];
      } else {
        bare := bare[tid := Overwritten(bare, tid, WAITING, newClass, attempt)];
      }
      inflight := inflight - {tid};
      waiting := waiting[tid := score];
      counters := counters.(timedOut := counters.timedOut.Add(c, 1));
      counters := counters.(waiting := counters.waiting.Add(c, 1));
    }

    method UpdateClass(tid: Tid, newClass: AccessClass, ghost m: Store)
      requires Represents(m)
      modifies this
      ensures Represents(QueueStore.UpdateClass(m, tid, newClass))
    {
      if tid in tickets && tickets[tid].cls != newClass {
        tickets := tickets[tid := tickets[tid].(cls := newClass)];
      }
      assert tid in m.tickets ==> m.tickets[tid := m.tickets[tid]] == m.tickets;
    }

    /** ZRANK: how many members precede `tid`, and 0 for a non-member. */
    method Position(tid: Tid, ghost m: Store) returns (r: nat)
      requires Represents(m) && Orderly(m)
      ensures r == QueueStore.Position(m, tid)
    {
      if tid !in waiting {
        assert !Queued(m.waiting, tid);
        return 0;
      }
      var ahead := set u | u in waiting && u != tid && Precedes(waiting[u], u, waiting[tid], tid);
      RankIsPosition(waiting, m, tid, ahead);
      r := |ahead|;
    }

    method WaitingCount(ghost m: Store) returns (n: nat)
      requires Represents(m) && Orderly(m)
      ensures n == |m.waiting|
    {
      WaitingCard(waiting, m);
      n := |waiting|;
    }

    method InflightCount(ghost m: Store) returns (n: nat)
      requires Represents(m) && Orderly(m)
      ensures n == |m.inflight|
    {
      InflightCard(inflight, m);
      n := |inflight|;
    }

    /** The expired members, by expiry and then by member. */
    method ExpireInflight(now: real, ghost m: Store) returns (expired: seq<Tid>)
      requires Represents(m) && Orderly(m)
      modifies this
      ensures Represents(QueueStore.ExpireInflight(m, now))
      ensures forall t :: t in expired <==> t in Expired(m.inflight, now)
      ensures ByExpiry(old(inflight), expired)
    {
      var gone := set t | t in inflight && inflight[t] <= now;
      InflightSetExpire(inflight, m, now, gone);
      expired := Ranged(gone);
      inflight := inflight - gone;
    }

    /** ZRANGEBYSCORE: the members of `chosen` in the order of the set. */
    method Ranged(chosen: set<Tid>) returns (r: seq<Tid>)
      requires chosen <= inflight.Keys
      ensures (forall t :: t in r <==> t in chosen) && ByExpiry(inflight, r)
    {
      r := [];
      var rest := chosen;
      while rest != {}
        invariant rest <= chosen && ByExpiry(inflight, r)
        invariant forall t :: t in chosen <==> t in r || t in rest
        invariant AllBefore(inflight, r, rest)
        decreases |rest|
      {
        ghost var w := SoonestOf(inflight, rest);
        var t :| t in rest && IsSoonest(inflight, rest, t);
        SoonestNext(inflight, r, rest, t);
        r := r + [t];
        rest := rest - {t};
      }
    }

    /** A known ticket is completed as in the list store. For an unknown one a hash without a true class
        appears, and a completion is counted for class HIGH. */
    method Complete(tid: Tid, state: TicketState, ghost m: Store)
      modifies this
      ensures lastSeq == old(lastSeq) && waiting == old(waiting) && inflight == old(inflight) - {tid}
      ensures tid !in old(tickets) ==>
                tickets == old(tickets) && bare == old(bare)[tid := Overwritten(old(bare), tid, state, None, None)]
      ensures tid in old(tickets) ==>
                tickets == old(tickets)[tid := old(tickets)[tid].(state := state)] && bare == old(bare)
      ensures var c := if tid in old(tickets) then old(tickets)[tid].trueClass else HIGH;
              counters == if state == COMPLETED then old(counters).(completed := old(counters).completed.Add(c, 1)) else old(counters)
      ensures old(Represents(m)) && tid in m.tickets ==> Represents(QueueStore.Complete(m, tid, state))
    {
      if Represents(m) {
        InflightSetRemove(inflight, m.inflight, tid);
      }
      var c := if tid in tickets then tickets[tid].trueClass else HIGH;
      if tid in tickets {
        tickets := tickets[tid := tickets[tid].(state := state)];
      } else {
        bare := bare[tid := Overwritten(bare, tid, state, None, None)];
      }
      inflight := inflight - {tid};
      if state == COMPLETED {
        counters := counters.(completed := counters.completed.Add(c, 1));
      }
    }
  }

  /** An absent expiry and a zero expiry are both stored as the empty string. */
  function Stored(expiresAt: Option<real>): Option<real> {
    if expiresAt == Some(0.0) then None else expiresAt
  }

  /** The order of the in-flight set: by expiry, then by member. */
  predicate PrecedesAt(a: real, t: Tid, b: real, u: Tid) {
    a < b || (a == b && t <= u)
  }

  predicate IsSoonest(z: map<Tid, real>, s: set<Tid>, t: Tid)
    requires s <= z.Keys && t in s
  {
    forall u :: u in s ==> PrecedesAt(z[t], t, z[u], u)
  }

  /** Each member once, in the order of the set. */
  ghost predicate ByExpiry(z: map<Tid, real>, r: seq<Tid>) {
    && (forall i :: 0 <= i < |r| ==> r[i] in z)
    && forall i, j :: 0 <= i < j < |r| ==> r[i] != r[j] && PrecedesAt(z[r[i]], r[i], z[r[j]], r[j])
  }

  /** Everything listed comes before everything that is not. */
  ghost predicate AllBefore(z: map<Tid, real>, r: seq<Tid>, rest: set<Tid>) {
    && (forall i :: 0 <= i < |r| ==> r[i] in z && r[i] !in rest)
    && rest <= z.Keys
    && forall i, u :: 0 <= i < |r| && u in rest ==> PrecedesAt(z[r[i]], r[i], z[u], u)
  }

  lemma SoonestNext(z: map<Tid, real>, r: seq<Tid>, rest: set<Tid>, t: Tid)
    requires ByExpiry(z, r) && AllBefore(z, r, rest) && t in rest && IsSoonest(z, rest, t)
    ensures ByExpiry(z, r + [t]) && AllBefore(z, r + [t], rest - {t})
  {
    var a := r + [t];
    forall i, u | 0 <= i < |a| && u in rest - {t} ensures PrecedesAt(z[a[i]], a[i], z[u], u) {
      assert i < |r| ==> a[i] == r[i];
    }
  }

  lemma {:induction false} SoonestOf(z: map<Tid, real>, s: set<Tid>) returns (t: Tid)
    requires s != {} && s <= z.Keys
    ensures t in s && IsSoonest(z, s, t)
    decreases |s|
  {
    t :| t in s;
    if s != {t} {
      var u := SoonestOf(z, s - {t});
      if PrecedesAt(z[u], u, z[t], t) {
        t := u;
      }
    }
  }

  ghost predicate Ascends(z: map<Tid, real>, r: seq<Tid>) {
    && (forall i :: 0 <= i < |r| ==> r[i] in z)
    && forall i, j :: 0 <= i < j < |r| ==> z[r[i]] < z[r[j]]
  }

  /** Where no two tickets expire together, the order is that of the list store. */
  lemma ExpiredInSameOrder(m: Store, z: map<Tid, real>, now: real, expired: seq<Tid>)
    requires Orderly(m) && InflightSet(z, m.inflight) && ByExpiry(z, expired)
    requires forall t :: t in expired <==> t in Expired(m.inflight, now)
    requires forall i, j :: 0 <= i < j < |m.inflight| ==> m.inflight[i].exp != m.inflight[j].exp
    ensures expired == Expired(m.inflight, now)
  {
    ExpiredAscend(m.inflight, z, now);
    forall i, j | 0 <= i < j < |expired| ensures z[expired[i]] < z[expired[j]] {
      ExpiriesDiffer(m, z, expired[i], expired[j]);
    }
    SameAscent(z, expired, Expired(m.inflight, now));
  }

  lemma ExpiriesDiffer(m: Store, z: map<Tid, real>, t: Tid, u: Tid)
    requires Orderly(m) && InflightSet(z, m.inflight) && t in z && u in z && t != u
    requires forall i, j :: 0 <= i < j < |m.inflight| ==> m.inflight[i].exp != m.inflight[j].exp
    ensures z[t] != z[u]
  {
    var i :| 0 <= i < |m.inflight| && m.inflight[i].tid == t;
    var j :| 0 <= j < |m.inflight| && m.inflight[j].tid == u;
    assert m.inflight[if i < j then i else j].exp != m.inflight[if i < j then j else i].exp;
  }

  /** The list store sweeps in the order of its list. */
  lemma {:induction false} ExpiredAscend(fs: seq<Flight>, z: map<Tid, real>, now: real)
    requires SortedBy(FLIGHT_KEY, fs) && DistinctBy(FLIGHT_ID, fs)
    requires forall i :: 0 <= i < |fs| ==> fs[i].tid in z && z[fs[i].tid] == fs[i].exp
    requires forall i, j :: 0 <= i < j < |fs| ==> fs[i].exp != fs[j].exp
    ensures Ascends(z, Expired(fs, now))
  {
    if fs != [] {
      var most, last := fs[..|fs|-1], fs[|fs|-1];
      ExpiredAscend(most, z, now);
      ExpiredMembers(most, now);
      var r, all := Expired(most, now), Expired(fs, now);
      forall i | 0 <= i < |r| ensures r[i] in z && z[r[i]] < last.exp {
        assert r[i] in r;
        var j :| 0 <= j < |most| && most[j].tid == r[i];
        assert fs[j] == most[j] && FLIGHT_KEY(fs[j]) <= FLIGHT_KEY(last) && fs[j].exp != last.exp;
      }
      assert forall i :: 0 <= i < |all| ==> all[i] == if i < |r| then r[i] else last.tid;
    }
  }

  /** Two ascending lists of the same members are the same list. */
  lemma {:induction false} SameAscent(z: map<Tid, real>, a: seq<Tid>, b: seq<Tid>)
    requires forall t :: t in a <==> t in b
    requires Ascends(z, a) && Ascends(z, b)
    ensures a == b
  {
    assert 0 < |b| ==> b[0] in b && b[0] in a;
    if a != [] {
      assert a[0] in b && b != [];
      assert b[0] in a;
      assert a[0] == b[0];
      forall t ensures t in a[1..] <==> t in b[1..] {
        assert t in a <==> t == a[0] || t in a[1..];
        assert t in b <==> t == b[0] || t in b[1..];
      }
      SameAscent(z, a[1..], b[1..]);
      assert a == [a[0]] + a[1..] && b == [b[0]] + b[1..];
    }
  }

  /** The order of a sorted set: by score, then by member. */
  predicate Precedes(a: int, t: Tid, b: int, u: Tid) {
    a < b || (a == b && t <= u)
  }

  predicate IsLeast(z: map<Tid, int>, t: Tid)
    requires t in z
  {
    forall u :: u in z ==> Precedes(z[t], t, z[u], u)
  }

  function Ids(q: seq<Waiter>): seq<Tid> {
    seq(|q|, i requires 0 <= i < |q| => q[i].tid)
  }

  lemma AdmitNothing(m: Store, n: int, now: real, windows: AccessClass -> real)
    requires Orderly(m) && n <= 0
    ensures QueueStore.AdmitN(m, n, now, windows) == m && AdmittedBy(m, n, now, windows) == []
  {
    var h := Head(m.waiting, n);
    assert h == [] && Tail(m.waiting, n) == m.waiting && Grants(m.tickets, h, now, windows) == [];
    AdmitNobody(m.tickets, now, windows);
    SortByIdentity(FLIGHT_KEY, m.inflight);
    assert m.inflight + [] == m.inflight;
  }

  lemma AdmitNobody(tickets: map<Tid, Ticket>, now: real, windows: AccessClass -> real)
    ensures AdmitAll(tickets, [], now, windows) == tickets
    ensures forall t: Tally :: Subtract(t, tickets, []) == t
  {
  }

  lemma GrantsStep(tickets: map<Tid, Ticket>, h: seq<Waiter>, k: nat, now: real, windows: AccessClass -> real)
    requires k < |h| && forall i :: 0 <= i < |h| ==> h[i].tid in tickets
    ensures Grants(tickets, h[..k+1], now, windows)
            == Grants(tickets, h[..k], now, windows) + [Flight(now + windows(tickets[h[k].tid].cls), h[k].tid)]
  {
  }

  lemma WaitingSetInsert(z: map<Tid, int>, q: seq<Waiter>, w: Waiter)
    requires WaitingSet(z, q) && !Queued(q, w.tid)
    ensures WaitingSet(z[w.tid := w.score], SortBy(WAITER_KEY, q + [w]))
  {
    var r, z' := SortBy(WAITER_KEY, q + [w]), z[w.tid := w.score];
    SortByMembers(WAITER_KEY, q + [w]);
    forall i | 0 <= i < |r| ensures r[i].tid in z' && z'[r[i].tid] == r[i].score {
      assert r[i] in r && r[i] in q + [w];
      if r[i] in q {
        var j :| 0 <= j < |q| && q[j] == r[i];
      }
    }
    forall t | t in z' ensures Queued(r, t) {
      QueuedAfterInsert(q, w, t);
    }
  }

  lemma RestHead(z: map<Tid, int>, q: seq<Waiter>, k: nat)
    requires ScoresIncrease(q) && k <= |q| && WaitingSet(z, q[k..]) && z != map[]
    ensures k < |q| && q[k].tid in z && IsLeast(z, q[k].tid)
  {
    var t :| t in z;
    assert Queued(q[k..], t);
    assert q[k..][0] == q[k];
    forall u | u in z ensures Precedes(z[q[k].tid], q[k].tid, z[u], u) {
      var j :| 0 <= j < |q[k..]| && q[k..][j].tid == u;
      assert q[k..][j] == q[k + j];
    }
  }

  /** The least member of the set is the head of the list. */
  lemma LeastIsHead(z: map<Tid, int>, q: seq<Waiter>, t: Tid)
    requires ScoresIncrease(q) && q != [] && WaitingSet(z, q) && t in z && IsLeast(z, t)
    ensures t == q[0].tid
  {
    assert forall i :: 0 < i < |q| ==> q[0].score < q[i].score;
    assert q[0].tid in z;
    var j :| 0 <= j < |q| && q[j].tid == t;
  }

  lemma RestWithoutHead(z: map<Tid, int>, q: seq<Waiter>)
    requires DistinctBy(WAITER_ID, q) && q != [] && WaitingSet(z, q)
    ensures WaitingSet(z - {q[0].tid}, q[1..])
  {
    var t, r := q[0].tid, q[1..];
    forall i | 0 <= i < |r| ensures r[i].tid in z - {t} && (z - {t})[r[i].tid] == r[i].score {
      assert WAITER_ID(q[0]) != WAITER_ID(q[i + 1]);
    }
    forall u | u in z - {t} ensures Queued(r, u) {
      var i :| 0 <= i < |q| && q[i].tid == u;
      assert i != 0;
      assert r[i-1].tid == u;
    }
  }

  lemma IdsStep(q: seq<Waiter>, k: nat)
    requires k < |q|
    ensures Ids(q[..k+1]) == Ids(q[..k]) + [q[k].tid]
  {
  }

  lemma RestPop(z: map<Tid, int>, q: seq<Waiter>, k: nat, t: Tid)
    requires ScoresIncrease(q) && DistinctBy(WAITER_ID, q) && k < |q| && WaitingSet(z, q[k..])
    requires t in z && IsLeast(z, t)
    ensures t == q[k].tid && WaitingSet(z - {t}, q[k+1..])
    ensures Ids(q[..k+1]) == Ids(q[..k]) + [t]
  {
    var r := q[k..];
    forall i, j | 0 <= i < j < |r| ensures WAITER_ID(r[i]) != WAITER_ID(r[j]) {
      assert r[i] == q[k + i] && r[j] == q[k + j];
    }
    LeastIsHead(z, r, t);
    RestWithoutHead(z, r);
    IdsStep(q, k);
    assert r[1..] == q[k+1..];
  }

  lemma InflightSetRemove(z: map<Tid, real>, fs: seq<Flight>, tid: Tid)
    requires InflightSet(z, fs)
    ensures InflightSet(z - {tid}, Without(fs, tid))
  {
    WithoutMembers(fs, tid);
    var r := Without(fs, tid);
    forall i | 0 <= i < |r| ensures r[i].tid in z - {tid} && z[r[i].tid] == r[i].exp {
      assert r[i] in r && r[i] in fs;
      var j :| 0 <= j < |fs| && fs[j] == r[i];
    }
    forall t | t in z - {tid} ensures Flying(r, t) {
      FlyingAfterWithout(fs, tid, t);
    }
  }

  /** Who is about to be admitted is not in flight yet. */
  lemma NotYetFlying(m: Store, h: seq<Waiter>, k: nat, now: real, windows: AccessClass -> real)
    requires Orderly(m) && k < |h| <= |m.waiting| && h == m.waiting[..|h|]
    ensures var before := After(m, h, k, now, windows).inflight;
            forall i :: 0 <= i < |before| ==> before[i].tid != h[k].tid
  {
    var before := After(m, h, k, now, windows).inflight;
    forall i | 0 <= i < |before| ensures before[i].tid != h[k].tid {
      if i < |m.inflight| {
        assert before[i] == m.inflight[i];
        assert Queued(m.waiting, m.waiting[k].tid);
      } else {
        assert WAITER_ID(m.waiting[i - |m.inflight|]) != WAITER_ID(m.waiting[k]);
      }
    }
  }

  lemma InflightSetAppend(m: Store, h: seq<Waiter>, k: nat, now: real, windows: AccessClass -> real, z: map<Tid, real>, f: Flight)
    requires Orderly(m) && k < |h| <= |m.waiting| && h == m.waiting[..|h|] && f.tid == h[k].tid
    requires InflightSet(z, After(m, h, k, now, windows).inflight)
    requires After(m, h, k + 1, now, windows).inflight == After(m, h, k, now, windows).inflight + [f]
    ensures InflightSet(z[f.tid := f.exp], After(m, h, k + 1, now, windows).inflight)
  {
    var before := After(m, h, k, now, windows).inflight;
    var after := before + [f];
    NotYetFlying(m, h, k, now, windows);
    forall t | t in z[f.tid := f.exp] ensures Flying(after, t) {
      if t == f.tid {
        assert after[|before|].tid == t;
      } else {
        var i :| 0 <= i < |before| && before[i].tid == t;
        assert after[i].tid == t;
      }
    }
  }

  lemma InflightSetSort(z: map<Tid, real>, fs: seq<Flight>)
    requires InflightSet(z, fs)
    ensures InflightSet(z, SortBy(FLIGHT_KEY, fs))
  {
    var r := SortBy(FLIGHT_KEY, fs);
    SortByMembers(FLIGHT_KEY, fs);
    forall i | 0 <= i < |r| ensures r[i].tid in z && z[r[i].tid] == r[i].exp {
      assert r[i] in r && r[i] in fs;
      var j :| 0 <= j < |fs| && fs[j] == r[i];
    }
    forall t | t in z ensures Flying(r, t) {
      FlyingAfterSort(fs, t);
    }
  }

  lemma InflightSetExpire(z: map<Tid, real>, m: Store, now: real, expired: set<Tid>)
    requires Orderly(m) && InflightSet(z, m.inflight)
    requires expired == set t | t in z && z[t] <= now
    ensures InflightSet(z - expired, Kept(m.inflight, now))
    ensures forall t :: t in expired <==> t in Expired(m.inflight, now)
  {
    var fs, r := m.inflight, Kept(m.inflight, now);
    KeptMembers(fs, now);
    ExpiredMembers(fs, now);
    forall i | 0 <= i < |r| ensures r[i].tid in z - expired && z[r[i].tid] == r[i].exp {
      assert r[i] in r && r[i] in fs;
      var j :| 0 <= j < |fs| && fs[j] == r[i];
    }
    forall t | t in z - expired ensures Flying(r, t) {
      var i :| 0 <= i < |fs| && fs[i].tid == t;
      assert fs[i] in fs && fs[i] in r;
      FlyingIn(r, t);
    }
    forall t ensures t in expired <==> t in Expired(fs, now) {
      if t in expired {
        var i :| 0 <= i < |fs| && fs[i].tid == t;
      }
    }
  }

  // ---- cardinalities ----

  lemma WaitingCard(z: map<Tid, int>, m: Store)
    requires Orderly(m) && WaitingSet(z, m.waiting)
    ensures |z| == |m.waiting|
  {
    var q := m.waiting;
    var ids := seq(|q|, i requires 0 <= i < |q| => q[i].tid);
    forall i, j | 0 <= i < j < |ids| ensures ids[i] != ids[j] {
      assert WAITER_ID(q[i]) != WAITER_ID(q[j]);
    }
    forall t ensures t in z.Keys <==> t in ids {
      if t in z {
        var i :| 0 <= i < |q| && q[i].tid == t;
        assert ids[i] == t;
      }
    }
    IdCount(ids, z.Keys);
    assert |z| == |z.Keys|;
  }

  lemma InflightCard(z: map<Tid, real>, m: Store)
    requires Orderly(m) && InflightSet(z, m.inflight)
    ensures |z| == |m.inflight|
  {
    var fs := m.inflight;
    var ids := seq(|fs|, i requires 0 <= i < |fs| => fs[i].tid);
    forall i, j | 0 <= i < j < |ids| ensures ids[i] != ids[j] {
      assert FLIGHT_ID(fs[i]) != FLIGHT_ID(fs[j]);
    }
    forall t ensures t in z.Keys <==> t in ids {
      if t in z {
        var i :| 0 <= i < |fs| && fs[i].tid == t;
        assert ids[i] == t;
      }
    }
    IdCount(ids, z.Keys);
    assert |z| == |z.Keys|;
  }

  lemma RankIsPosition(z: map<Tid, int>, m: Store, tid: Tid, ahead: set<Tid>)
    requires Orderly(m) && WaitingSet(z, m.waiting) && tid in z
    requires ahead == set u | u in z && u != tid && Precedes(z[u], u, z[tid], tid)
    ensures |ahead| == QueueStore.Position(m, tid)
  {
    var q, p := m.waiting, QueueStore.Position(m, tid);
    assert Queued(q, tid);
    var ids := seq(p, i requires 0 <= i < p => q[i].tid);
    forall i, j | 0 <= i < j < |ids| ensures ids[i] != ids[j] {
      assert WAITER_ID(q[i]) != WAITER_ID(q[j]);
    }
    forall t ensures t in ahead <==> t in ids {
      if t in ahead {
        var i :| 0 <= i < |q| && q[i].tid == t;
        assert ids[i] == t;
      }
    }
    IdCount(ids, ahead);
  }
}
