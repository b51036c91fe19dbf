/** Any sequence of store calls gets the same answers from both implementations. */
module StoreRefinement {
  import opened Classes
  import opened QueueStore
  import opened StoreLaws
  import opened InMemoryStore
  import opened RedisStore

  datatype Op =
    | OpNextSeq
    | OpCreate(tid: Tid, score: int, trueClass: AccessClass, cls: AccessClass, attempt: int, expiresAt: Option<real>)
    | OpGet(tid: Tid)
    | OpAdmit(n: int, now: real, high: real, medium: real, low: real)
    | OpReinsert(tid: Tid, score: int, newClass: Option<AccessClass>, newAttempt: Option<int>)
    | OpUpdateClass(tid: Tid, cls: AccessClass)
    | OpPosition(tid: Tid)
    | OpWaitingCount
    | OpInflightCount
    | OpExpire(now: real)
    | OpComplete(tid: Tid, state: TicketState)
    | OpCounters

  datatype Answer =
    | Number(n: int)
    | Record(t: Option<Ticket>)
    | Granted(fs: seq<Flight>)
    | Ids(s: set<Tid>)
    | Totals(c: Counters)
    | Done

  function Windows(high: real, medium: real, low: real): AccessClass -> real {
    (c: AccessClass) => match c case HIGH => high case MEDIUM => medium case LOW => low
  }

  /** What the two implementations ask of a caller: new ids and scores, known tickets,
      and no second entry for a ticket that is already waiting. */
  ghost predicate Permitted(m: Store, op: Op) {
    match op
    case OpCreate(tid, score, _, _, _, expiresAt) =>
      tid !in m.tickets && FreshScore(m.waiting, score) && expiresAt != Some(0.0)
    case OpReinsert(tid, score, _, _) => tid in m.tickets && !Queued(m.waiting, tid) && FreshScore(m.waiting, score)
    case OpComplete(tid, _) => tid in m.tickets
    case _ => true
  }

  ghost function Apply(m: Store, op: Op): Store
    requires Orderly(m) && Permitted(m, op)
  {
    match op
    case OpNextSeq => NextSeq(m)
    case OpCreate(tid, score, trueClass, cls, attempt, expiresAt) => CreateTicket(m, tid, score, trueClass, cls, attempt, expiresAt)
    case OpAdmit(n, now, high, medium, low) => AdmitN(m, n, now, Windows(high, medium, low))
    case OpReinsert(tid, score, newClass, newAttempt) => Reinsert(m, tid, score, newClass, newAttempt)
    case OpUpdateClass(tid, cls) => UpdateClass(m, tid, cls)
    case OpExpire(now) => ExpireInflight(m, now)
    case OpComplete(tid, state) => Complete(m, tid, state)
    case _ => m
  }

  ghost function Reply(m: Store, op: Op): Answer
    requires Orderly(m)
  {
    match op
    case OpNextSeq => Number(m.lastSeq + 1)
    case OpGet(tid) => Record(GetTicket(m, tid))
    case OpAdmit(n, now, high, medium, low) => Granted(AdmittedBy(m, n, now, Windows(high, medium, low)))
    case OpPosition(tid) => Number(Position(m, tid))
    case OpWaitingCount => Number(|m.waiting|)
    case OpInflightCount => Number(|m.inflight|)
    case OpExpire(now) => Ids(set t | t in Expired(m.inflight, now))
    case OpCounters => Totals(m.counters)
    case _ => Done
  }

  /** Every permitted call keeps the store in the shape in which the implementations agree. */
  lemma PermittedKeepsOrder(m: Store, op: Op)
    requires Orderly(m) && Permitted(m, op)
    ensures Orderly(Apply(m, op))
  {
    match op
    case OpCreate(tid, score, trueClass, cls, attempt, expiresAt) => CreateKeepsOrder(m, tid, score, trueClass, cls, attempt, expiresAt);
    case OpAdmit(n, now, high, medium, low) => AdmitKeepsOrder(m, n, now, Windows(high, medium, low));
    case OpReinsert(tid, score, newClass, newAttempt) => ReinsertKeepsOrder(m, tid, score, newClass, newAttempt);
    case OpUpdateClass(tid, cls) => UpdateClassKeepsOrder(m, tid, cls);
    case OpExpire(now) => ExpireKeepsOrder(m, now);
    case OpComplete(tid, state) => CompleteKeepsOrder(m, tid, state);
    case _ =>
  }

  ghost predicate AllPermitted(m: Store, ops: seq<Op>)
    requires Orderly(m)
    decreases |ops|
  {
    ops == [] ||
    (Permitted(m, ops[0]) && (PermittedKeepsOrder(m, ops[0]); AllPermitted(Apply(m, ops[0]), ops[1..])))
  }

  method CallInMemory(op: Op, store: InMemoryQueueStore) returns (a: Answer)
    requires Orderly(store.Contents()) && Permitted(store.Contents(), op)
    modifies store
    ensures store.Contents() == Apply(old(store.Contents()), op)
    ensures a == Reply(old(store.Contents()), op)
  {
    a := Done;
    match op
    case OpNextSeq => var n := store.NextSeq(); a := Number(n);
    case OpCreate(tid, score, trueClass, cls, attempt, expiresAt) =>
      store.CreateTicket(tid, score, trueClass, cls, attempt, expiresAt);
    case OpGet(tid) => var t := store.GetTicket(tid); a := Record(t);
    case OpAdmit(n, now, high, medium, low) =>
      var fs := store.AdmitN(n, now, Windows(high, medium, low));
      a := Granted(fs);
    case OpReinsert(tid, score, newClass, newAttempt) => store.Reinsert(tid, score, newClass, newAttempt);
    case OpUpdateClass(tid, cls) => store.UpdateClass(tid, cls);
    case OpPosition(tid) => var p := store.Position(tid); a := Number(p);
    case OpWaitingCount => var n := store.WaitingCount(); a := Number(n);
    case OpInflightCount => var n := store.InflightCount(); a := Number(n);
    case OpExpire(now) =>
      var expired := store.ExpireInflight(now);
      a := Ids(set t | t in expired);
    case OpComplete(tid, state) => store.Complete(tid, state);
    case OpCounters => a := Totals(store.counters);
  }

  method CallRedis(op: Op, store: RedisQueueStore, ghost m: Store) returns (a: Answer)
    requires store.Represents(m) && Orderly(m) && Permitted(m, op)
    modifies store
    ensures store.Represents(Apply(m, op))
    ensures a == Reply(m, op)
  {
    a := Done;
    match op
    case OpNextSeq => var n := store.NextSeq(m); a := Number(n);
    case OpCreate(tid, score, trueClass, cls, attempt, expiresAt) =>
      store.CreateTicket(tid, score, trueClass, cls, attempt, expiresAt, m);
    case OpGet(tid) => var t := store.GetTicket(tid, m); a := Record(t);
    case OpAdmit(n, now, high, medium, low) =>
      var fs := store.AdmitN(n, now, Windows(high, medium, low), m);
      a := Granted(fs);
    case OpReinsert(tid, score, newClass, newAttempt) => store.Reinsert(tid, score, newClass, newAttempt, m);
    case OpUpdateClass(tid, cls) => store.UpdateClass(tid, cls, m);
    case OpPosition(tid) => var p := store.Position(tid, m); a := Number(p);
    case OpWaitingCount => var n := store.WaitingCount(m); a := Number(n);
    case OpInflightCount => var n := store.InflightCount(m); a := Number(n);
    case OpExpire(now) =>
      var expired := store.ExpireInflight(now, m);
      assert (set t | t in expired) == set t | t in Expired(m.inflight, now);
      a := Ids(set t | t in expired);
    case OpComplete(tid, state) => store.Complete(tid, state, m);
    case OpCounters => a := Totals(store.counters);
  }

  /** The store after a sequence of calls, and what the calls answer. */
  ghost function ApplyAll(m: Store, ops: seq<Op>): Store
    requires Orderly(m) && AllPermitted(m, ops)
    decreases |ops|
  {
    if ops == [] then m else (PermittedKeepsOrder(m, ops[0]); ApplyAll(Apply(m, ops[0]), ops[1..]))
  }

  ghost function Replies(m: Store, ops: seq<Op>): seq<Answer>
    requires Orderly(m) && AllPermitted(m, ops)
    decreases |ops|
  {
    if ops == [] then []
    else (PermittedKeepsOrder(m, ops[0]); [Reply(m, ops[0])] + Replies(Apply(m, ops[0]), ops[1..]))
  }

  /** Two stores that agree answer every permitted sequence of calls alike, as specified, and agree afterwards. */
  method RunBoth(ops: seq<Op>, mem: InMemoryQueueStore, redis: RedisQueueStore) returns (a: seq<Answer>, b: seq<Answer>)
    requires Orderly(mem.Contents()) && redis.Represents(mem.Contents()) && AllPermitted(mem.Contents(), ops)
    modifies mem, redis
    ensures a == b == Replies(old(mem.Contents()), ops)
    ensures mem.Contents() == ApplyAll(old(mem.Contents()), ops)
    ensures Orderly(mem.Contents()) && redis.Represents(mem.Contents())
  {
    ghost var start := mem.Contents();
    a, b := [], [];
    assert ops[0..] == ops;
    for i := 0 to |ops|
      invariant Orderly(mem.Contents()) && redis.Represents(mem.Contents())
      invariant AllPermitted(mem.Contents(), ops[i..])
      invariant a == b && a + Replies(mem.Contents(), ops[i..]) == Replies(start, ops)
      invariant ApplyAll(mem.Contents(), ops[i..]) == ApplyAll(start, ops)
    {
      ghost var m := mem.Contents();
      assert ops[i..][0] == ops[i] && ops[i..][1..] == ops[i+1..];
      PermittedKeepsOrder(m, ops[i]);
      var y := CallRedis(ops[i], redis, m);
      var x := CallInMemory(ops[i], mem);
      assert a + ([x] + Replies(mem.Contents(), ops[i+1..])) == (a + [x]) + Replies(mem.Contents(), ops[i+1..]);
      a, b := a + [x], b + [y];
    }
    assert ops[|ops|..] == [];
  }

  /** In particular two fresh stores do. */
  method RunFresh(ops: seq<Op>) returns (mem: InMemoryQueueStore, redis: RedisQueueStore, a: seq<Answer>, b: seq<Answer>)
    requires AllPermitted(EMPTY_STORE, ops)
    ensures fresh(mem) && fresh(redis)
    ensures a == b == Replies(EMPTY_STORE, ops)
    ensures mem.Contents() == ApplyAll(EMPTY_STORE, ops) && redis.Represents(mem.Contents())
  {
    mem := new InMemoryQueueStore();
    redis := new RedisQueueStore();
    a, b := RunBoth(ops, mem, redis);
  }

  /** Re-inserting is where they part: the list grows, the sorted set overwrites. The two sizes
      agree exactly when the ticket was not already waiting. */
  lemma ReinsertAgreesIff(m: Store, z: map<Tid, int>, tid: Tid, score: int, newClass: Option<AccessClass>, newAttempt: Option<int>)
    requires Orderly(m) && WaitingSet(z, m.waiting) && tid in m.tickets
    ensures |z[tid := score]| == |Reinsert(m, tid, score, newClass, newAttempt).waiting| <==> !Queued(m.waiting, tid)
  {
    WaitingCard(z, m);
    PutCard(z, tid, score);
    if Queued(m.waiting, tid) {
      var i :| 0 <= i < |m.waiting| && m.waiting[i].tid == tid;
    }
  }

  lemma CreateAdds(m: Store, tid: Tid, score: int, trueClass: AccessClass, cls: AccessClass, attempt: int, expiresAt: Option<real>)
    ensures var m' := CreateTicket(m, tid, score, trueClass, cls, attempt, expiresAt);
            |m'.waiting| == |m.waiting| + 1 && tid in m'.tickets && m'.tickets[tid].expiresAt == expiresAt
  {
  }

  /** Creating: the stores agree exactly when the id was not already waiting and the expiry is not zero. */
  lemma CreateAgreesIff(m: Store, z: map<Tid, int>, tid: Tid, score: int, trueClass: AccessClass, cls: AccessClass,
                        attempt: int, expiresAt: Option<real>)
    requires Orderly(m) && WaitingSet(z, m.waiting)
    ensures var m' := CreateTicket(m, tid, score, trueClass, cls, attempt, expiresAt);
            |z[tid := score]| == |m'.waiting| && Stored(expiresAt) == m'.tickets[tid].expiresAt
            <==> !Queued(m.waiting, tid) && expiresAt != Some(0.0)
  {
    CreateAdds(m, tid, score, trueClass, cls, attempt, expiresAt);
    WaitingCard(z, m);
    PutCard(z, tid, score);
    if Queued(m.waiting, tid) {
      var i :| 0 <= i < |m.waiting| && m.waiting[i].tid == tid;
    }
  }

  lemma PutCard(z: map<Tid, int>, tid: Tid, score: int)
    ensures |z[tid := score]| == if tid in z then |z| else |z| + 1
  {
    var z' := z[tid := score];
    assert |z'| == |z'.Keys| && |z| == |z.Keys|;
    assert z'.Keys == z.Keys + {tid};
  }
}
