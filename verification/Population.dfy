/** The replayable population: clients are apportioned to classes by largest remainder, labelled and numbered by
    two shuffles, and sorted by arrival. */
module Population {
  import opened Numbers
  import opened Seqs
  import opened Classes

  const INDEX_BASE: nat := 900000

  // ---- apportionment ----

  function Quota(n: nat, share: real): real { n as real * share }

  function Quotas(n: nat, shares: seq<real>): (q: seq<real>)
    ensures |q| == |shares|
  {
    seq(|shares|, i requires 0 <= i < |shares| => Quota(n, shares[i]))
  }

  function Floors(q: seq<real>): (r: seq<int>)
    ensures |r| == |q|
  {
    seq(|q|, i requires 0 <= i < |q| => Trunc(q[i]))
  }

  function Remainder(x: real): real { x - Trunc(x) as real }

  /** The sorting key of a class: its remainder, largest first. */
  function Key(q: seq<real>): int -> real {
    (i: int) => if 0 <= i < |q| then -Remainder(q[i]) else 0.0
  }

  function Upto(k: nat): (r: seq<int>)
    ensures |r| == k
  {
    seq(k, i => i)
  }

  /** The classes, largest remainder first, ties in the given order. */
  function Order(q: seq<real>): (r: seq<int>)
    ensures |r| == |q|
  {
    SortBy(Key(q), Upto(|q|))
  }

  function Shortfall(n: nat, q: seq<real>): int { n - SumInts(Floors(q)) }

  /** Where the slice `order[:shortfall]` ends: a negative bound counts from the back. */
  function SliceEnd(k: nat, shortfall: int): (r: nat)
    ensures r <= k
  {
    if k + shortfall < 0 then 0 else if shortfall < 0 then k + shortfall else if k < shortfall then k else shortfall
  }

  /** The classes that get one more. */
  function Bumped(n: nat, q: seq<real>): seq<int> {
    Order(q)[..SliceEnd(|q|, Shortfall(n, q))]
  }

  function PlusOneIn(s: seq<int>, up: seq<int>): (r: seq<int>)
    ensures |r| == |s|
  {
    seq(|s|, i requires 0 <= i < |s| => s[i] + if i in up then 1 else 0)
  }

  function Apportioned(n: nat, q: seq<real>): (r: seq<int>)
    ensures |r| == |q|
  {
    PlusOneIn(Floors(q), Bumped(n, q))
  }

  ghost predicate Places(k: nat, up: seq<int>) {
    && (forall i :: 0 <= i < |up| ==> 0 <= up[i] < k)
    && (forall i, j :: 0 <= i < j < |up| ==> up[i] != up[j])
  }

  /** Truncate every quota, sort by remainder, and add one to each of the first classes. */
  method Apportion(n: nat, shares: seq<real>) returns (counts: seq<int>)
    ensures counts == Apportioned(n, Quotas(n, shares))
  {
    ghost var q := Quotas(n, shares);
    var raw := [];
    counts := [];
    var sum := 0;
    for i := 0 to |shares|
      invariant raw == q[..i] && counts == Floors(q)[..i] && sum == SumInts(counts)
    {
      var x := Quota(n, shares[i]);
      assert q[..i+1] == raw + [x] && Floors(q)[..i+1] == counts + [Trunc(x)];
      assert (counts + [Trunc(x)])[..i] == counts;
      raw, counts, sum := raw + [x], counts + [Trunc(x)], sum + Trunc(x);
    }
    assert raw == q && counts == Floors(q);
    var order := SortBy(Key(raw), Upto(|raw|));
    OrderDistinct(q);
    counts := AddOne(counts, order[..SliceEnd(|raw|, n - sum)]);
  }

  method AddOne(s: seq<int>, up: seq<int>) returns (r: seq<int>)
    requires Places(|s|, up)
    ensures r == PlusOneIn(s, up)
  {
    r := s;
    for j := 0 to |up|
      invariant r == PlusOneIn(s, up[..j])
    {
      var i := up[j];
      assert i !in up[..j] && up[..j+1] == up[..j] + [i];
      r := r[i := r[i] + 1];
    }
    assert up[..|up|] == up;
  }

  function Itself(i: int): int { i }

  /** The order lists every class once. */
  lemma OrderDistinct(q: seq<real>)
    ensures Places(|q|, Order(q))
  {
    SortByMembers(Key(q), Upto(|q|));
    var o := Order(q);
    forall i | 0 <= i < |o| ensures 0 <= o[i] < |q| { assert o[i] in o; }
    SortByDistinct(Key(q), Itself, Upto(|q|));
    assert forall i, j :: 0 <= i < j < |o| ==> Itself(o[i]) != Itself(o[j]);
  }

  // ---- the counts add up ----

  /** Adding one at each of some distinct places adds their number. */
  lemma {:induction false} PlusOneTotal(s: seq<int>, up: seq<int>)
    requires Places(|s|, up)
    ensures SumInts(PlusOneIn(s, up)) == SumInts(s) + |up|
  {
    if up == [] {
      assert PlusOneIn(s, up) == s;
    } else {
      var last, before := up[|up|-1], up[..|up|-1];
      assert last !in before && up == before + [last];
      PlusOneTotal(s, before);
      TotalUpdate(PlusOneIn(s, before), last, s[last] + 1);
      assert PlusOneIn(s, up) == PlusOneIn(s, before)[last := s[last] + 1];
    }
  }

  lemma {:induction false} TotalUpdate(s: seq<int>, i: nat, x: int)
    requires i < |s|
    ensures SumInts(s[i := x]) == SumInts(s) - s[i] + x
  {
    var most := s[..|s|-1];
    if i == |s| - 1 {
      assert s[i := x][..|s|-1] == most;
    } else {
      assert s[i := x][..|s|-1] == most[i := x];
      TotalUpdate(most, i, x);
    }
  }

  lemma ApportionedTotal(n: nat, q: seq<real>)
    ensures SumInts(Apportioned(n, q)) == SumInts(Floors(q)) + SliceEnd(|q|, Shortfall(n, q))
  {
    OrderDistinct(q);
    PlusOneTotal(Floors(q), Bumped(n, q));
  }

  /** The exact condition: the counts sum to `n` if and only if truncation left between none and one client a
      class over. Outside it a negative slice bound adds clients, or the classes run out. */
  lemma SumsToNIff(n: nat, q: seq<real>)
    ensures SumInts(Apportioned(n, q)) == n <==> 0 <= Shortfall(n, q) <= |q|
  {
    ApportionedTotal(n, q);
  }

  // ---- remainders ----

  /** The sum of the remainders of the listed classes. */
  function Rests(q: seq<real>, ix: seq<int>): real
    requires forall i :: 0 <= i < |ix| ==> 0 <= ix[i] < |q|
  {
    if ix == [] then 0.0 else Rests(q, ix[..|ix|-1]) + Remainder(q[ix[|ix|-1]])
  }

  lemma QuotaAdds(n: nat, a: real, b: real)
    ensures Quota(n, a + b) == Quota(n, a) + Quota(n, b)
  {
  }

  lemma QuotaGrows(n: nat, a: real, b: real)
    requires a <= b
    ensures Quota(n, a) <= Quota(n, b)
  {
    Product(n as real, b - a);
    QuotaAdds(n, a, b - a);
  }

  lemma {:induction false} QuotasSum(n: nat, shares: seq<real>)
    ensures SumReals(Quotas(n, shares)) == Quota(n, SumReals(shares))
  {
    if shares != [] {
      var most := shares[..|shares|-1];
      QuotasSum(n, most);
      assert Quotas(n, shares)[..|shares|-1] == Quotas(n, most);
      QuotaAdds(n, SumReals(most), shares[|shares|-1]);
    }
  }

  lemma QuotasNonNegative(n: nat, shares: seq<real>)
    requires NonNegative(shares)
    ensures NonNegative(Quotas(n, shares))
  {
    forall i | 0 <= i < |shares| ensures 0.0 <= Quotas(n, shares)[i] {
      QuotaGrows(n, 0.0, shares[i]);
    }
  }

  /** Quotas are floors plus remainders, summed. */
  lemma {:induction false} QuotasSplit(q: seq<real>, k: nat)
    requires k <= |q|
    ensures SumReals(q[..k]) == SumInts(Floors(q)[..k]) as real + Rests(q, Upto(k))
  {
    if k > 0 {
      QuotasSplit(q, k - 1);
      assert q[..k][..k-1] == q[..k-1];
      assert Floors(q)[..k][..k-1] == Floors(q)[..k-1];
      assert Upto(k)[..k-1] == Upto(k-1);
    }
  }

  lemma {:induction false} InsertKeepsRests(q: seq<real>, s: seq<int>, x: int)
    requires 0 <= x < |q| && forall i :: 0 <= i < |s| ==> 0 <= s[i] < |q|
    ensures forall i :: 0 <= i < |s| + 1 ==> 0 <= InsertBy(Key(q), s, x)[i] < |q|
    ensures Rests(q, InsertBy(Key(q), s, x)) == Rests(q, s) + Remainder(q[x])
  {
    var key := Key(q);
    var r := InsertBy(key, s, x);
    if s == [] || key(s[|s|-1]) <= key(x) {
      assert r[..|r|-1] == s;
    } else {
      InsertKeepsRests(q, s[..|s|-1], x);
      assert r[..|r|-1] == InsertBy(key, s[..|s|-1], x);
    }
  }

  lemma {:induction false} SortKeepsRests(q: seq<real>, s: seq<int>)
    requires forall i :: 0 <= i < |s| ==> 0 <= s[i] < |q|
    ensures forall i :: 0 <= i < |s| ==> 0 <= SortBy(Key(q), s)[i] < |q|
    ensures Rests(q, SortBy(Key(q), s)) == Rests(q, s)
  {
    if s != [] {
      SortKeepsRests(q, s[..|s|-1]);
      InsertKeepsRests(q, SortBy(Key(q), s[..|s|-1]), s[|s|-1]);
    }
  }

  /** The shortfall is the sum of the remainders, in the order they are served, and what the quotas miss. */
  lemma ShortfallIsRests(n: nat, q: seq<real>)
    ensures forall i :: 0 <= i < |q| ==> 0 <= Order(q)[i] < |q|
    ensures Shortfall(n, q) as real == n as real - SumReals(q) + Rests(q, Order(q))
  {
    QuotasSplit(q, |q|);
    assert q[..|q|] == q && Floors(q)[..|q|] == Floors(q);
    SortKeepsRests(q, Upto(|q|));
  }

  lemma {:induction false} RestsBelow(q: seq<real>, ix: seq<int>)
    requires NonNegative(q) && forall i :: 0 <= i < |ix| ==> 0 <= ix[i] < |q|
    ensures 0.0 <= Rests(q, ix) <= |ix| as real && (ix != [] ==> Rests(q, ix) < |ix| as real)
  {
    if ix != [] {
      RestsBelow(q, ix[..|ix|-1]);
      assert 0.0 <= q[ix[|ix|-1]];
    }
  }

  lemma {:induction false} ZeroTail(q: seq<real>, ix: seq<int>, j: nat)
    requires j <= |ix| && forall i :: 0 <= i < |ix| ==> 0 <= ix[i] < |q|
    requires forall i :: j <= i < |ix| ==> Remainder(q[ix[i]]) == 0.0
    ensures Rests(q, ix) == Rests(q, ix[..j])
  {
    if j == |ix| {
      assert ix[..j] == ix;
    } else {
      var most := ix[..|ix|-1];
      assert most[..j] == ix[..j];
      ZeroTail(q, most, j);
    }
  }

  /** The places go to positive remainders only. */
  lemma BumpedHasRemainder(n: nat, q: seq<real>, j: nat)
    requires NonNegative(q) && SumReals(q) == n as real && j < Shortfall(n, q) && j < |q|
    ensures 0 <= Order(q)[j] < |q| && 0.0 < Remainder(q[Order(q)[j]])
  {
    ShortfallIsRests(n, q);
    var o := Order(q);
    assert 0.0 <= q[o[j]];
    if Remainder(q[o[j]]) == 0.0 {
      SortBySorted(Key(q), Upto(|q|));
      forall i | j <= i < |o| ensures Remainder(q[o[i]]) == 0.0 {
        assert 0.0 <= q[o[i]];
        assert Key(q)(o[j]) <= Key(q)(o[i]);
      }
      ZeroTail(q, o, j);
      RestsBelow(q, o[..j]);
    }
  }

  /** Fair apportionment: for shares that sum to one the counts sum to `n`, each is the floor or the ceiling of its
      quota, and a whole quota gets exactly itself. */
  lemma ApportionmentIsFair(n: nat, shares: seq<real>)
    requires NonNegative(shares) && SumReals(shares) == 1.0
    ensures SumInts(Apportioned(n, Quotas(n, shares))) == n
    ensures forall i :: 0 <= i < |shares| ==>
      var c, x := Apportioned(n, Quotas(n, shares))[i], Quotas(n, shares)[i];
      x - 1.0 < c as real < x + 1.0 && 0 <= c && (x == x.Floor as real ==> c as real == x)
  {
    QuotasSum(n, shares);
    QuotasNonNegative(n, shares);
    var q := Quotas(n, shares);
    CountsSum(n, q);
    forall i | 0 <= i < |shares|
      ensures var c, x := Apportioned(n, q)[i], q[i];
              x - 1.0 < c as real < x + 1.0 && 0 <= c && (x == x.Floor as real ==> c as real == x)
    {
      FloorOrCeiling(n, q, i);
    }
  }

  lemma CountsSum(n: nat, q: seq<real>)
    requires NonNegative(q) && -1.0 < SumReals(q) - n as real < 1.0
    ensures SumInts(Apportioned(n, q)) == n
  {
    ShortfallIsRests(n, q);
    RestsBelow(q, Order(q));
    SumsToNIff(n, q);
  }

  lemma FloorOrCeiling(n: nat, q: seq<real>, i: nat)
    requires NonNegative(q) && SumReals(q) == n as real && i < |q|
    ensures var c, x := Apportioned(n, q)[i], q[i];
            x - 1.0 < c as real < x + 1.0 && 0 <= c && (x == x.Floor as real ==> c as real == x)
  {
    var up := Bumped(n, q);
    if i in up {
      var j :| 0 <= j < |up| && up[j] == i;
      ShortfallIsRests(n, q);
      RestsBelow(q, Order(q));
      BumpedHasRemainder(n, q, j);
    }
  }

  /** The loader accepts shares that miss one by a millionth. Up to a million clients that costs nothing. */
  lemma ToleranceIsSafeBelowAMillion(n: nat, shares: seq<real>)
    requires NonNegative(shares) && -0.000001 <= SumReals(shares) - 1.0 <= 0.000001 && n < 1000000
    ensures SumInts(Apportioned(n, Quotas(n, shares))) == n
  {
    QuotasSum(n, shares);
    QuotasNonNegative(n, shares);
    QuotaGrows(n, 0.999999, SumReals(shares));
    QuotaGrows(n, SumReals(shares), 1.000001);
    CountsSum(n, Quotas(n, shares));
  }

  /** Beyond, it can: two million clients with one share a millionth too large get three clients too many. */
  lemma ToleranceBreaks()
    ensures var shares := [1.000001, 0.0, 0.0];
            && NonNegative(shares) && SumReals(shares) - 1.0 <= 0.000001
            && SumInts(Apportioned(2000000, Quotas(2000000, shares))) == 2000003
  {
    var n, shares := 2000000, [1.000001, 0.0, 0.0];
    SumThree(1.000001, 0.0, 0.0);
    var q := Quotas(n, shares);
    assert q == [2000002.0, 0.0, 0.0];
    assert Floors(q) == [2000002, 0, 0];
    SumThreeInts(2000002, 0, 0);
    ApportionedTotal(n, q);
  }

  /** Shares that the loader accepts: three, none negative, and in sum at most a millionth off. */
  ghost predicate Accepted(shares: seq<real>) {
    |shares| == 3 && NonNegative(shares) && -0.000001 <= SumReals(shares) - 1.0 <= 0.000001
  }

  /** A million clients is the exact boundary: below it every accepted mix yields all clients, from there on some
      accepted mix does not. */
  lemma ToleranceIsSafeIff(n: nat)
    ensures (forall shares :: Accepted(shares) ==> SumInts(Apportioned(n, Quotas(n, shares))) == n) <==> n < 1000000
  {
    if n < 1000000 {
      forall shares | Accepted(shares) ensures SumInts(Apportioned(n, Quotas(n, shares))) == n {
        ToleranceIsSafeBelowAMillion(n, shares);
      }
    } else {
      MillionIsTooMany(n);
    }
  }

  lemma MillionthMore(n: nat)
    requires 1000000 <= n
    ensures (n + 1) as real <= Quota(n, 1.000001) && Quota(n, 0.0) == 0.0
  {
    QuotaAdds(n, 1.0, 0.000001);
  }

  lemma SumThree(x: real, y: real, z: real)
    ensures SumReals([x, y, z]) == x + y + z
  {
    assert [x, y, z][..2] == [x, y] && [x, y][..1] == [x] && [x][..0] == [];
    assert SumReals([x]) == x;
    assert SumReals([x, y]) == x + y;
  }

  lemma SumThreeInts(x: int, y: int, z: int)
    ensures SumInts([x, y, z]) == x + y + z
  {
    assert [x, y, z][..2] == [x, y] && [x, y][..1] == [x] && [x][..0] == [];
    assert SumInts([x]) == x;
    assert SumInts([x, y]) == x + y;
  }

  lemma MillionIsTooMany(n: nat)
    requires 1000000 <= n
    ensures var shares := [1.000001, 0.0, 0.0]; Accepted(shares) && SumInts(Apportioned(n, Quotas(n, shares))) != n
  {
    var q := Quotas(n, [1.000001, 0.0, 0.0]);
    SumThree(1.000001, 0.0, 0.0);
    MillionthMore(n);
    var x := q[0];
    assert q == [x, 0.0, 0.0];
    assert Floors(q) == [x.Floor, 0, 0];
    SumThreeInts(x.Floor, 0, 0);
    SumsToNIff(n, q);
  }

  /** Largest remainder first: whoever is rounded up has at least the remainder of whoever is not. */
  lemma LargestRemainderFirst(n: nat, q: seq<real>, a: nat, b: nat)
    requires a < |q| && b < |q| && a in Bumped(n, q) && b !in Bumped(n, q)
    ensures Remainder(q[b]) <= Remainder(q[a])
  {
    SortBySorted(Key(q), Upto(|q|));
    SortByMembers(Key(q), Upto(|q|));
    var o, m := Order(q), |Bumped(n, q)|;
    var i :| 0 <= i < m && o[..m][i] == a;
    assert b in Upto(|q|) by { assert Upto(|q|)[b] == b; }
    assert forall t :: 0 <= t < m ==> o[t] == Bumped(n, q)[t];
    var j :| 0 <= j < |o| && o[j] == b;
    assert Key(q)(o[i]) <= Key(q)(o[j]);
  }

  // ---- the population ----

  datatype Client = Client(index: nat, indexNo: nat, trueClass: nat, arrival: real, seed: int)

  /** The labels in class order, each as often as its class counts. */
  function Labels(counts: seq<int>): seq<nat> {
    if counts == [] then []
    else Labels(counts[..|counts|-1]) + Copies(|counts| - 1, counts[|counts|-1])
  }

  function Copies(name: nat, count: int): seq<nat> {
    if count <= 0 then [] else seq(count, _ => name)
  }

  function IndexNumbers(n: nat): seq<nat> { seq(n, i requires 0 <= i < n => INDEX_BASE + i) }

  function Built(seed: int, labels: seq<nat>, numbers: seq<nat>, arrivals: seq<real>, n: nat): seq<Client>
    requires n <= |labels| && n <= |numbers| && n <= |arrivals|
  {
    seq(n, i requires 0 <= i < n => Client(i, numbers[i], labels[i], arrivals[i], seed + i))
  }

  function ArrivalKey(c: Client): real { c.arrival }

  /** The clients of one population, or nothing when the labels and the numbers do not match one to one. */
  method Generate(seed: int, n: nat, shares: seq<real>, labels: seq<nat>, numbers: seq<nat>, arrivals: seq<real>)
    returns (clients: Option<seq<Client>>)
    requires multiset(labels) == multiset(Labels(Apportioned(n, Quotas(n, shares))))
    requires multiset(numbers) == multiset(IndexNumbers(n))
    requires |arrivals| == n
    ensures clients.Some? <==> |labels| == n
    ensures clients.Some? ==> |numbers| == n && clients.value == SortBy(ArrivalKey, Built(seed, labels, numbers, arrivals, n))
  {
    assert |numbers| == |multiset(numbers)| == |multiset(IndexNumbers(n))| == n;
    if |labels| != |numbers| {
      return None;
    }
    var cs := [];
    for i := 0 to n
      invariant cs == Built(seed, labels, numbers, arrivals, i)
    {
      cs := cs + [Client(i, numbers[i], labels[i], arrivals[i], seed + i)];
    }
    clients := Some(SortBy(ArrivalKey, cs));
  }

  function ByClass(cs: seq<Client>, c: nat): seq<Client> {
    if cs == [] then []
    else ByClass(cs[..|cs|-1], c) + if cs[|cs|-1].trueClass == c then [cs[|cs|-1]] else []
  }

  function IsClass(c: nat): Client -> bool { (x: Client) => x.trueClass == c }

  lemma {:induction false} ByClassCount(cs: seq<Client>, c: nat)
    ensures |ByClass(cs, c)| == CountIf(cs, IsClass(c))
  {
    if cs != [] {
      ByClassCount(cs[..|cs|-1], c);
    }
  }

  /** The classes partition the clients: each is selected by its own class, as often as it occurs, and by no other. */
  lemma {:induction false} ByClassPartitions(cs: seq<Client>, c: nat, x: Client)
    ensures multiset(ByClass(cs, c))[x] == if x.trueClass == c then multiset(cs)[x] else 0
  {
    if cs != [] {
      var most, last := cs[..|cs|-1], cs[|cs|-1];
      ByClassPartitions(most, c, x);
      assert cs == most + [last];
      assert multiset(cs)[x] == multiset(most)[x] + multiset([last])[x];
      if last.trueClass == c {
        assert multiset(ByClass(most, c) + [last])[x] == multiset(ByClass(most, c))[x] + multiset([last])[x];
      } else {
        assert ByClass(cs, c) == ByClass(most, c);
      }
    }
  }

  lemma {:induction false} BuiltCount(seed: int, labels: seq<nat>, numbers: seq<nat>, arrivals: seq<real>, n: nat, c: nat)
    requires n <= |labels| && n <= |numbers| && n <= |arrivals|
    ensures CountIf(Built(seed, labels, numbers, arrivals, n), IsClass(c)) == multiset(labels[..n])[c]
  {
    if n > 0 {
      var b := Built(seed, labels, numbers, arrivals, n);
      assert b[..n-1] == Built(seed, labels, numbers, arrivals, n - 1);
      BuiltCount(seed, labels, numbers, arrivals, n - 1, c);
      assert labels[..n] == labels[..n-1] + [labels[n-1]];
    }
  }

  lemma {:induction false} CopiesCount(name: nat, count: int, c: nat)
    ensures multiset(Copies(name, count))[c] == if c == name && 0 < count then count else 0
  {
    if 0 < count {
      CopiesCount(name, count - 1, c);
      assert Copies(name, count) == Copies(name, count - 1) + [name];
    }
  }

  lemma {:induction false} LabelsCount(counts: seq<int>, c: nat)
    requires forall i :: 0 <= i < |counts| ==> 0 <= counts[i]
    ensures |Labels(counts)| == SumInts(counts)
    ensures multiset(Labels(counts))[c] == if c < |counts| then counts[c] else 0
  {
    if counts != [] {
      LabelsCount(counts[..|counts|-1], c);
      CopiesCount(|counts| - 1, counts[|counts|-1], c);
    }
  }

  lemma {:induction false} NumbersOnce(n: nat, x: nat)
    ensures multiset(IndexNumbers(n))[x] == if INDEX_BASE <= x < INDEX_BASE + n then 1 else 0
  {
    if n > 0 {
      NumbersOnce(n - 1, x);
      assert IndexNumbers(n) == IndexNumbers(n - 1) + [INDEX_BASE + n - 1];
    }
  }

  /** For any shuffle of the labels: a population exists, and has exactly the apportioned number of clients of
      every class. */
  lemma ClassCountsExact(seed: int, n: nat, shares: seq<real>, labels: seq<nat>, numbers: seq<nat>, arrivals: seq<real>, c: nat)
    requires NonNegative(shares) && SumReals(shares) == 1.0 && c < |shares|
    requires multiset(labels) == multiset(Labels(Apportioned(n, Quotas(n, shares))))
    requires |numbers| == n && |arrivals| == n
    ensures |labels| == n
    ensures |ByClass(SortBy(ArrivalKey, Built(seed, labels, numbers, arrivals, n)), c)| == Apportioned(n, Quotas(n, shares))[c]
  {
    ApportionmentIsFair(n, shares);
    LabelsCount(Apportioned(n, Quotas(n, shares)), c);
    assert |labels| == |multiset(labels)|;
    var b := Built(seed, labels, numbers, arrivals, n);
    BuiltCount(seed, labels, numbers, arrivals, n, c);
    assert labels[..n] == labels;
    SortByCount(ArrivalKey, b, IsClass(c));
    ByClassCount(SortBy(ArrivalKey, b), c);
  }

  function IndexOf(c: Client): nat { c.indexNo }

  function SeedOf(c: Client): int { c.seed }

  /** A client's seed is that of the run plus its index, so no two clients share one, and whichever client comes first
      in the sorted population, its seed tells which one it is. */
  lemma SeedsDistinct(seed: int, labels: seq<nat>, numbers: seq<nat>, arrivals: seq<real>, n: nat)
    requires n <= |labels| && n <= |numbers| && n <= |arrivals|
    ensures var cs := SortBy(ArrivalKey, Built(seed, labels, numbers, arrivals, n));
            DistinctBy(SeedOf, cs) && forall i :: 0 <= i < |cs| ==> seed <= cs[i].seed < seed + n && cs[i].index == cs[i].seed - seed
  {
    var b := Built(seed, labels, numbers, arrivals, n);
    SortByDistinct(ArrivalKey, SeedOf, b);
    SortByMembers(ArrivalKey, b);
    var cs := SortBy(ArrivalKey, b);
    forall i | 0 <= i < |cs| ensures seed <= cs[i].seed < seed + n && cs[i].index == cs[i].seed - seed {
      assert cs[i] in cs && cs[i] in b;
    }
  }

  /** For any shuffle of the numbers: no two clients share an index number, and all lie in the block. */
  lemma IndexNumbersDistinct(seed: int, n: nat, labels: seq<nat>, numbers: seq<nat>, arrivals: seq<real>)
    requires multiset(numbers) == multiset(IndexNumbers(n)) && |labels| == n && |arrivals| == n
    ensures |numbers| == n
    ensures var cs := SortBy(ArrivalKey, Built(seed, labels, numbers, arrivals, n));
            && DistinctBy(IndexOf, cs)
            && forall i :: 0 <= i < |cs| ==> INDEX_BASE <= cs[i].indexNo < INDEX_BASE + n
  {
    assert |numbers| == |multiset(numbers)| == |multiset(IndexNumbers(n))| == n;
    var b := Built(seed, labels, numbers, arrivals, n);
    forall i, j | 0 <= i < j < n ensures numbers[i] != numbers[j] {
      NumbersOnce(n, numbers[i]);
      if numbers[i] == numbers[j] {
        TwiceInside(numbers, i, j);
      }
    }
    SortByDistinct(ArrivalKey, IndexOf, b);
    var cs := SortBy(ArrivalKey, b);
    SortByMembers(ArrivalKey, b);
    forall i | 0 <= i < |cs| ensures INDEX_BASE <= cs[i].indexNo < INDEX_BASE + n {
      assert cs[i] in b;
      var k :| 0 <= k < |b| && b[k] == cs[i];
      assert numbers[k] in multiset(numbers);
      NumbersOnce(n, numbers[k]);
    }
  }

  lemma TwiceInside(s: seq<nat>, i: nat, j: nat)
    requires i < j < |s| && s[i] == s[j]
    ensures 2 <= multiset(s)[s[i]]
  {
    assert s == s[..i] + [s[i]] + s[i+1..j] + [s[j]] + s[j+1..];
  }

  ghost predicate Before(a: Client, b: Client) {
    a.arrival < b.arrival || (a.arrival == b.arrival && a.index < b.index)
  }

  ghost predicate InOrder(cs: seq<Client>) {
    forall i, j :: 0 <= i < j < |cs| ==> Before(cs[i], cs[j])
  }

  /** Clients come in order of arrival, and equal arrivals in order of their index. */
  lemma {:induction false} StableBuilt(seed: int, labels: seq<nat>, numbers: seq<nat>, arrivals: seq<real>, n: nat)
    requires n <= |labels| && n <= |arrivals| && n <= |numbers|
    ensures var cs := SortBy(ArrivalKey, Built(seed, labels, numbers, arrivals, n));
            InOrder(cs) && forall i :: 0 <= i < |cs| ==> cs[i].index < n
  {
    if n > 0 {
      var b := Built(seed, labels, numbers, arrivals, n);
      assert b[..n-1] == Built(seed, labels, numbers, arrivals, n - 1);
      StableBuilt(seed, labels, numbers, arrivals, n - 1);
      InsertInOrder(SortBy(ArrivalKey, b[..n-1]), b[n-1]);
    }
  }

  lemma InsertInOrder(cs: seq<Client>, x: Client)
    requires InOrder(cs) && forall i :: 0 <= i < |cs| ==> cs[i].index < x.index
    ensures var r := InsertBy(ArrivalKey, cs, x);
            InOrder(r) && forall i :: 0 <= i < |r| ==> r[i].index <= x.index
  {
    assert SortedBy(ArrivalKey, cs);
    var k := InsertByPlace(ArrivalKey, cs, x);
    assert forall i :: 0 <= i < k ==> ArrivalKey(cs[i]) <= ArrivalKey(x);
    assert forall i :: k <= i < |cs| ==> ArrivalKey(x) < ArrivalKey(cs[i]);
    BetweenInOrder(cs[..k], x, cs[k..]);
  }

  lemma BetweenInOrder(a: seq<Client>, x: Client, b: seq<Client>)
    requires InOrder(a) && InOrder(b)
    requires forall i, j :: 0 <= i < |a| && 0 <= j < |b| ==> Before(a[i], b[j])
    requires forall i :: 0 <= i < |a| ==> Before(a[i], x) && a[i].index <= x.index
    requires forall i :: 0 <= i < |b| ==> Before(x, b[i]) && b[i].index <= x.index
    ensures InOrder(a + [x] + b) && forall i :: 0 <= i < |a + [x] + b| ==> (a + [x] + b)[i].index <= x.index
  {
    var r := a + [x] + b;
    forall i, j | 0 <= i < j < |r| ensures Before(r[i], r[j]) {
      assert r[i] == if i < |a| then a[i] else if i == |a| then x else b[i-|a|-1];
      assert r[j] == if j < |a| then a[j] else if j == |a| then x else b[j-|a|-1];
    }
  }
}
