/** Counting and stable sorting over sequences: what `sum(1 for ...)`, `sum(...)`
    and `list.sort(key=...)` mean in the rest of the project. */
module Seqs {

  /** The number of elements of `s` that satisfy `p`. */
  function CountIf<T>(s: seq<T>, p: T -> bool): nat {
    if s == [] then 0 else CountIf(s[..|s|-1], p) + (if p(s[|s|-1]) then 1 else 0)
  }

  lemma {:induction false} CountIfConcat<T>(a: seq<T>, b: seq<T>, p: T -> bool)
    ensures CountIf(a + b, p) == CountIf(a, p) + CountIf(b, p)
  {
    if b == [] {
      assert a + b == a;
    } else {
      assert (a + b)[..|a + b|-1] == a + b[..|b|-1];
      CountIfConcat(a, b[..|b|-1], p);
    }
  }

  lemma {:induction false} CountIfSame<T>(s: seq<T>, p: T -> bool, q: T -> bool)
    requires forall i :: 0 <= i < |s| ==> p(s[i]) == q(s[i])
    ensures CountIf(s, p) == CountIf(s, q)
  {
    if s != [] {
      CountIfSame(s[..|s|-1], p, q);
    }
  }

  lemma {:induction false} CountIfAtMost<T>(s: seq<T>, p: T -> bool, q: T -> bool)
    requires forall i :: 0 <= i < |s| && p(s[i]) ==> q(s[i])
    ensures CountIf(s, p) <= CountIf(s, q)
  {
    if s != [] {
      CountIfAtMost(s[..|s|-1], p, q);
    }
  }

  lemma {:induction false} CountIfNone<T>(s: seq<T>, p: T -> bool)
    requires forall i :: 0 <= i < |s| ==> !p(s[i])
    ensures CountIf(s, p) == 0
  {
    if s != [] {
      CountIfNone(s[..|s|-1], p);
    }
  }

  lemma {:induction false} CountIfAll<T>(s: seq<T>, p: T -> bool)
    requires forall i :: 0 <= i < |s| ==> p(s[i])
    ensures CountIf(s, p) == |s|
  {
    if s != [] {
      CountIfAll(s[..|s|-1], p);
    }
  }

  lemma {:induction false} CountIfBound<T>(s: seq<T>, p: T -> bool)
    ensures CountIf(s, p) <= |s|
  {
    if s != [] {
      CountIfBound(s[..|s|-1], p);
    }
  }

  lemma {:induction false} CountIfSome<T>(s: seq<T>, p: T -> bool, i: nat)
    requires i < |s| && p(s[i])
    ensures 0 < CountIf(s, p)
  {
    if i < |s| - 1 {
      CountIfSome(s[..|s|-1], p, i);
    }
  }

  /** What satisfies one of two exclusive conditions is counted by the one or by the other. */
  lemma {:induction false} CountIfSplit<T>(s: seq<T>, p: T -> bool, q: T -> bool, r: T -> bool)
    requires forall i :: 0 <= i < |s| ==> (r(s[i]) <==> p(s[i]) || q(s[i])) && !(p(s[i]) && q(s[i]))
    ensures CountIf(s, r) == CountIf(s, p) + CountIf(s, q)
  {
    if s != [] {
      CountIfSplit(s[..|s|-1], p, q, r);
    }
  }

  /** The sum of `f` over `s`. */
  function Sum<T>(s: seq<T>, f: T -> int): int {
    if s == [] then 0 else Sum(s[..|s|-1], f) + f(s[|s|-1])
  }

  function SumInts(s: seq<int>): int {
    if s == [] then 0 else SumInts(s[..|s|-1]) + s[|s|-1]
  }

  function SumReals(s: seq<real>): real {
    if s == [] then 0.0 else SumReals(s[..|s|-1]) + s[|s|-1]
  }

  ghost predicate NonNegative(s: seq<real>) {
    forall i :: 0 <= i < |s| ==> 0.0 <= s[i]
  }

  ghost predicate SortedBy<T(!new)>(key: T -> real, s: seq<T>) {
    forall i, j :: 0 <= i < j < |s| ==> key(s[i]) <= key(s[j])
  }

  /** `x` goes behind every element whose key does not exceed its own. */
  function InsertBy<T>(key: T -> real, s: seq<T>, x: T): (r: seq<T>)
    ensures |r| == |s| + 1
  {
    if s == [] || key(s[|s|-1]) <= key(x) then s + [x]
    else InsertBy(key, s[..|s|-1], x) + [s[|s|-1]]
  }

  /** The stable sort of `s` by `key`. */
  function SortBy<T>(key: T -> real, s: seq<T>): (r: seq<T>)
    ensures |r| == |s|
  {
    if s == [] then [] else InsertBy(key, SortBy(key, s[..|s|-1]), s[|s|-1])
  }

  /** Where the insertion lands: the keys before it are not larger, those behind it are larger. */
  lemma {:induction false} InsertByPlace<T(!new)>(key: T -> real, s: seq<T>, x: T) returns (k: nat)
    requires SortedBy(key, s)
    ensures k <= |s| && InsertBy(key, s, x) == s[..k] + [x] + s[k..]
    ensures forall i :: 0 <= i < k ==> key(s[i]) <= key(x)
    ensures forall i :: k <= i < |s| ==> key(x) < key(s[i])
  {
    if s == [] || key(s[|s|-1]) <= key(x) {
      k := |s|;
      assert s[..k] == s && s[k..] == [];
    } else {
      var t, last := s[..|s|-1], s[|s|-1];
      k := InsertByPlace(key, t, x);
      assert t[..k] == s[..k] && t[k..] + [last] == s[k..];
      assert InsertBy(key, s, x) == t[..k] + [x] + t[k..] + [last] == s[..k] + [x] + s[k..];
      forall i | k <= i < |s| ensures key(x) < key(s[i]) {
        assert i < |t| ==> t[i] == s[i];
      }
    }
  }

  lemma InsertBySorted<T(!new)>(key: T -> real, s: seq<T>, x: T)
    requires SortedBy(key, s)
    ensures SortedBy(key, InsertBy(key, s, x))
  {
    var k := InsertByPlace(key, s, x);
    var r := InsertBy(key, s, x);
    forall i, j | 0 <= i < j < |r| ensures key(r[i]) <= key(r[j]) {
      assert r[i] == if i < k then s[i] else if i == k then x else s[i-1];
      assert r[j] == if j < k then s[j] else if j == k then x else s[j-1];
    }
  }

  lemma {:induction false} SortBySorted<T(!new)>(key: T -> real, s: seq<T>)
    ensures SortedBy(key, SortBy(key, s))
  {
    if s != [] {
      SortBySorted(key, s[..|s|-1]);
      InsertBySorted(key, SortBy(key, s[..|s|-1]), s[|s|-1]);
    }
  }

  lemma {:induction false} InsertByAtEnd<T(!new)>(key: T -> real, s: seq<T>, x: T)
    requires forall i :: 0 <= i < |s| ==> key(s[i]) <= key(x)
    ensures InsertBy(key, s, x) == s + [x]
  {
  }

  /** Sorting a sorted list changes nothing. */
  lemma {:induction false} SortByIdentity<T(!new)>(key: T -> real, s: seq<T>)
    requires SortedBy(key, s)
    ensures SortBy(key, s) == s
  {
    if s != [] {
      SortByIdentity(key, s[..|s|-1]);
      assert s == s[..|s|-1] + [s[|s|-1]];
    }
  }

  /** Append and sort, on a list that was sorted, is one insertion. */
  lemma SortByAppend<T(!new)>(key: T -> real, s: seq<T>, x: T)
    requires SortedBy(key, s)
    ensures SortBy(key, s + [x]) == InsertBy(key, s, x)
  {
    SortByIdentity(key, s);
    assert (s + [x])[..|s + [x]|-1] == s;
  }

  lemma {:induction false} InsertByCount<T>(key: T -> real, s: seq<T>, x: T, p: T -> bool)
    ensures CountIf(InsertBy(key, s, x), p) == CountIf(s, p) + (if p(x) then 1 else 0)
  {
    if s == [] || key(s[|s|-1]) <= key(x) {
      CountIfConcat(s, [x], p);
      assert CountIf([x], p) == CountIf([x][..0], p) + (if p(x) then 1 else 0);
    } else {
      InsertByCount(key, s[..|s|-1], x, p);
      var r := InsertBy(key, s, x);
      assert r[..|r|-1] == InsertBy(key, s[..|s|-1], x);
    }
  }

  /** Sorting neither loses nor repeats an element. */
  lemma {:induction false} SortByCount<T>(key: T -> real, s: seq<T>, p: T -> bool)
    ensures CountIf(SortBy(key, s), p) == CountIf(s, p)
  {
    if s != [] {
      SortByCount(key, s[..|s|-1], p);
      InsertByCount(key, SortBy(key, s[..|s|-1]), s[|s|-1], p);
    }
  }

  lemma {:induction false} InsertByMultiset<T>(key: T -> real, s: seq<T>, x: T)
    ensures multiset(InsertBy(key, s, x)) == multiset(s) + multiset{x}
  {
    if s == [] || key(s[|s|-1]) <= key(x) {
    } else {
      InsertByMultiset(key, s[..|s|-1], x);
      assert s == s[..|s|-1] + [s[|s|-1]];
    }
  }

  lemma {:induction false} SortByMultiset<T>(key: T -> real, s: seq<T>)
    ensures multiset(SortBy(key, s)) == multiset(s)
  {
    if s != [] {
      SortByMultiset(key, s[..|s|-1]);
      InsertByMultiset(key, SortBy(key, s[..|s|-1]), s[|s|-1]);
      assert s == s[..|s|-1] + [s[|s|-1]];
    }
  }

  lemma {:induction false} InsertByMembers<T(!new)>(key: T -> real, s: seq<T>, x: T)
    ensures forall y :: y in InsertBy(key, s, x) <==> y in s || y == x
  {
    if s == [] || key(s[|s|-1]) <= key(x) {
    } else {
      InsertByMembers(key, s[..|s|-1], x);
      assert s == s[..|s|-1] + [s[|s|-1]];
    }
  }

  lemma {:induction false} SortByMembers<T(!new)>(key: T -> real, s: seq<T>)
    ensures forall y :: y in SortBy(key, s) <==> y in s
  {
    if s != [] {
      SortByMembers(key, s[..|s|-1]);
      InsertByMembers(key, SortBy(key, s[..|s|-1]), s[|s|-1]);
      assert s == s[..|s|-1] + [s[|s|-1]];
    }
  }

  /** No two entries of `s` carry the same id. */
  ghost predicate DistinctBy<T(!new), U(!new)>(id: T -> U, s: seq<T>) {
    forall i, j :: 0 <= i < j < |s| ==> id(s[i]) != id(s[j])
  }

  lemma {:induction false} InsertByDistinct<T(!new), U(!new)>(key: T -> real, id: T -> U, s: seq<T>, x: T)
    requires DistinctBy(id, s)
    requires forall i :: 0 <= i < |s| ==> id(s[i]) != id(x)
    ensures DistinctBy(id, InsertBy(key, s, x))
  {
    if s == [] || key(s[|s|-1]) <= key(x) {
    } else {
      var t, last := s[..|s|-1], s[|s|-1];
      InsertByDistinct(key, id, t, x);
      InsertByMembers(key, t, x);
      var r := InsertBy(key, t, x);
      forall i | 0 <= i < |r| ensures id(r[i]) != id(last) {
        assert r[i] in r;
      }
    }
  }

  lemma {:induction false} SortByDistinct<T(!new), U(!new)>(key: T -> real, id: T -> U, s: seq<T>)
    requires DistinctBy(id, s)
    ensures DistinctBy(id, SortBy(key, s))
  {
    if s != [] {
      var t, last := s[..|s|-1], s[|s|-1];
      SortByDistinct(key, id, t);
      SortByMembers(key, t);
      var r := SortBy(key, t);
      forall i | 0 <= i < |r| ensures id(r[i]) != id(last) {
        assert r[i] in r;
      }
      InsertByDistinct(key, id, r, last);
    }
  }
}
