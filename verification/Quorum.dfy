/** Majorities of a set of peers, and the median that the leader takes of MatchIndex. */
module Quorum {

  function Peers(n: nat): (s: set<nat>)
    ensures forall i: nat :: i in s <==> i < n
    ensures |s| == n
  {
    if n == 0 then {} else Peers(n - 1) + {n - 1}
  }

  ghost predicate Majority(s: set<nat>, n: nat) {
    s <= Peers(n) && 2 * |s| > n
  }

  lemma SubsetSize<T>(a: set<T>, b: set<T>)
    requires a <= b
    ensures |a| <= |b|
  {
    assert b == a + (b - a);
  }

  lemma MajorityMono(a: set<nat>, b: set<nat>, n: nat)
    requires Majority(a, n) && a <= b <= Peers(n)
    ensures Majority(b, n)
  {
    SubsetSize(a, b);
  }

  /** Any two majorities of the same peers share a peer. */
  lemma MajoritiesMeet(a: set<nat>, b: set<nat>, n: nat) returns (v: nat)
    requires Majority(a, n) && Majority(b, n)
    ensures v in a && v in b && v < n
  {
    SubsetSize(a + b, Peers(n));
    assert |a + b| == |a| + |b| - |a * b|;
    assert a * b != {};
    v :| v in a * b;
  }

  predicate Descending(s: seq<nat>) {
    forall i, j :: 0 <= i < j < |s| ==> s[i] >= s[j]
  }

  /** Inserts x before the first element that is not greater. */
  function Insert(x: nat, s: seq<nat>): (r: seq<nat>)
    ensures |r| == |s| + 1
    ensures forall y :: y in r <==> y == x || y in s
    ensures Descending(s) ==> Descending(r)
  {
    if s == [] || x >= s[0] then [x] + s else
      var rest := Insert(x, s[1..]);
      assert Descending(s) ==> Descending(s[1..]) && forall y :: y in rest ==> s[0] >= y;
      assert forall k :: 0 <= k < |rest| ==> rest[k] in rest;
      [s[0]] + rest
  }

  /** The library call sort.Sort(sort.Reverse(sort.IntSlice(s))). */
  function SortDescending(s: seq<nat>): (r: seq<nat>)
    ensures |r| == |s| && Descending(r)
  {
    if s == [] then [] else Insert(s[0], SortDescending(s[1..]))
  }

  lemma {:induction false} InsertKeeps(x: nat, s: seq<nat>)
    ensures multiset(Insert(x, s)) == multiset(s) + multiset{x}
  {
    if s != [] && x < s[0] {
      InsertKeeps(x, s[1..]);
      assert s == [s[0]] + s[1..];
    }
  }

  lemma {:induction false} SortDescendingKeeps(s: seq<nat>)
    ensures multiset(SortDescending(s)) == multiset(s)
  {
    if s != [] {
      var rest := SortDescending(s[1..]);
      SortDescendingKeeps(s[1..]);
      InsertKeeps(s[0], rest);
      assert SortDescending(s) == Insert(s[0], rest);
      assert multiset(s) == multiset([s[0]] + s[1..]) by { assert s == [s[0]] + s[1..]; }
    }
  }

  /** The peers whose match index is at least v. */
  function Reached(m: seq<nat>, v: int): (r: set<nat>)
    ensures r <= Peers(|m|)
  {
    set i: nat | i < |m| && m[i] >= v
  }

  /** How many elements of s are at least v. */
  function CountAtLeast(s: seq<nat>, v: int): (c: nat)
    ensures c <= |s|
  {
    if s == [] then 0 else CountAtLeast(s[1..], v) + if s[0] >= v then 1 else 0
  }

  lemma {:induction false} CountSplit(a: seq<nat>, b: seq<nat>, v: int)
    ensures CountAtLeast(a + b, v) == CountAtLeast(a, v) + CountAtLeast(b, v)
  {
    if a == [] {
      assert a + b == b;
    } else {
      assert (a + b)[1..] == a[1..] + b;
      CountSplit(a[1..], b, v);
    }
  }

  lemma {:induction false} CountIsReached(m: seq<nat>, v: int)
    ensures CountAtLeast(m, v) == |Reached(m, v)|
  {
    if m != [] {
      var k := |m| - 1;
      CountIsReached(m[..k], v);
      assert m == m[..k] + [m[k]];
      CountSplit(m[..k], [m[k]], v);
      assert Reached(m, v) == Reached(m[..k], v) + if m[k] >= v then {k} else {};
    }
  }

  lemma {:induction false} CountInsert(x: nat, s: seq<nat>, v: int)
    ensures CountAtLeast(Insert(x, s), v) == CountAtLeast(s, v) + if x >= v then 1 else 0
  {
    if s != [] && x < s[0] {
      CountInsert(x, s[1..], v);
    }
  }

  lemma {:induction false} CountSorted(s: seq<nat>, v: int)
    ensures CountAtLeast(SortDescending(s), v) == CountAtLeast(s, v)
  {
    if s != [] {
      CountSorted(s[1..], v);
      CountInsert(s[0], SortDescending(s[1..]), v);
    }
  }

  lemma {:induction false} CountAll(s: seq<nat>, v: int)
    requires forall i :: 0 <= i < |s| ==> s[i] >= v
    ensures CountAtLeast(s, v) == |s|
  {
    if s != [] { CountAll(s[1..], v); }
  }

  lemma {:induction false} CountNone(s: seq<nat>, v: int)
    requires forall i :: 0 <= i < |s| ==> s[i] < v
    ensures CountAtLeast(s, v) == 0
  {
    if s != [] { CountNone(s[1..], v); }
  }

  function Median(m: seq<nat>): nat
    requires |m| > 0
  {
    SortDescending(m)[|m| / 2]
  }

  lemma CountOfSplit(d: seq<nat>, k: nat, v: int)
    requires k <= |d|
    ensures CountAtLeast(d, v) == CountAtLeast(d[..k], v) + CountAtLeast(d[k..], v)
  {
    assert d == d[..k] + d[k..];
    CountSplit(d[..k], d[k..], v);
  }

  lemma SortedCount(d: seq<nat>, k: nat, v: int)
    requires Descending(d) && k < |d|
    ensures v <= d[k] ==> CountAtLeast(d, v) > k
    ensures v > d[k] ==> CountAtLeast(d, v) <= k
  {
    if v <= d[k] {
      CountOfSplit(d, k + 1, v);
      CountAll(d[..k + 1], v);
    } else {
      CountOfSplit(d, k, v);
      CountNone(d[k..], v);
    }
  }

  /** The element at len/2 of the descending sort is the greatest index that a strict majority of
      MatchIndex has reached. */
  lemma MedianIsGreatestMajorityIndex(m: seq<nat>, v: int)
    requires |m| > 0
    ensures Majority(Reached(m, v), |m|) <==> v <= Median(m)
  {
    CountIsReached(m, v);
    CountSorted(m, v);
    SortedCount(SortDescending(m), |m| / 2, v);
  }
}
