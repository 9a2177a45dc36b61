/** The nearest-rank quantile of measured durations, in exact arithmetic. */
module Quantile {
  import opened Names

  ghost predicate Ascending(s: seq<int>) {
    forall i, j :: 0 <= i < j < |s| ==> s[i] <= s[j]
  }

  function InsertSorted(s: seq<int>, x: int): (r: seq<int>)
    requires Ascending(s)
    ensures Ascending(r) && multiset(r) == multiset(s) + multiset{x} && |r| == |s| + 1
  {
    if s == [] || x <= s[0] then [x] + s
    else
      var rest := InsertSorted(s[1..], x);
      assert s == [s[0]] + s[1..];
      FirstStays(s, x, rest);
      [s[0]] + rest
  }

  lemma FirstStays(s: seq<int>, x: int, rest: seq<int>)
    requires s != [] && Ascending(s) && s[0] < x
    requires Ascending(rest) && multiset(rest) == multiset(s[1..]) + multiset{x}
    ensures Ascending([s[0]] + rest)
  {
    forall j | 0 <= j < |rest|
      ensures s[0] <= rest[j]
    {
      assert rest[j] in multiset(rest);
      if rest[j] != x {
        assert rest[j] in s[1..];
      }
    }
  }

  function Sorted(s: seq<int>): (r: seq<int>)
    ensures Ascending(r) && multiset(r) == multiset(s) && |r| == |s|
  {
    if s == [] then []
    else
      assert s == s[..|s| - 1] + [s[|s| - 1]];
      InsertSorted(Sorted(s[..|s| - 1]), s[|s| - 1])
  }

  function Ceil(x: real): (r: int)
    ensures r as real - 1.0 < x <= r as real
  {
    -((-x).Floor)
  }

  function Clamp(i: int, n: int): (r: int)
    requires n > 0
    ensures 0 <= r < n && (0 <= i < n ==> r == i)
  {
    var low := if i < n - 1 then i else n - 1;
    if low > 0 then low else 0
  }

  /** The index the quantile reads in a sorted list of n. */
  function Rank(q: real, n: int): (r: int)
    requires n > 0
    ensures 0 <= r < n
  {
    Clamp(Ceil(q * n as real - 0.000000001) - 1, n)
  }

  function NearestRank(ds: seq<int>, q: real): Option<int> {
    if ds == [] then None else Some(Sorted(ds)[Rank(q, |ds|)])
  }

  /** How many durations are under a ceiling: a plain count in any order. */
  function CountBelow(s: seq<int>, ceiling: int): nat {
    if s == [] then 0 else CountBelow(s[..|s| - 1], ceiling) + if s[|s| - 1] < ceiling then 1 else 0
  }

  lemma {:induction false} CountBelowRemove(s: seq<int>, i: nat, ceiling: int)
    requires i < |s|
    ensures CountBelow(s, ceiling) == CountBelow(s[..i] + s[i + 1..], ceiling) + if s[i] < ceiling then 1 else 0
  {
    var n := |s| - 1;
    if i == n {
      assert s[..i] + s[i + 1..] == s[..n];
    } else {
      CountBelowRemove(s[..n], i, ceiling);
      var t := s[..i] + s[i + 1..];
      assert t[..|t| - 1] == s[..n][..i] + s[..n][i + 1..];
      assert t[|t| - 1] == s[n];
    }
  }

  lemma SameRest(a: multiset<int>, b: multiset<int>, x: int)
    requires a + multiset{x} == b + multiset{x}
    ensures a == b
  {
    assert a == (a + multiset{x}) - multiset{x};
    assert b == (b + multiset{x}) - multiset{x};
  }

  /** The count does not depend on the order. */
  lemma {:induction false} CountBelowPermuted(a: seq<int>, b: seq<int>, ceiling: int)
    requires multiset(a) == multiset(b)
    ensures CountBelow(a, ceiling) == CountBelow(b, ceiling)
  {
    if a == [] {
      assert |multiset(a)| == 0 == |multiset(b)| == |b|;
    } else {
      var n := |a| - 1;
      assert a == a[..n] + [a[n]];
      assert a[n] in multiset(b);
      var i :| 0 <= i < |b| && b[i] == a[n];
      assert b == b[..i] + [b[i]] + b[i + 1..];
      CountBelowRemove(b, i, ceiling);
      assert multiset(a[..n]) + multiset{a[n]} == multiset(b[..i] + b[i + 1..]) + multiset{a[n]};
      SameRest(multiset(a[..n]), multiset(b[..i] + b[i + 1..]), a[n]);
      CountBelowPermuted(a[..n], b[..i] + b[i + 1..], ceiling);
    }
  }

  lemma {:induction false} CountBelowAscending(s: seq<int>, i: nat, ceiling: int)
    requires Ascending(s) && i < |s|
    ensures s[i] < ceiling <==> CountBelow(s, ceiling) >= i + 1
  {
    var n := |s| - 1;
    if i < n {
      CountBelowAscending(s[..n], i, ceiling);
      if s[n] < ceiling {
        assert s[i] <= s[n];
      }
    } else if s[n] < ceiling {
      AllBelow(s, ceiling);
    } else {
      CountAtMost(s[..n], ceiling);
    }
  }

  lemma {:induction false} AllBelow(s: seq<int>, ceiling: int)
    requires forall i :: 0 <= i < |s| ==> s[i] < ceiling
    ensures CountBelow(s, ceiling) == |s|
  {
    if s != [] {
      AllBelow(s[..|s| - 1], ceiling);
    }
  }

  lemma {:induction false} CountAtMost(s: seq<int>, ceiling: int)
    ensures CountBelow(s, ceiling) <= |s|
  {
    if s != [] {
      CountAtMost(s[..|s| - 1], ceiling);
    }
  }

  /** For every quantile and list: it is under a ceiling exactly when more durations than its rank
      are. */
  lemma NearestRankIsCount(ds: seq<int>, q: real, ceiling: int)
    requires ds != []
    ensures NearestRank(ds, q).value < ceiling <==> CountBelow(ds, ceiling) >= Rank(q, |ds|) + 1
  {
    CountBelowAscending(Sorted(ds), Rank(q, |ds|), ceiling);
    CountBelowPermuted(Sorted(ds), ds, ceiling);
  }

  /** The p95 rank is ceil(19n/20): the fudge and the clamps change nothing. */
  lemma Rank95(n: int)
    requires n > 0
    ensures Rank(0.95, n) + 1 == (19 * n + 19) / 20
  {
    var m := (19 * n + 19) / 20;
    assert 20 * (m - 1) + 1 <= 19 * n <= 20 * m;
    var x := 0.95 * n as real - 0.000000001;
    assert 20.0 * (0.95 * n as real) == (19 * n) as real;
    assert (m - 1) as real < x <= m as real;
    assert Ceil(x) == m;
  }

  /** The p95 of a list is under a ceiling exactly when at least ceil(19n/20) of its n durations
      are. */
  lemma P95IsCount(ds: seq<int>, ceiling: int)
    requires ds != []
    ensures NearestRank(ds, 0.95).value < ceiling <==> CountBelow(ds, ceiling) >= (19 * |ds| + 19) / 20
    ensures NearestRank(ds, 0.95).value < ceiling <==> 20 * CountBelow(ds, ceiling) >= 19 * |ds|
  {
    NearestRankIsCount(ds, 0.95, ceiling);
    Rank95(|ds|);
  }
}
