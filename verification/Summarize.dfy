/** Building the summary: one pass over the runs for the tallies, one for the repeats. */
module Summarize {
  import opened Names
  import opened Sums
  import opened Bench
  import opened Tally
  import opened Summary

  // ----- repeats of one scenario

  datatype GroupKey = GroupKey(arm: Arm, family: string, scenario: string)

  function OwnKey(r: Result): GroupKey {
    GroupKey(r.arm, r.scenario.family, r.scenario.id)
  }

  function PooledKey(r: Result): GroupKey {
    GroupKey(r.arm, PooledFamily, r.scenario.id)
  }

  /** What one run adds to a group. */
  function RootsFrom(r: Result, g: GroupKey): seq<string> {
    if !Scored(r) then []
    else (if OwnKey(r) == g then [r.outcome.root] else []) + if PooledKey(r) == g then [r.outcome.root] else []
  }

  /** The roots an arm's scored repeats of a scenario named, as one family's cell or the pooled one
      sees them. */
  function RootsOf(rs: seq<Result>, g: GroupKey): seq<string> {
    if rs == [] then []
    else RootsOf(rs[..|rs| - 1], g) + RootsFrom(rs[|rs| - 1], g)
  }

  predicate Agree(roots: seq<string>) {
    forall i :: 0 < i < |roots| ==> roots[i] == roots[0]
  }

  function Ids(rs: seq<Result>): set<string> {
    set i | 0 <= i < |rs| :: rs[i].scenario.id
  }

  /** The scenarios of a cell with at least two scored repeats, and those whose repeats agree. */
  function Repeated(rs: seq<Result>, k: CellKey): set<string> {
    set id | id in Ids(rs) && |RootsOf(rs, GroupKey(k.arm, k.family, id))| >= 2
  }

  function Agreeing(rs: seq<Result>, k: CellKey): set<string> {
    set id | id in Repeated(rs, k) && Agree(RootsOf(rs, GroupKey(k.arm, k.family, id)))
  }

  /** A cell of the finished summary. */
  function FullCell(rs: seq<Result>, k: CellKey): Tally {
    CellOf(rs, k).(consistency := Prop(|Agreeing(rs, k)|, |Repeated(rs, k)|))
  }

  /** A scored run of a scenario in a cell. */
  predicate InGroup(r: Result, k: CellKey, id: string) {
    && r.arm == k.arm && r.skipped == "" && r.err == NoFault && r.scenario.id == id
    && (k.family == "all" || r.scenario.family == k.family)
  }

  ghost predicate TwoRuns(rs: seq<Result>, k: CellKey, id: string) {
    exists i, j :: 0 <= i < j < |rs| && InGroup(rs[i], k, id) && InGroup(rs[j], k, id)
  }

  ghost predicate SomeRun(rs: seq<Result>, k: CellKey, id: string) {
    exists i :: 0 <= i < |rs| && InGroup(rs[i], k, id)
  }

  /** A run is in a cell once, unless its family has the pooled family's name. */
  lemma RunRoots(r: Result, k: CellKey, id: string)
    requires r.scenario.family != "all"
    ensures RootsFrom(r, GroupKey(k.arm, k.family, id)) == if InGroup(r, k, id) then [r.outcome.root] else []
  {
  }

  lemma RunsGrow(rs: seq<Result>, k: CellKey, id: string)
    requires rs != []
    ensures var t, r := rs[..|rs| - 1], rs[|rs| - 1];
      && (SomeRun(rs, k, id) <==> SomeRun(t, k, id) || InGroup(r, k, id))
      && (TwoRuns(rs, k, id) <==> TwoRuns(t, k, id) || (SomeRun(t, k, id) && InGroup(r, k, id)))
  {
    var n := |rs| - 1;
    var t := rs[..n];
    assert forall i :: 0 <= i < n ==> t[i] == rs[i];
    if SomeRun(t, k, id) {
      var i :| 0 <= i < n && InGroup(t[i], k, id);
      assert InGroup(rs[i], k, id);
    }
    if TwoRuns(t, k, id) {
      var i, j :| 0 <= i < j < n && InGroup(t[i], k, id) && InGroup(t[j], k, id);
      assert InGroup(rs[i], k, id) && InGroup(rs[j], k, id);
    }
    if TwoRuns(rs, k, id) {
      var i, j :| 0 <= i < j < |rs| && InGroup(rs[i], k, id) && InGroup(rs[j], k, id);
      assert InGroup(t[i], k, id);
    }
  }

  lemma {:induction false} RootsCount(rs: seq<Result>, k: CellKey, id: string)
    requires forall i :: 0 <= i < |rs| ==> rs[i].scenario.family != "all"
    ensures |RootsOf(rs, GroupKey(k.arm, k.family, id))| >= 1 <==> SomeRun(rs, k, id)
    ensures |RootsOf(rs, GroupKey(k.arm, k.family, id))| >= 2 <==> TwoRuns(rs, k, id)
  {
    if rs != [] {
      RootsCount(rs[..|rs| - 1], k, id);
      RunsGrow(rs, k, id);
      RunRoots(rs[|rs| - 1], k, id);
    }
  }

  predicate NamesRoot(r: Result, k: CellKey, id: string, root: string) {
    InGroup(r, k, id) && r.outcome.root == root
  }

  lemma {:induction false} RootsAre(rs: seq<Result>, k: CellKey, id: string, root: string)
    ensures root in RootsOf(rs, GroupKey(k.arm, k.family, id)) <==>
      exists i :: 0 <= i < |rs| && NamesRoot(rs[i], k, id, root)
  {
    if rs != [] {
      var n := |rs| - 1;
      RootsAre(rs[..n], k, id, root);
      RootsFromAre(rs[n], k, id, root);
      Shifted(rs, k, id, root);
    }
  }

  lemma RootsFromAre(r: Result, k: CellKey, id: string, root: string)
    ensures root in RootsFrom(r, GroupKey(k.arm, k.family, id)) <==> NamesRoot(r, k, id, root)
  {
  }

  lemma Shifted(rs: seq<Result>, k: CellKey, id: string, root: string)
    requires rs != []
    ensures var n := |rs| - 1;
      (exists i :: 0 <= i < |rs| && NamesRoot(rs[i], k, id, root)) <==>
      (exists i :: 0 <= i < n && NamesRoot(rs[..n][i], k, id, root)) || NamesRoot(rs[n], k, id, root)
  {
    var n := |rs| - 1;
    if i :| 0 <= i < n && NamesRoot(rs[..n][i], k, id, root) {
      assert NamesRoot(rs[i], k, id, root);
    }
    if i :| 0 <= i < |rs| && NamesRoot(rs[i], k, id, root) && i < n {
      assert NamesRoot(rs[..n][i], k, id, root);
    }
  }

  /** Unless a family has the pooled family's name, the repeated scenarios of a cell are those with two
      scored runs in it, and they agree if and only if all of them name the same root. */
  lemma RepeatsMean(rs: seq<Result>, k: CellKey, id: string)
    requires forall i :: 0 <= i < |rs| ==> rs[i].scenario.family != "all"
    ensures id in Repeated(rs, k) <==> TwoRuns(rs, k, id)
    ensures id in Agreeing(rs, k) <==> TwoRuns(rs, k, id) && SameRoots(rs, k, id)
  {
    RootsCount(rs, k, id);
    var roots := RootsOf(rs, GroupKey(k.arm, k.family, id));
    if TwoRuns(rs, k, id) {
      var i :| 0 <= i < |rs| && InGroup(rs[i], k, id);
      assert id in Ids(rs);
      AgreeMeans(rs, k, id, roots);
    }
  }

  /** All the scored runs of a scenario in a cell name one root. */
  ghost predicate SameRoots(rs: seq<Result>, k: CellKey, id: string) {
    forall i, j :: 0 <= i < |rs| && 0 <= j < |rs| && InGroup(rs[i], k, id) && InGroup(rs[j], k, id) ==>
      rs[i].outcome.root == rs[j].outcome.root
  }

  lemma AgreeMeans(rs: seq<Result>, k: CellKey, id: string, roots: seq<string>)
    requires roots == RootsOf(rs, GroupKey(k.arm, k.family, id)) && roots != []
    ensures Agree(roots) <==> SameRoots(rs, k, id)
  {
    forall root
      ensures root in roots <==> exists i :: 0 <= i < |rs| && NamesRoot(rs[i], k, id, root)
    {
      RootsAre(rs, k, id, root);
    }
    if SameRoots(rs, k, id) {
      forall n | 0 < n < |roots|
        ensures roots[n] == roots[0]
      {
        assert roots[n] in roots && roots[0] in roots;
      }
    }
    if Agree(roots) {
      assert forall root :: root in roots ==> root == roots[0];
      forall i | 0 <= i < |rs| && InGroup(rs[i], k, id)
        ensures rs[i].outcome.root == roots[0]
      {
        assert NamesRoot(rs[i], k, id, rs[i].outcome.root);
        assert rs[i].outcome.root in roots;
        var n :| 0 <= n < |roots| && roots[n] == rs[i].outcome.root;
      }
    }
  }

  // ----- collecting roots

  function Roots(m: map<GroupKey, seq<string>>, g: GroupKey): seq<string> {
    if g in m then m[g] else []
  }

  ghost predicate Lists<T(!new)>(order: seq<T>, keys: set<T>) {
    Distinct(order) && forall g :: g in order <==> g in keys
  }

  method AddRoot(m: map<GroupKey, seq<string>>, order: seq<GroupKey>, g: GroupKey, root: string)
    returns (m': map<GroupKey, seq<string>>, order': seq<GroupKey>)
    requires Lists(order, m.Keys)
    ensures Lists(order', m'.Keys)
    ensures m' == m[g := Roots(m, g) + [root]]
  {
    order' := order;
    if g !in m {
      order' := order' + [g];
    }
    m' := m[g := Roots(m, g) + [root]];
  }

  method CollectRoots(rs: seq<Result>) returns (m: map<GroupKey, seq<string>>, order: seq<GroupKey>)
    ensures Lists(order, m.Keys)
    ensures forall g :: Roots(m, g) == RootsOf(rs, g)
    ensures forall g :: g in m ==> m[g] != []
  {
    m, order := map[], [];
    for i := 0 to |rs|
      invariant Lists(order, m.Keys)
      invariant forall g :: Roots(m, g) == RootsOf(rs[..i], g)
      invariant forall g :: g in m ==> m[g] != []
    {
      var r := rs[i];
      ghost var before := m;
      if Scored(r) {
        m, order := AddRoot(m, order, OwnKey(r), r.outcome.root);
        m, order := AddRoot(m, order, PooledKey(r), r.outcome.root);
      }
      forall g
        ensures Roots(m, g) == RootsOf(rs[..i + 1], g)
      {
        RootsStep(rs, i, g);
        TwoRoots(before, r, g);
      }
    }
    assert rs[..|rs|] == rs;
  }

  lemma RootsStep(rs: seq<Result>, i: nat, g: GroupKey)
    requires i < |rs|
    ensures RootsOf(rs[..i + 1], g) == RootsOf(rs[..i], g) + RootsFrom(rs[i], g)
  {
    assert rs[..i + 1][..i] == rs[..i] && rs[..i + 1][i] == rs[i];
  }

  lemma TwoRoots(m: map<GroupKey, seq<string>>, r: Result, g: GroupKey)
    ensures var once := m[OwnKey(r) := Roots(m, OwnKey(r)) + [r.outcome.root]];
      Scored(r) ==>
        Roots(once[PooledKey(r) := Roots(once, PooledKey(r)) + [r.outcome.root]], g) == Roots(m, g) + RootsFrom(r, g)
  {
  }

  // ----- scoring consistency

  predicate InCell(g: GroupKey, k: CellKey) {
    g.arm == k.arm && g.family == k.family
  }

  function CountsIn(rs: seq<Result>, k: CellKey): GroupKey -> int {
    (g: GroupKey) => Indicator(InCell(g, k) && |RootsOf(rs, g)| >= 2)
  }

  function AgreesIn(rs: seq<Result>, k: CellKey): GroupKey -> int {
    (g: GroupKey) => Indicator(InCell(g, k) && |RootsOf(rs, g)| >= 2 && Agree(RootsOf(rs, g)))
  }

  function Scoring(t: Tally, rs: seq<Result>, order: seq<GroupKey>, k: CellKey): Tally {
    t.(consistency := Prop(SumBy(order, AgreesIn(rs, k)), SumBy(order, CountsIn(rs, k))))
  }

  method AllSame(roots: seq<string>) returns (same: bool)
    requires |roots| >= 1
    ensures same == Agree(roots)
  {
    same := true;
    for i := 1 to |roots|
      invariant same == Agree(roots[..i])
    {
      same := same && roots[i] == roots[0];
      assert roots[..i + 1] == roots[..i] + [roots[i]];
      assert Agree(roots[..i + 1]) <==> Agree(roots[..i]) && roots[i] == roots[0] by {
        if Agree(roots[..i + 1]) {
          assert roots[..i + 1][i] == roots[0];
          forall j | 0 < j < i
            ensures roots[..i][j] == roots[..i][0]
          {
            assert roots[..i + 1][j] == roots[..i + 1][0];
          }
        }
      }
    }
    assert roots[..|roots|] == roots;
  }

  lemma ScoringStep(t: Tally, rs: seq<Result>, order: seq<GroupKey>, g: GroupKey, k: CellKey)
    ensures var before := Scoring(t, rs, order, k).consistency;
      Scoring(t, rs, order + [g], k).consistency
      == if InCell(g, k) && |RootsOf(rs, g)| >= 2 then Count(before, Agree(RootsOf(rs, g))) else before
  {
    SumAppend(order, g, AgreesIn(rs, k));
    SumAppend(order, g, CountsIn(rs, k));
  }

  /** One group's effect on the cells. */
  function ScoreGroup(m: map<CellKey, Tally>, g: GroupKey, roots: seq<string>): map<CellKey, Tally> {
    if |roots| < 2 then m
    else
      var k := CellKey(g.arm, g.family);
      var t := Lookup(m, k);
      m[k := t.(consistency := Count(t.consistency, Agree(roots)))]
  }

  function ScoreAll(m: map<CellKey, Tally>, rs: seq<Result>, order: seq<GroupKey>): map<CellKey, Tally> {
    if order == [] then m
    else
      var g := order[|order| - 1];
      ScoreGroup(ScoreAll(m, rs, order[..|order| - 1]), g, RootsOf(rs, g))
  }

  lemma {:induction false} ScoreAllAt(m: map<CellKey, Tally>, rs: seq<Result>, order: seq<GroupKey>, k: CellKey)
    requires Lookup(m, k).consistency == Prop(0, 0)
    ensures Lookup(ScoreAll(m, rs, order), k) == Scoring(Lookup(m, k), rs, order, k)
  {
    if order != [] {
      var n := |order| - 1;
      ScoreAllAt(m, rs, order[..n], k);
      assert order == order[..n] + [order[n]];
      ScoringStep(Lookup(m, k), rs, order[..n], order[n], k);
      ScoreGroupAt(ScoreAll(m, rs, order[..n]), order[n], RootsOf(rs, order[n]), k);
    }
  }

  lemma ScoreGroupAt(m: map<CellKey, Tally>, g: GroupKey, roots: seq<string>, k: CellKey)
    ensures var t := Lookup(m, k);
      Lookup(ScoreGroup(m, g, roots), k)
      == if InCell(g, k) && |roots| >= 2 then t.(consistency := Count(t.consistency, Agree(roots))) else t
  {
  }

  method ScoreConsistency(
    tallies: map<CellKey, Tally>, m: map<GroupKey, seq<string>>, order: seq<GroupKey>, ghost rs: seq<Result>)
    returns (out: map<CellKey, Tally>)
    requires forall g :: g in order ==> g in m && m[g] == RootsOf(rs, g)
    ensures out == ScoreAll(tallies, rs, order)
  {
    out := tallies;
    for j := 0 to |order|
      invariant out == ScoreAll(tallies, rs, order[..j])
    {
      var g := order[j];
      assert g in order;
      var roots := m[g];
      assert order[..j + 1][..j] == order[..j] && order[..j + 1][j] == g;
      if |roots| < 2 {
        continue;
      }
      var same := AllSame(roots);
      var t := Lookup(out, CellKey(g.arm, g.family));
      out := out[CellKey(g.arm, g.family) := t.(consistency := Count(t.consistency, same))];
    }
    assert order[..|order|] == order;
  }

  // ----- the counts are cardinalities

  lemma {:induction false} RootsHaveRun(rs: seq<Result>, g: GroupKey)
    requires RootsOf(rs, g) != []
    ensures g.scenario in Ids(rs)
  {
    var n := |rs| - 1;
    var r := rs[n];
    if r.scenario.id != g.scenario {
      RootsHaveRun(rs[..n], g);
      var i :| 0 <= i < n && rs[..n][i].scenario.id == g.scenario;
      assert rs[i].scenario.id == g.scenario;
    }
  }

  function Named(order: seq<GroupKey>, p: GroupKey -> int): set<string> {
    set i | 0 <= i < |order| && p(order[i]) == 1 :: order[i].scenario
  }

  /** Distinct keys of one cell are told apart by their scenario. */
  lemma {:induction false} CountNamed(order: seq<GroupKey>, p: GroupKey -> int, k: CellKey)
    requires Distinct(order)
    requires forall g :: p(g) == 0 || p(g) == 1
    requires forall g :: p(g) == 1 ==> InCell(g, k)
    ensures SumBy(order, p) == |Named(order, p)|
  {
    if order != [] {
      var n := |order| - 1;
      var g, rest := order[n], order[..n];
      CountNamed(rest, p, k);
      NamedGrows(rest, g, p);
      assert order == rest + [g];
      if p(g) == 1 {
        NewName(rest, g, p, k);
        assert |Named(order, p)| == |Named(rest, p)| + 1;
      }
    }
  }

  lemma NamedGrows(rest: seq<GroupKey>, g: GroupKey, p: GroupKey -> int)
    ensures Named(rest + [g], p) == if p(g) == 1 then Named(rest, p) + {g.scenario} else Named(rest, p)
  {
    var order := rest + [g];
    assert forall i :: 0 <= i < |rest| ==> order[i] == rest[i];
    if p(g) == 1 {
      assert order[|rest|] == g;
    }
  }

  lemma NewName(rest: seq<GroupKey>, g: GroupKey, p: GroupKey -> int, k: CellKey)
    requires g !in rest && p(g) == 1 && forall h :: p(h) == 1 ==> InCell(h, k)
    ensures g.scenario !in Named(rest, p)
  {
    forall i | 0 <= i < |rest| && p(rest[i]) == 1
      ensures rest[i].scenario != g.scenario
    {
      assert InCell(rest[i], k) && InCell(g, k) && rest[i] in rest;
    }
  }

  lemma ConsistencyIsCardinality(rs: seq<Result>, order: seq<GroupKey>, keys: set<GroupKey>, k: CellKey)
    requires Lists(order, keys) && forall g :: g in keys <==> RootsOf(rs, g) != []
    ensures SumBy(order, CountsIn(rs, k)) == |Repeated(rs, k)|
    ensures SumBy(order, AgreesIn(rs, k)) == |Agreeing(rs, k)|
  {
    CountNamed(order, CountsIn(rs, k), k);
    CountNamed(order, AgreesIn(rs, k), k);
    SameIds(rs, order, keys, k);
  }

  lemma SameIds(rs: seq<Result>, order: seq<GroupKey>, keys: set<GroupKey>, k: CellKey)
    requires Lists(order, keys) && forall g :: g in keys <==> RootsOf(rs, g) != []
    ensures Named(order, CountsIn(rs, k)) == Repeated(rs, k)
    ensures Named(order, AgreesIn(rs, k)) == Agreeing(rs, k)
  {
    forall id
      ensures id in Named(order, CountsIn(rs, k)) <==> id in Repeated(rs, k)
      ensures id in Named(order, AgreesIn(rs, k)) <==> id in Agreeing(rs, k)
    {
      var g := GroupKey(k.arm, k.family, id);
      if |RootsOf(rs, g)| >= 2 {
        RootsHaveRun(rs, g);
        assert g in order;
        var i :| 0 <= i < |order| && order[i] == g;
        assert CountsIn(rs, k)(order[i]) == 1;
      }
    }
  }

  // ----- the summary

  method AddToCell(tallies: map<CellKey, Tally>, k: CellKey, r: Result) returns (out: map<CellKey, Tally>)
    ensures out == tallies[k := Add(Lookup(tallies, k), r)]
  {
    var t := Lookup(tallies, k);
    t := Add(t, r);
    out := tallies[k := t];
  }

  method TallyAll(rs: seq<Result>) returns (tallies: map<CellKey, Tally>, families: set<string>)
    ensures forall k :: Lookup(tallies, k) == CellOf(rs, k)
    ensures families == set i | 0 <= i < |rs| :: rs[i].scenario.family
  {
    tallies, families := map[], {};
    for i := 0 to |rs|
      invariant forall k :: Lookup(tallies, k) == CellOf(rs[..i], k)
      invariant families == set j | 0 <= j < i :: rs[j].scenario.family
    {
      var r := rs[i];
      families := families + {r.scenario.family};
      ghost var before := tallies;
      var own, pooled := CellKey(r.arm, r.scenario.family), CellKey(r.arm, PooledFamily);
      tallies := AddToCell(tallies, own, r);
      tallies := AddToCell(tallies, pooled, r);
      forall k
        ensures Lookup(tallies, k) == CellOf(rs[..i + 1], k)
      {
        assert rs[..i + 1][..i] == rs[..i];
        assert Lookup(before, k) == CellOf(rs[..i], k);
        TwoAdds(before, r, k);
      }
    }
    assert rs[..|rs|] == rs;
  }

  lemma TwoAdds(m: map<CellKey, Tally>, r: Result, k: CellKey)
    ensures var own, pooled := CellKey(r.arm, r.scenario.family), CellKey(r.arm, PooledFamily);
      var once := m[own := Add(Lookup(m, own), r)];
      Lookup(once[pooled := Add(Lookup(once, pooled), r)], k) == AddTimesOver(Lookup(m, k), r, Copies(r, k))
  {
    var t := Lookup(m, k);
    assert AddTimesOver(t, r, 0) == t;
    assert AddTimesOver(t, r, 1) == Add(t, r);
    assert AddTimesOver(t, r, 2) == Add(Add(t, r), r);
  }

  /** Go's map iteration followed by a sort: any order, then the sorted one. */
  method SortedNames(names: set<string>) returns (r: seq<string>)
    ensures Distinct(r) && SortedBy(r, Self) && forall f :: f in r <==> f in names
  {
    var left, listed := names, [];
    while left != {}
      invariant Distinct(listed)
      invariant left <= names && forall f :: f in listed <==> f in names && f !in left
      decreases left
    {
      var f :| f in left;
      listed := listed + [f];
      left := left - {f};
    }
    r := SortBy(listed, Self);
    SortKeepsDistinct(listed, Self);
  }

  /** Summarize: each cell holds exactly the runs of its arm and family (or of every family), with
      the repeats' consistency counted by scenario. */
  method Build(rs: seq<Result>, arms: seq<Arm>) returns (s: Summary)
    ensures s.arms == arms
    ensures forall k :: Lookup(s.tallies, k) == FullCell(rs, k)
    ensures s.families != [] && s.families[|s.families| - 1] == PooledFamily
    ensures var named := s.families[..|s.families| - 1];
      && Distinct(named) && SortedBy(named, Self)
      && forall f :: f in named <==> exists i :: 0 <= i < |rs| && rs[i].scenario.family == f
  {
    var tallies, families := TallyAll(rs);
    var named := SortedNames(families);
    var m, order := CollectRoots(rs);
    ghost var plain := tallies;
    forall g | g in order
      ensures g in m && m[g] == RootsOf(rs, g)
    {
      assert Roots(m, g) == RootsOf(rs, g);
    }
    tallies := ScoreConsistency(tallies, m, order, rs);
    forall k
      ensures Lookup(tallies, k) == FullCell(rs, k)
    {
      FullCellAt(plain, m, order, rs, k);
    }
    s := Summary(arms, named + [PooledFamily], tallies);
    assert s.families[..|s.families| - 1] == named;
  }

  lemma FullCellAt(
    plain: map<CellKey, Tally>, m: map<GroupKey, seq<string>>, order: seq<GroupKey>, rs: seq<Result>, k: CellKey)
    requires Lookup(plain, k) == CellOf(rs, k) && Lists(order, m.Keys)
    requires forall g :: Roots(m, g) == RootsOf(rs, g)
    requires forall g :: g in m ==> m[g] != []
    ensures Lookup(ScoreAll(plain, rs, order), k) == FullCell(rs, k)
  {
    NoConsistencyYet(rs, k);
    ScoreAllAt(plain, rs, order, k);
    forall g
      ensures g in m.Keys <==> RootsOf(rs, g) != []
    {
      assert Roots(m, g) == RootsOf(rs, g);
    }
    ConsistencyIsCardinality(rs, order, m.Keys, k);
  }

  lemma {:induction false} NoConsistencyYet(rs: seq<Result>, k: CellKey)
    ensures CellOf(rs, k).consistency == Prop(0, 0)
  {
    if rs != [] {
      var n := |rs| - 1;
      NoConsistencyYet(rs[..n], k);
      CopiesKeepConsistency(CellOf(rs[..n], k), rs[n], Copies(rs[n], k));
    }
  }

  lemma {:induction false} CopiesKeepConsistency(t: Tally, r: Result, n: nat)
    ensures AddTimesOver(t, r, n).consistency == t.consistency
  {
    if n > 0 {
      CopiesKeepConsistency(t, r, n - 1);
      AddKeepsConsistency(AddTimesOver(t, r, n - 1), r);
    }
  }
}
