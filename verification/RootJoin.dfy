/** The root gate: joins the causal graph's conclusive runs with a model arm's runs, and what that
    gate implies for top-1 parity. */
module RootJoin {
  import opened Names
  import opened Sums
  import opened Bench
  import opened Tally
  import opened Summary
  import opened Summarize
  import opened Gates

  datatype RunKey = RunKey(scenario: string, repeat: int)

  function KeyOf(r: Result): RunKey {
    RunKey(r.scenario.id, r.repeat)
  }

  datatype RootPair = RootPair(scenario: string, graphRoot: string, modelRoot: string)

  predicate Conclusive(r: Result) {
    r.arm == CausalGraph && Scored(r) && r.outcome.root != ""
  }

  predicate Of(r: Result, arm: Arm) {
    r.arm == arm && Scored(r)
  }

  /** The root of the last conclusive graph run with a key. */
  function GraphRoot(rs: seq<Result>, k: RunKey): Option<string> {
    if rs == [] then None
    else
      var r := rs[|rs| - 1];
      if Conclusive(r) && KeyOf(r) == k then Some(r.outcome.root) else GraphRoot(rs[..|rs| - 1], k)
  }

  /** The pairs of one family, in the order of the model arm's runs. */
  function PairsOf(rs: seq<Result>, all: seq<Result>, arm: Arm, family: string): seq<RootPair> {
    if rs == [] then []
    else PairsOf(rs[..|rs| - 1], all, arm, family) + PairFrom(rs[|rs| - 1], all, arm, family)
  }

  function PairFrom(r: Result, all: seq<Result>, arm: Arm, family: string): seq<RootPair> {
    var root := GraphRoot(all, KeyOf(r));
    if Of(r, arm) && root.Some? && r.scenario.family == family
    then [RootPair(r.scenario.id, root.value, r.outcome.root)]
    else []
  }

  function Listed(m: map<string, seq<RootPair>>, family: string): seq<RootPair> {
    if family in m then m[family] else []
  }

  method CollectGraph(rs: seq<Result>) returns (graph: map<RunKey, string>)
    ensures forall k :: GraphRoot(rs, k) == if k in graph then Some(graph[k]) else None
  {
    graph := map[];
    for i := 0 to |rs|
      invariant forall k :: GraphRoot(rs[..i], k) == if k in graph then Some(graph[k]) else None
    {
      var r := rs[i];
      assert rs[..i + 1][..i] == rs[..i];
      if r.arm == CausalGraph && Scored(r) && r.outcome.root != "" {
        graph := graph[KeyOf(r) := r.outcome.root];
      }
    }
    assert rs[..|rs|] == rs;
  }

  function AddPair(m: map<string, seq<RootPair>>, r: Result, root: Option<string>, arm: Arm)
    : map<string, seq<RootPair>>
  {
    if !Of(r, arm) || root.None? then m
    else
      var family := r.scenario.family;
      m[family := Listed(m, family) + [RootPair(r.scenario.id, root.value, r.outcome.root)]]
  }

  function PairMap(rs: seq<Result>, all: seq<Result>, arm: Arm): map<string, seq<RootPair>> {
    if rs == [] then map[]
    else
      var r := rs[|rs| - 1];
      AddPair(PairMap(rs[..|rs| - 1], all, arm), r, GraphRoot(all, KeyOf(r)), arm)
  }

  lemma {:induction false} PairMapLists(rs: seq<Result>, all: seq<Result>, arm: Arm, f: string)
    ensures Listed(PairMap(rs, all, arm), f) == PairsOf(rs, all, arm, f)
  {
    if rs != [] {
      PairMapLists(rs[..|rs| - 1], all, arm, f);
      OnePair(PairMap(rs[..|rs| - 1], all, arm), rs[|rs| - 1], all, arm, f);
    }
  }

  lemma OnePair(m: map<string, seq<RootPair>>, r: Result, all: seq<Result>, arm: Arm, f: string)
    ensures Listed(AddPair(m, r, GraphRoot(all, KeyOf(r)), arm), f) == Listed(m, f) + PairFrom(r, all, arm, f)
  {
  }

  method JoinAll(rs: seq<Result>, graph: map<RunKey, string>, arm: Arm) returns (out: map<string, seq<RootPair>>)
    requires forall k :: GraphRoot(rs, k) == if k in graph then Some(graph[k]) else None
    ensures out == PairMap(rs, rs, arm)
  {
    out := map[];
    for i := 0 to |rs|
      invariant out == PairMap(rs[..i], rs, arm)
    {
      var r := rs[i];
      assert rs[..i + 1][..i] == rs[..i] && rs[..i + 1][i] == r;
      var root := if KeyOf(r) in graph then Some(graph[KeyOf(r)]) else None;
      assert root == GraphRoot(rs, KeyOf(r));
      out := AddPair(out, r, root, arm);
    }
    assert rs[..|rs|] == rs;
  }

  /** rootPairs: a hash join. */
  method RootPairs(rs: seq<Result>, arm: Arm) returns (out: map<string, seq<RootPair>>)
    ensures forall f :: Listed(out, f) == PairsOf(rs, rs, arm, f)
  {
    var graph := CollectGraph(rs);
    out := JoinAll(rs, graph, arm);
    forall f
      ensures Listed(out, f) == PairsOf(rs, rs, arm, f)
    {
      PairMapLists(rs, rs, arm, f);
    }
  }

  function RootStatus(pairs: seq<RootPair>): Status {
    if pairs == [] then NotEvaluated
    else PassIf(forall i :: 0 <= i < |pairs| ==> pairs[i].modelRoot == pairs[i].graphRoot)
  }

  method RootGate(pairs: seq<RootPair>) returns (s: Status)
    ensures s == RootStatus(pairs)
  {
    if |pairs| == 0 {
      return NotEvaluated;
    }
    var changed := 0;
    for i := 0 to |pairs|
      invariant changed >= 0
      invariant changed == 0 <==> forall j :: 0 <= j < i ==> pairs[j].modelRoot == pairs[j].graphRoot
    {
      if pairs[i].modelRoot != pairs[i].graphRoot {
        changed := changed + 1;
      }
    }
    return PassIf(changed == 0);
  }

  // ----- the join is relational

  /** No two scored runs of one arm share a scenario and repeat. */
  ghost predicate UniqueRuns(rs: seq<Result>) {
    forall i, j :: 0 <= i < j < |rs| && rs[i].arm == rs[j].arm && Scored(rs[i]) && Scored(rs[j]) ==>
      KeyOf(rs[i]) != KeyOf(rs[j])
  }

  lemma {:induction false} GraphRootIsRun(rs: seq<Result>, k: RunKey)
    ensures match GraphRoot(rs, k)
      case None => forall i :: 0 <= i < |rs| ==> !(Conclusive(rs[i]) && KeyOf(rs[i]) == k)
      case Some(root) => exists i :: 0 <= i < |rs| && Conclusive(rs[i]) && KeyOf(rs[i]) == k && rs[i].outcome.root == root
  {
    if rs != [] {
      var n := |rs| - 1;
      GraphRootIsRun(rs[..n], k);
      if !(Conclusive(rs[n]) && KeyOf(rs[n]) == k) && GraphRoot(rs, k).Some? {
        var i :| 0 <= i < n && Conclusive(rs[..n][i]) && KeyOf(rs[..n][i]) == k
          && rs[..n][i].outcome.root == GraphRoot(rs, k).value;
        assert rs[i] == rs[..n][i];
      }
    }
  }

  /** The graph's scored run named a root, the model arm's scored run of the family has the same scenario
      and repeat, and the pair is their two roots. */
  ghost predicate Joins(g: Result, m: Result, arm: Arm, family: string, p: RootPair) {
    && g.arm == CausalGraph && g.skipped == "" && g.err == NoFault && g.outcome.root != ""
    && m.arm == arm && m.skipped == "" && m.err == NoFault && m.scenario.family == family
    && g.scenario.id == m.scenario.id && g.repeat == m.repeat
    && p.scenario == m.scenario.id && p.graphRoot == g.outcome.root && p.modelRoot == m.outcome.root
  }

  /** The graph named the root in its last conclusive run of a scenario and repeat. */
  lemma {:induction false} GraphRootIsLast(rs: seq<Result>, k: RunKey)
    ensures GraphRoot(rs, k).None? ==> forall i :: 0 <= i < |rs| ==> !NamesRootOf(rs[i], k)
    ensures GraphRoot(rs, k).Some? ==>
      exists i :: 0 <= i < |rs| && NamesRootOf(rs[i], k) && GraphRoot(rs, k) == Some(rs[i].outcome.root)
        && forall j :: i < j < |rs| ==> !NamesRootOf(rs[j], k)
  {
    if rs != [] {
      var n := |rs| - 1;
      GraphRootIsLast(rs[..n], k);
      if !NamesRootOf(rs[n], k) && GraphRoot(rs, k).Some? {
        var i :| 0 <= i < n && NamesRootOf(rs[..n][i], k) && GraphRoot(rs, k) == Some(rs[..n][i].outcome.root)
          && forall j :: i < j < n ==> !NamesRootOf(rs[..n][j], k);
        assert rs[i] == rs[..n][i] && forall j :: 0 <= j < n ==> rs[j] == rs[..n][j];
      }
    }
  }

  predicate NamesRootOf(r: Result, k: RunKey) {
    && r.arm == CausalGraph && r.skipped == "" && r.err == NoFault && r.outcome.root != ""
    && r.scenario.id == k.scenario && r.repeat == k.repeat
  }

  lemma GraphRootOfRun(rs: seq<Result>, i: nat)
    requires UniqueRuns(rs) && i < |rs| && Conclusive(rs[i])
    ensures GraphRoot(rs, KeyOf(rs[i])) == Some(rs[i].outcome.root)
  {
    GraphRootIsRun(rs, KeyOf(rs[i]));
    var root := GraphRoot(rs, KeyOf(rs[i]));
    var j :| 0 <= j < |rs| && Conclusive(rs[j]) && KeyOf(rs[j]) == KeyOf(rs[i]) && rs[j].outcome.root == root.value;
    assert i == j;
  }

  lemma {:induction false} PairOfRun(rs: seq<Result>, all: seq<Result>, arm: Arm, family: string, j: nat)
    requires j < |rs| && Of(rs[j], arm) && rs[j].scenario.family == family && GraphRoot(all, KeyOf(rs[j])).Some?
    ensures RootPair(rs[j].scenario.id, GraphRoot(all, KeyOf(rs[j])).value, rs[j].outcome.root)
      in PairsOf(rs, all, arm, family)
  {
    if j < |rs| - 1 {
      PairOfRun(rs[..|rs| - 1], all, arm, family, j);
    }
  }

  ghost predicate FromRun(r: Result, all: seq<Result>, arm: Arm, family: string, p: RootPair) {
    && Of(r, arm) && r.scenario.family == family && GraphRoot(all, KeyOf(r)) == Some(p.graphRoot)
    && p.scenario == r.scenario.id && p.modelRoot == r.outcome.root
  }

  lemma {:induction false} RunOfPair(rs: seq<Result>, all: seq<Result>, arm: Arm, family: string, p: RootPair)
    requires p in PairsOf(rs, all, arm, family)
    ensures exists j :: 0 <= j < |rs| && FromRun(rs[j], all, arm, family, p)
  {
    var n := |rs| - 1;
    if p in PairsOf(rs[..n], all, arm, family) {
      RunOfPair(rs[..n], all, arm, family, p);
      var j :| 0 <= j < n && FromRun(rs[..n][j], all, arm, family, p);
      assert rs[j] == rs[..n][j];
    } else {
      assert FromRun(rs[n], all, arm, family, p);
    }
  }

  /** When runs are unique the pairs of a family are exactly the join of the graph's conclusive runs
      with the model arm's runs of that family on scenario and repeat. */
  lemma PairsAreJoin(rs: seq<Result>, arm: Arm, family: string, p: RootPair)
    requires UniqueRuns(rs)
    ensures p in PairsOf(rs, rs, arm, family) <==>
      exists i, j :: 0 <= i < |rs| && 0 <= j < |rs| && Joins(rs[i], rs[j], arm, family, p)
  {
    if p in PairsOf(rs, rs, arm, family) {
      RunOfPair(rs, rs, arm, family, p);
      var j :| 0 <= j < |rs| && FromRun(rs[j], rs, arm, family, p);
      GraphRootIsRun(rs, KeyOf(rs[j]));
      var i :| 0 <= i < |rs| && Conclusive(rs[i]) && KeyOf(rs[i]) == KeyOf(rs[j]) && rs[i].outcome.root == p.graphRoot;
      assert Joins(rs[i], rs[j], arm, family, p);
    }
    if i, j :| 0 <= i < |rs| && 0 <= j < |rs| && Joins(rs[i], rs[j], arm, family, p) {
      GraphRootOfRun(rs, i);
      PairOfRun(rs, rs, arm, family, j);
    }
  }

  // ----- from the root gate to top-1 parity

  /** Both arms scored the same scenarios in the same repeats. */
  ghost predicate SameRuns(rs: seq<Result>, arm: Arm) {
    && (forall i :: 0 <= i < |rs| && Of(rs[i], CausalGraph) ==> HasTwin(rs, rs[i], arm))
    && (forall i :: 0 <= i < |rs| && Of(rs[i], arm) ==> HasTwin(rs, rs[i], CausalGraph))
  }

  ghost predicate HasTwin(rs: seq<Result>, r: Result, arm: Arm) {
    exists j :: 0 <= j < |rs| && Twin(r, rs[j], arm)
  }

  ghost predicate Twin(r: Result, twin: Result, arm: Arm) {
    Of(twin, arm) && twin.repeat == r.repeat && twin.scenario == r.scenario
  }

  function Keys(rs: seq<Result>, p: Result -> bool): set<RunKey> {
    set i | 0 <= i < |rs| && p(rs[i]) :: KeyOf(rs[i])
  }

  function CountIf(p: Result -> bool): Result -> int {
    (r: Result) => Indicator(p(r))
  }

  lemma UniquePrefix(rs: seq<Result>, n: nat)
    requires UniqueRuns(rs) && n <= |rs|
    ensures UniqueRuns(rs[..n])
  {
  }

  lemma KeysGrow(rs: seq<Result>, r: Result, p: Result -> bool)
    ensures Keys(rs + [r], p) == if p(r) then Keys(rs, p) + {KeyOf(r)} else Keys(rs, p)
  {
    var longer := rs + [r];
    assert forall i :: 0 <= i < |rs| ==> longer[i] == rs[i];
    if p(r) {
      assert longer[|rs|] == r;
    }
  }

  lemma NewKey(rs: seq<Result>, n: nat, p: Result -> bool, arm: Arm)
    requires UniqueRuns(rs) && n < |rs| && Of(rs[n], arm) && forall r :: p(r) ==> Of(r, arm)
    ensures KeyOf(rs[n]) !in Keys(rs[..n], p)
  {
    forall i | 0 <= i < n && p(rs[..n][i])
      ensures KeyOf(rs[..n][i]) != KeyOf(rs[n])
    {
      assert Of(rs[i], arm);
    }
  }

  /** Counting unique runs counts their keys. */
  lemma {:induction false} CountIsKeys(rs: seq<Result>, p: Result -> bool, arm: Arm)
    requires UniqueRuns(rs) && forall r :: p(r) ==> Of(r, arm)
    ensures SumBy(rs, CountIf(p)) == |Keys(rs, p)|
  {
    if rs != [] {
      var n := |rs| - 1;
      UniquePrefix(rs, n);
      CountIsKeys(rs[..n], p, arm);
      KeysGrow(rs[..n], rs[n], p);
      assert rs == rs[..n] + [rs[n]];
      SumAppend(rs[..n], rs[n], CountIf(p));
      if p(rs[n]) {
        NewKey(rs, n, p, arm);
        assert |Keys(rs, p)| == |Keys(rs[..n], p)| + 1;
      }
    }
  }

  function Sufficed(arm: Arm, family: string): Result -> bool {
    (r: Result) => Of(r, arm) && r.scenario.family == family && Sufficient(r.scenario.gold)
  }

  function Solved(arm: Arm, family: string): Result -> bool {
    (r: Result) => Of(r, arm) && r.scenario.family == family && NamesGold(r)
  }

  lemma {:induction false} Top1Counts(rs: seq<Result>, arm: Arm, family: string)
    requires UniqueRuns(rs) && family != PooledFamily
    ensures FullCell(rs, CellKey(arm, family)).rates.top1
      == Prop(|Keys(rs, Solved(arm, family))|, |Keys(rs, Sufficed(arm, family))|)
  {
    var k := CellKey(arm, family);
    CellCounts(rs, k, Hits(Top1));
    CellCounts(rs, k, Trials(Top1));
    SumEqual(rs, Share(k, Hits(Top1)), CountIf(Solved(arm, family)));
    SumEqual(rs, Share(k, Trials(Top1)), CountIf(Sufficed(arm, family)));
    CountIsKeys(rs, Solved(arm, family), arm);
    CountIsKeys(rs, Sufficed(arm, family), arm);
  }

  lemma SubsetCard<T>(a: set<T>, b: set<T>)
    requires a <= b
    ensures |a| <= |b|
  {
    assert b == a + (b - a);
  }

  lemma SameSufficed(rs: seq<Result>, arm: Arm, other: Arm, family: string)
    requires forall i :: 0 <= i < |rs| && Of(rs[i], arm) ==> HasTwin(rs, rs[i], other)
    ensures Keys(rs, Sufficed(arm, family)) <= Keys(rs, Sufficed(other, family))
  {
    forall k | k in Keys(rs, Sufficed(arm, family))
      ensures k in Keys(rs, Sufficed(other, family))
    {
      var i :| 0 <= i < |rs| && Sufficed(arm, family)(rs[i]) && KeyOf(rs[i]) == k;
      TwinSufficed(rs, arm, other, family, i);
    }
  }

  lemma TwinSufficed(rs: seq<Result>, arm: Arm, other: Arm, family: string, i: nat)
    requires i < |rs| && Sufficed(arm, family)(rs[i]) && HasTwin(rs, rs[i], other)
    ensures KeyOf(rs[i]) in Keys(rs, Sufficed(other, family))
  {
    var j :| 0 <= j < |rs| && Twin(rs[i], rs[j], other);
    KeyListed(rs, Sufficed(other, family), j);
  }

  lemma TwinSolved(rs: seq<Result>, arm: Arm, family: string, i: nat, j: nat)
    requires UniqueRuns(rs) && RootStatus(PairsOf(rs, rs, arm, family)) != Fail
    requires i < |rs| && j < |rs| && Solved(CausalGraph, family)(rs[i]) && Twin(rs[i], rs[j], arm)
    ensures Solved(arm, family)(rs[j])
  {
    var p := RootPair(rs[j].scenario.id, rs[i].outcome.root, rs[j].outcome.root);
    assert Joins(rs[i], rs[j], arm, family, p);
    PairsAreJoin(rs, arm, family, p);
    KeptRoot(PairsOf(rs, rs, arm, family), p);
  }

  lemma KeptRoot(pairs: seq<RootPair>, p: RootPair)
    requires RootStatus(pairs) != Fail && p in pairs
    ensures p.modelRoot == p.graphRoot
  {
  }

  lemma SolvedKey(rs: seq<Result>, arm: Arm, family: string, i: nat)
    requires UniqueRuns(rs) && RootStatus(PairsOf(rs, rs, arm, family)) != Fail
    requires i < |rs| && Solved(CausalGraph, family)(rs[i]) && HasTwin(rs, rs[i], arm)
    ensures KeyOf(rs[i]) in Keys(rs, Solved(arm, family))
  {
    var j :| 0 <= j < |rs| && Twin(rs[i], rs[j], arm);
    TwinSolved(rs, arm, family, i, j);
    KeyListed(rs, Solved(arm, family), j);
  }

  lemma KeyListed(rs: seq<Result>, p: Result -> bool, j: nat)
    requires j < |rs| && p(rs[j])
    ensures KeyOf(rs[j]) in Keys(rs, p)
  {
  }

  lemma GraphSolvedIsSolved(rs: seq<Result>, arm: Arm, family: string)
    requires UniqueRuns(rs) && SameRuns(rs, arm)
    requires RootStatus(PairsOf(rs, rs, arm, family)) != Fail
    ensures Keys(rs, Solved(CausalGraph, family)) <= Keys(rs, Solved(arm, family))
  {
    forall k | k in Keys(rs, Solved(CausalGraph, family))
      ensures k in Keys(rs, Solved(arm, family))
    {
      var i :| 0 <= i < |rs| && Solved(CausalGraph, family)(rs[i]) && KeyOf(rs[i]) == k;
      SolvedKey(rs, arm, family, i);
    }
  }

  lemma CompareTop1(rs: seq<Result>, arm: Arm, family: string)
    requires UniqueRuns(rs) && SameRuns(rs, arm)
    requires RootStatus(PairsOf(rs, rs, arm, family)) != Fail
    ensures |Keys(rs, Sufficed(CausalGraph, family))| == |Keys(rs, Sufficed(arm, family))|
    ensures |Keys(rs, Solved(CausalGraph, family))| <= |Keys(rs, Solved(arm, family))|
  {
    SameSufficed(rs, arm, CausalGraph, family);
    SameSufficed(rs, CausalGraph, arm, family);
    assert Keys(rs, Sufficed(CausalGraph, family)) == Keys(rs, Sufficed(arm, family));
    GraphSolvedIsSolved(rs, arm, family);
    SubsetCard(Keys(rs, Solved(CausalGraph, family)), Keys(rs, Solved(arm, family)));
  }

  /** If the root gate does not fail for a family and both arms scored the same runs, the model arm
      has as many sufficient-evidence runs and at least as many top-1 hits there as the graph, so the
      top-1 clause of parity holds. */
  lemma RootGateImpliesTop1Parity(rs: seq<Result>, arm: Arm, family: string)
    requires UniqueRuns(rs) && SameRuns(rs, arm) && family != PooledFamily
    requires RootStatus(PairsOf(rs, rs, arm, family)) != Fail
    ensures var graph := FullCell(rs, CellKey(CausalGraph, family)).rates.top1;
      var model := FullCell(rs, CellKey(arm, family)).rates.top1;
      && model.n == graph.n >= 0 && model.k >= graph.k
      && (graph.n > 0 && model.n > 0 ==> AtParity(model, graph))
  {
    Top1Counts(rs, CausalGraph, family);
    Top1Counts(rs, arm, family);
    CompareTop1(rs, arm, family);
    var graph := FullCell(rs, CellKey(CausalGraph, family)).rates.top1;
    var model := FullCell(rs, CellKey(arm, family)).rates.top1;
    if graph.n > 0 {
      SameRunsParity(model, graph);
    }
  }
}
