/** From the run loop to the gates: in a bench run that scored both arms throughout, the root gate
    already decides the top-1 half of parity. */
module BenchParity {
  import opened Names
  import opened Bench
  import opened Summary
  import opened Summarize
  import opened Gates
  import opened RootJoin
  import opened Harness

  predicate IsRun(r: Result, sc: Scenario, rep: int, arm: Arm) {
    r.scenario == sc && r.repeat == rep && r.arm == arm
  }

  predicate RunAt(rs: seq<Result>, i: nat, sc: Scenario, rep: int, arm: Arm) {
    i < |rs| && IsRun(rs[i], sc, rep, arm)
  }

  lemma AtLeft(a: seq<Result>, b: seq<Result>, i: nat, sc: Scenario, rep: int, arm: Arm)
    requires RunAt(a, i, sc, rep, arm)
    ensures RunAt(a + b, i, sc, rep, arm)
  {
  }

  lemma AtRight(a: seq<Result>, b: seq<Result>, i: nat, sc: Scenario, rep: int, arm: Arm)
    requires RunAt(b, i, sc, rep, arm)
    ensures RunAt(a + b, |a| + i, sc, rep, arm)
  {
    assert (a + b)[|a| + i] == b[i];
  }

  lemma {:induction false} BlockRecords(
    w: World, sc: Scenario, live: seq<Arm>, derived: seq<Arm>, rep: int, j: int, arm: Arm) returns (i: nat)
    requires arm in ArmOrder(live, derived, |live|)
    ensures RunAt(Block(w, sc, live, derived, rep, j, |live|), i, sc, rep, arm)
  {
    i :| 0 <= i < |ArmOrder(live, derived, |live|)| && ArmOrder(live, derived, |live|)[i] == arm;
    BlockArms(w, sc, live, derived, rep, j, |live|, i);
  }

  lemma {:induction false} RepeatRecords(
    w: World, ss: seq<Scenario>, live: seq<Arm>, derived: seq<Arm>, rep: int, n: nat, j: nat, arm: Arm) returns (i: nat)
    requires j < n <= |ss| && arm in ArmOrder(live, derived, |live|)
    ensures RunAt(Repeat(w, ss, live, derived, rep, n), i, ss[j], rep, arm)
    decreases n
  {
    if j == n - 1 {
      var k := BlockRecords(w, ss[j], live, derived, rep, j, arm);
      i := |Repeat(w, ss, live, derived, rep, j)| + k;
      LastBlock(w, ss, live, derived, rep, j, k, arm);
    } else {
      i := RepeatRecords(w, ss, live, derived, rep, n - 1, j, arm);
      EarlierBlock(w, ss, live, derived, rep, n - 1, i, ss[j], arm);
    }
  }

  lemma {:induction false} LastBlock(
    w: World, ss: seq<Scenario>, live: seq<Arm>, derived: seq<Arm>, rep: int, j: nat, k: nat, arm: Arm)
    requires j < |ss| && RunAt(Block(w, ss[j], live, derived, rep, j, |live|), k, ss[j], rep, arm)
    ensures RunAt(Repeat(w, ss, live, derived, rep, j + 1), |Repeat(w, ss, live, derived, rep, j)| + k, ss[j], rep, arm)
  {
    AtRight(Repeat(w, ss, live, derived, rep, j), Block(w, ss[j], live, derived, rep, j, |live|), k, ss[j], rep, arm);
  }

  lemma {:induction false} EarlierBlock(
    w: World, ss: seq<Scenario>, live: seq<Arm>, derived: seq<Arm>, rep: int, n: nat, i: nat, sc: Scenario, arm: Arm)
    requires n < |ss| && RunAt(Repeat(w, ss, live, derived, rep, n), i, sc, rep, arm)
    ensures RunAt(Repeat(w, ss, live, derived, rep, n + 1), i, sc, rep, arm)
  {
    AtLeft(Repeat(w, ss, live, derived, rep, n), Block(w, ss[n], live, derived, rep, n, |live|), i, sc, rep, arm);
  }

  /** Every arm of the run has a result of every scenario in every repeat. */
  lemma {:induction false} RunRecords(
    w: World, ss: seq<Scenario>, live: seq<Arm>, derived: seq<Arm>, reps: nat, rep: nat, j: nat, arm: Arm)
    returns (i: nat)
    requires 1 <= rep <= reps && j < |ss| && arm in ArmOrder(live, derived, |live|)
    ensures RunAt(RunAll(w, ss, live, derived, reps), i, ss[j], rep, arm)
    decreases reps
  {
    var before, b := RunAll(w, ss, live, derived, reps - 1), Repeat(w, ss, live, derived, reps, |ss|);
    if rep == reps {
      i := RepeatRecords(w, ss, live, derived, reps, |ss|, j, arm);
      AtRight(before, b, i, ss[j], rep, arm);
      i := |before| + i;
    } else {
      i := RunRecords(w, ss, live, derived, reps - 1, rep, j, arm);
      AtLeft(before, b, i, ss[j], rep, arm);
    }
  }

  ghost predicate FromRun(r: Result, ss: seq<Scenario>, reps: nat) {
    1 <= r.repeat <= reps && exists j :: 0 <= j < |ss| && r.scenario == ss[j]
  }

  lemma {:induction false} RunOrigin(w: World, ss: seq<Scenario>, live: seq<Arm>, derived: seq<Arm>, reps: nat, i: nat)
    requires i < |RunAll(w, ss, live, derived, reps)|
    ensures FromRun(RunAll(w, ss, live, derived, reps)[i], ss, reps)
    decreases reps
  {
    var before := RunAll(w, ss, live, derived, reps - 1);
    if i < |before| {
      RunOrigin(w, ss, live, derived, reps - 1, i);
    } else {
      RepeatMembers(w, ss, live, derived, reps, |ss|, i - |before|);
    }
  }

  /** Every recorded run of the two arms was scored. */
  ghost predicate AllScored(rs: seq<Result>, arm: Arm) {
    forall i :: 0 <= i < |rs| && (rs[i].arm == arm || rs[i].arm == CausalGraph) ==> Scored(rs[i])
  }

  lemma {:induction false} FindTwin(
    w: World, ss: seq<Scenario>, live: seq<Arm>, derived: seq<Arm>, reps: nat, i: nat, arm: Arm, other: Arm)
    requires var rs := RunAll(w, ss, live, derived, reps);
      i < |rs| && AllScored(rs, arm) && (other == arm || other == CausalGraph)
    requires other in ArmOrder(live, derived, |live|)
    ensures HasTwin(RunAll(w, ss, live, derived, reps), RunAll(w, ss, live, derived, reps)[i], other)
  {
    RunOrigin(w, ss, live, derived, reps, i);
    var r := RunAll(w, ss, live, derived, reps)[i];
    var j :| 0 <= j < |ss| && r.scenario == ss[j];
    var k := RunRecords(w, ss, live, derived, reps, r.repeat, j, other);
    RecordIsTwin(RunAll(w, ss, live, derived, reps), r, k, arm, other);
  }

  lemma RecordIsTwin(rs: seq<Result>, r: Result, k: nat, arm: Arm, other: Arm)
    requires RunAt(rs, k, r.scenario, r.repeat, other) && AllScored(rs, arm) && (other == arm || other == CausalGraph)
    ensures HasTwin(rs, r, other)
  {
    assert Twin(r, rs[k], other);
  }

  /** A bench run with distinct scenarios and arms in which the graph and a model arm were scored
      throughout: if the root gate of a family does not fail, the model arm's top-1 there is at least
      the graph's over the same number of runs, and the top-1 clause of the parity gate holds. */
  lemma {:induction false} RootGateCarriesParity(
    w: World, ss: seq<Scenario>, live: seq<Arm>, derived: seq<Arm>, reps: nat, arm: Arm, family: string)
    requires ScenariosDistinct(ss) && Distinct(ArmOrder(live, derived, |live|)) && family != PooledFamily
    requires arm in ArmOrder(live, derived, |live|) && CausalGraph in ArmOrder(live, derived, |live|)
    requires AllScored(RunAll(w, ss, live, derived, reps), arm)
    requires var rs := RunAll(w, ss, live, derived, reps);
      RootStatus(PairsOf(rs, rs, arm, family)) != Fail
    ensures var rs := RunAll(w, ss, live, derived, reps);
      var graph := FullCell(rs, CellKey(CausalGraph, family)).rates.top1;
      var model := FullCell(rs, CellKey(arm, family)).rates.top1;
      && model.n == graph.n && model.k >= graph.k
      && (graph.n > 0 && model.n > 0 ==> AtParity(model, graph))
  {
    RunDistinct(w, ss, live, derived, reps);
    ArmsMeet(w, ss, live, derived, reps, arm);
    RootGateImpliesTop1Parity(RunAll(w, ss, live, derived, reps), arm, family);
  }

  lemma {:induction false} ArmsMeet(w: World, ss: seq<Scenario>, live: seq<Arm>, derived: seq<Arm>, reps: nat, arm: Arm)
    requires arm in ArmOrder(live, derived, |live|) && CausalGraph in ArmOrder(live, derived, |live|)
    requires AllScored(RunAll(w, ss, live, derived, reps), arm)
    ensures SameRuns(RunAll(w, ss, live, derived, reps), arm)
  {
    forall i: nat | i < |RunAll(w, ss, live, derived, reps)|
      ensures HasTwin(RunAll(w, ss, live, derived, reps), RunAll(w, ss, live, derived, reps)[i], arm)
      ensures HasTwin(RunAll(w, ss, live, derived, reps), RunAll(w, ss, live, derived, reps)[i], CausalGraph)
    {
      FindTwin(w, ss, live, derived, reps, i, arm, arm);
      FindTwin(w, ss, live, derived, reps, i, arm, CausalGraph);
    }
  }
}
