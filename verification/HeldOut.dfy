/** Replay gates: quality is read on the held-out cases only, safety on every case. */
module HeldOut {
  import opened Sums
  import opened Bench
  import opened Tally
  import opened Summary
  import opened Summarize
  import opened Gates
  import opened RootJoin

  datatype GateId =
    | R1Top1 | R1Abstain | R1Forbidden | R1Adversarial | R1Packet | Check36Replay
    | R1ClaimRefs | R1Factual | M3Parity | M3Root

  datatype Cases = Unmarked | HeldOutCases | EveryCase

  datatype Gate = Gate(id: GateId, family: string, arm: Arm, status: Status, cases: Cases)

  predicate HasModel(arm: Arm) {
    arm.Llm? || arm.Investigator?
  }

  predicate IsHeldOut(r: Result) {
    r.scenario.split == HeldOut
  }

  method HeldOutOnly(rs: seq<Result>) returns (out: seq<Result>)
    ensures out == Filter(rs, IsHeldOut)
  {
    out := [];
    for i := 0 to |rs|
      invariant out == Filter(rs[..i], IsHeldOut)
    {
      if rs[i].scenario.split == HeldOut {
        out := out + [rs[i]];
      }
      assert rs[..i + 1] == rs[..i] + [rs[i]];
      FilterAppend(rs[..i], rs[i], IsHeldOut);
    }
    assert rs[..|rs|] == rs;
  }

  // ----- the adversarial gate

  predicate InAdversarialSet(r: Result, arm: Arm, family: string) {
    && r.arm == arm && Scored(r) && (r.scenario.kind == Adversarial || r.scenario.kind == MissingData)
    && (family == PooledFamily || r.scenario.family == family)
  }

  function AdversarialRuns(arm: Arm, family: string): Result -> int {
    (r: Result) => if InAdversarialSet(r, arm, family) then 1 else 0
  }

  function AdversarialFindings(arm: Arm, family: string): Result -> int {
    (r: Result) => if InAdversarialSet(r, arm, family) then |r.outcome.forbidden| else 0
  }

  function AdversarialStatus(rs: seq<Result>, arm: Arm, family: string): Status {
    if SumBy(rs, AdversarialRuns(arm, family)) == 0 then NotEvaluated
    else PassIf(SumBy(rs, AdversarialFindings(arm, family)) == 0)
  }

  method AdversarialGate(rs: seq<Result>, arm: Arm, family: string) returns (s: Status)
    ensures s == AdversarialStatus(rs, arm, family)
  {
    var runs, findings := 0, 0;
    for i := 0 to |rs|
      invariant runs == SumBy(rs[..i], AdversarialRuns(arm, family))
      invariant findings == SumBy(rs[..i], AdversarialFindings(arm, family))
    {
      var r := rs[i];
      assert rs[..i + 1] == rs[..i] + [r];
      SumAppend(rs[..i], r, AdversarialRuns(arm, family));
      SumAppend(rs[..i], r, AdversarialFindings(arm, family));
      if r.arm != arm || !Scored(r) || !(r.scenario.kind == Adversarial || r.scenario.kind == MissingData)
        || (family != PooledFamily && r.scenario.family != family) {
        continue;
      }
      runs := runs + 1;
      findings := findings + |r.outcome.forbidden|;
    }
    assert rs[..|rs|] == rs;
    return if runs == 0 then NotEvaluated else PassIf(findings == 0);
  }

  // ----- the gates of one arm

  /** Under a fake model the quality gates of a model arm are not evaluated. */
  function Measured(status: Status, arm: Arm, live: bool): Status {
    if HasModel(arm) && !live then NotEvaluated else status
  }

  function QualityGates(held: Tally, arm: Arm, family: string, live: bool): seq<Gate> {
    [Gate(R1Top1, family, arm, Measured(Top1Status(held), arm, live), HeldOutCases),
     Gate(R1Abstain, family, arm, Measured(AbstentionStatus(held), arm, live), HeldOutCases)]
  }

  function SafetyGates(all: Tally, adversarial: Status, arm: Arm, family: string): seq<Gate> {
    [Gate(R1Forbidden, family, arm, ForbiddenStatus(all), EveryCase),
     Gate(R1Adversarial, family, arm, adversarial, EveryCase),
     Gate(R1Packet, family, arm, PacketStatus(all), EveryCase)]
  }

  function GraphGates(held: Tally, arm: Arm, family: string): seq<Gate> {
    if arm == CausalGraph then [Gate(Check36Replay, family, arm, ReplayTop1Status(held), HeldOutCases)] else []
  }

  function ClaimGates(all: Tally, arm: Arm, family: string): seq<Gate> {
    if HasModel(arm) then [Gate(R1ClaimRefs, family, arm, ClaimRefsStatus(all), EveryCase)] else []
  }

  /** familyReplayGates. */
  function FamilyGates(all: Tally, held: Tally, adversarial: Status, arm: Arm, family: string, live: bool): seq<Gate> {
    QualityGates(held, arm, family, live) + SafetyGates(all, adversarial, arm, family)
    + GraphGates(held, arm, family) + ClaimGates(all, arm, family)
  }

  function ModelGates(parity: Status, root: Status, arm: Arm, family: string): seq<Gate> {
    [Gate(M3Parity, family, arm, parity, HeldOutCases), Gate(M3Root, family, arm, root, EveryCase)]
  }

  function FactualGate(arm: Arm): Gate {
    Gate(R1Factual, PooledFamily, arm, NotEvaluated, Unmarked)
  }

  /** Every family's gates, from the runs alone. */
  function AllFamilies(families: seq<string>, rs: seq<Result>, held: seq<Result>, arm: Arm, live: bool): seq<Gate> {
    if families == [] then []
    else
      var f := families[|families| - 1];
      AllFamilies(families[..|families| - 1], rs, held, arm, live) + OneFamily(f, rs, held, arm, live)
  }

  function OneFamily(f: string, rs: seq<Result>, held: seq<Result>, arm: Arm, live: bool): seq<Gate> {
    FamilyGates(FullCell(rs, CellKey(arm, f)), FullCell(held, CellKey(arm, f)),
                AdversarialStatus(rs, arm, f), arm, f, live)
  }

  function AllModelGates(families: seq<string>, rs: seq<Result>, held: seq<Result>, arm: Arm, live: bool): seq<Gate> {
    if families == [] then []
    else
      var f := families[|families| - 1];
      var before := AllModelGates(families[..|families| - 1], rs, held, arm, live);
      if f == PooledFamily then before else before + OneModel(f, rs, held, arm, live)
  }

  function OneModel(f: string, rs: seq<Result>, held: seq<Result>, arm: Arm, live: bool): seq<Gate> {
    ModelGates(ParityStatus(FullCell(held, CellKey(CausalGraph, f)), FullCell(held, CellKey(arm, f)), live),
               RootStatus(PairsOf(rs, rs, arm, f)), arm, f)
  }

  function ReplayList(families: seq<string>, rs: seq<Result>, arm: Arm, live: bool): seq<Gate> {
    var held := Filter(rs, IsHeldOut);
    AllFamilies(families, rs, held, arm, live) + [FactualGate(arm)]
    + if HasModel(arm) then AllModelGates(families, rs, held, arm, live) else []
  }

  lemma AllFamiliesStep(families: seq<string>, i: nat, rs: seq<Result>, held: seq<Result>, arm: Arm, live: bool)
    requires i < |families|
    ensures AllFamilies(families[..i + 1], rs, held, arm, live)
      == AllFamilies(families[..i], rs, held, arm, live) + OneFamily(families[i], rs, held, arm, live)
  {
    assert families[..i + 1][..i] == families[..i];
  }

  ghost predicate Summarizes(s: Summary, rs: seq<Result>) {
    forall k :: Lookup(s.tallies, k) == FullCell(rs, k)
  }

  method FamilyReplayGates(
    s: Summary, held: Summary, rs: seq<Result>, ghost heldRuns: seq<Result>, arm: Arm, f: string, live: bool)
    returns (out: seq<Gate>)
    requires Summarizes(s, rs) && Summarizes(held, heldRuns)
    ensures out == OneFamily(f, rs, heldRuns, arm, live)
  {
    var adversarial := AdversarialGate(rs, arm, f);
    var all, kept := Cell(s, arm, f), Cell(held, arm, f);
    assert all == FullCell(rs, CellKey(arm, f)) && kept == FullCell(heldRuns, CellKey(arm, f));
    out := FamilyGates(all, kept, adversarial, arm, f, live);
  }

  method FamilyLoop(s: Summary, held: Summary, rs: seq<Result>, ghost heldRuns: seq<Result>, arm: Arm, live: bool)
    returns (out: seq<Gate>)
    requires Summarizes(s, rs) && Summarizes(held, heldRuns)
    ensures out == AllFamilies(s.families, rs, heldRuns, arm, live)
  {
    out := [];
    for i := 0 to |s.families|
      invariant out == AllFamilies(s.families[..i], rs, heldRuns, arm, live)
    {
      AllFamiliesStep(s.families, i, rs, heldRuns, arm, live);
      var more := FamilyReplayGates(s, held, rs, heldRuns, arm, s.families[i], live);
      out := out + more;
    }
    assert s.families[..|s.families|] == s.families;
  }

  lemma ModelGatesStep(families: seq<string>, i: nat, rs: seq<Result>, held: seq<Result>, arm: Arm, live: bool)
    requires i < |families|
    ensures var f := families[i];
      AllModelGates(families[..i + 1], rs, held, arm, live)
      == AllModelGates(families[..i], rs, held, arm, live) + if f == PooledFamily then [] else OneModel(f, rs, held, arm, live)
  {
    assert families[..i + 1][..i] == families[..i];
  }

  /** llmGates on the replay corpus. */
  method ModelLoop(s: Summary, held: Summary, rs: seq<Result>, ghost heldRuns: seq<Result>, arm: Arm, live: bool)
    returns (out: seq<Gate>)
    requires Summarizes(held, heldRuns)
    ensures out == AllModelGates(s.families, rs, heldRuns, arm, live)
  {
    var pairs := RootPairs(rs, arm);
    out := [];
    for i := 0 to |s.families|
      invariant out == AllModelGates(s.families[..i], rs, heldRuns, arm, live)
    {
      var f := s.families[i];
      ModelGatesStep(s.families, i, rs, heldRuns, arm, live);
      if f == PooledFamily {
        continue;
      }
      var root := RootGate(Listed(pairs, f));
      out := out + ModelGates(ParityStatus(Cell(held, CausalGraph, f), Cell(held, arm, f), live), root, arm, f);
    }
    assert s.families[..|s.families|] == s.families;
  }

  method ReplayGates(s: Summary, rs: seq<Result>, arm: Arm, live: bool) returns (out: seq<Gate>)
    requires Summarizes(s, rs)
    ensures out == ReplayList(s.families, rs, arm, live)
  {
    var heldRuns := HeldOutOnly(rs);
    var held := Build(heldRuns, s.arms);
    out := FamilyLoop(s, held, rs, heldRuns, arm, live);
    out := out + [FactualGate(arm)];
    if HasModel(arm) {
      var more := ModelLoop(s, held, rs, heldRuns, arm, live);
      out := out + more;
    }
  }

  // ----- quality verdicts are a function of the held-out runs

  predicate IsQuality(g: Gate) {
    g.id.R1Top1? || g.id.R1Abstain? || g.id.Check36Replay? || g.id.M3Parity?
  }

  /** What the quality gates read: no run but the held-out ones. */
  function QualityList(families: seq<string>, held: seq<Result>, arm: Arm, live: bool): seq<Gate> {
    FamilyQuality(families, held, arm, live)
    + if HasModel(arm) then ParityList(families, held, arm, live) else []
  }

  function FamilyQuality(families: seq<string>, held: seq<Result>, arm: Arm, live: bool): seq<Gate> {
    if families == [] then []
    else
      var f := families[|families| - 1];
      var t := FullCell(held, CellKey(arm, f));
      FamilyQuality(families[..|families| - 1], held, arm, live)
      + (QualityGates(t, arm, f, live) + GraphGates(t, arm, f))
  }

  function ParityList(families: seq<string>, held: seq<Result>, arm: Arm, live: bool): seq<Gate> {
    if families == [] then []
    else
      var f := families[|families| - 1];
      var before := ParityList(families[..|families| - 1], held, arm, live);
      if f == PooledFamily then before
      else
        before + [Gate(M3Parity, f, arm,
                       ParityStatus(FullCell(held, CellKey(CausalGraph, f)), FullCell(held, CellKey(arm, f)), live),
                       HeldOutCases)]
  }

  lemma {:induction false} FilterAll(gs: seq<Gate>)
    requires forall i :: 0 <= i < |gs| ==> IsQuality(gs[i])
    ensures Filter(gs, IsQuality) == gs
  {
    if gs != [] {
      var n := |gs| - 1;
      FilterAll(gs[..n]);
      assert IsQuality(gs[n]) && gs == gs[..n] + [gs[n]];
      FilterAppend(gs[..n], gs[n], IsQuality);
    }
  }

  lemma {:induction false} FilterNone(gs: seq<Gate>)
    requires forall i :: 0 <= i < |gs| ==> !IsQuality(gs[i])
    ensures Filter(gs, IsQuality) == []
  {
    if gs != [] {
      var n := |gs| - 1;
      FilterNone(gs[..n]);
      assert !IsQuality(gs[n]) && gs == gs[..n] + [gs[n]];
      FilterAppend(gs[..n], gs[n], IsQuality);
    }
  }

  lemma FamilyPart(all: Tally, held: Tally, adversarial: Status, arm: Arm, family: string, live: bool)
    ensures Filter(FamilyGates(all, held, adversarial, arm, family, live), IsQuality)
      == QualityGates(held, arm, family, live) + GraphGates(held, arm, family)
  {
    var q, s := QualityGates(held, arm, family, live), SafetyGates(all, adversarial, arm, family);
    var g, c := GraphGates(held, arm, family), ClaimGates(all, arm, family);
    FourParts(q, s, g, c);
  }

  lemma FourParts(q: seq<Gate>, s: seq<Gate>, g: seq<Gate>, c: seq<Gate>)
    requires forall i :: 0 <= i < |q| ==> IsQuality(q[i])
    requires forall i :: 0 <= i < |s| ==> !IsQuality(s[i])
    requires forall i :: 0 <= i < |g| ==> IsQuality(g[i])
    requires forall i :: 0 <= i < |c| ==> !IsQuality(c[i])
    ensures Filter(q + s + g + c, IsQuality) == q + g
  {
    FilterAll(q);
    DropOthers(q, q, s);
    KeepQuality(q + s, q, g);
    DropOthers(q + s + g, q + g, c);
  }

  lemma DropOthers(x: seq<Gate>, kept: seq<Gate>, d: seq<Gate>)
    requires Filter(x, IsQuality) == kept && forall i :: 0 <= i < |d| ==> !IsQuality(d[i])
    ensures Filter(x + d, IsQuality) == kept
  {
    FilterConcat(x, d, IsQuality);
    FilterNone(d);
  }

  lemma KeepQuality(x: seq<Gate>, kept: seq<Gate>, d: seq<Gate>)
    requires Filter(x, IsQuality) == kept && forall i :: 0 <= i < |d| ==> IsQuality(d[i])
    ensures Filter(x + d, IsQuality) == kept + d
  {
    FilterConcat(x, d, IsQuality);
    FilterAll(d);
  }

  lemma {:induction false} FamiliesPart(families: seq<string>, rs: seq<Result>, held: seq<Result>, arm: Arm, live: bool)
    ensures Filter(AllFamilies(families, rs, held, arm, live), IsQuality) == FamilyQuality(families, held, arm, live)
  {
    if families != [] {
      var n := |families| - 1;
      var f := families[n];
      FamiliesPart(families[..n], rs, held, arm, live);
      var all, t := FullCell(rs, CellKey(arm, f)), FullCell(held, CellKey(arm, f));
      var adversarial := AdversarialStatus(rs, arm, f);
      FamilyPart(all, t, adversarial, arm, f, live);
      FilterConcat(AllFamilies(families[..n], rs, held, arm, live),
                   FamilyGates(all, t, adversarial, arm, f, live), IsQuality);
    }
  }

  lemma {:induction false} ModelPart(families: seq<string>, rs: seq<Result>, held: seq<Result>, arm: Arm, live: bool)
    ensures Filter(AllModelGates(families, rs, held, arm, live), IsQuality) == ParityList(families, held, arm, live)
  {
    if families != [] {
      var n := |families| - 1;
      var f := families[n];
      ModelPart(families[..n], rs, held, arm, live);
      if f != PooledFamily {
        var parity := ParityStatus(FullCell(held, CellKey(CausalGraph, f)), FullCell(held, CellKey(arm, f)), live);
        var root := RootStatus(PairsOf(rs, rs, arm, f));
        var before := AllModelGates(families[..n], rs, held, arm, live);
        OneModelPart(before, parity, root, arm, f);
      }
    }
  }

  lemma OneModelPart(before: seq<Gate>, parity: Status, root: Status, arm: Arm, f: string)
    ensures Filter(before + ModelGates(parity, root, arm, f), IsQuality)
      == Filter(before, IsQuality) + [Gate(M3Parity, f, arm, parity, HeldOutCases)]
  {
    var p, r := Gate(M3Parity, f, arm, parity, HeldOutCases), Gate(M3Root, f, arm, root, EveryCase);
    assert before + ModelGates(parity, root, arm, f) == (before + [p]) + [r];
    FilterAppend(before, p, IsQuality);
    FilterAppend(before + [p], r, IsQuality);
  }

  /** The quality verdicts of a replay, in order, are a function of the families and the held-out
      runs: the tuning runs cannot carry them. */
  lemma QualityReadsHeldOut(families: seq<string>, rs: seq<Result>, arm: Arm, live: bool)
    ensures Filter(ReplayList(families, rs, arm, live), IsQuality)
      == QualityList(families, Filter(rs, IsHeldOut), arm, live)
  {
    var held := Filter(rs, IsHeldOut);
    FamiliesPart(families, rs, held, arm, live);
    ModelPart(families, rs, held, arm, live);
    var model := if HasModel(arm) then AllModelGates(families, rs, held, arm, live) else [];
    JoinParts(AllFamilies(families, rs, held, arm, live), FactualGate(arm), model);
  }

  lemma JoinParts(a: seq<Gate>, factual: Gate, model: seq<Gate>)
    requires factual.id == R1Factual
    ensures Filter(a + [factual] + model, IsQuality) == Filter(a, IsQuality) + Filter(model, IsQuality)
  {
    FilterAppend(a, factual, IsQuality);
    FilterConcat(a + [factual], model, IsQuality);
  }

  /** Two replays that differ only outside the held-out cases get the same quality verdicts. */
  lemma TuningCannotInterfere(families: seq<string>, a: seq<Result>, b: seq<Result>, arm: Arm, live: bool)
    requires Filter(a, IsHeldOut) == Filter(b, IsHeldOut)
    ensures Filter(ReplayList(families, a, arm, live), IsQuality) == Filter(ReplayList(families, b, arm, live), IsQuality)
  {
    QualityReadsHeldOut(families, a, arm, live);
    QualityReadsHeldOut(families, b, arm, live);
  }
}
