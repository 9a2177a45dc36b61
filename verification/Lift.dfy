/** Model lift: what a model adds over the causal graph, on scored held-out runs. */
module Lift {
  import opened Names
  import opened Sums
  import opened Bench
  import opened Tally
  import opened Summary
  import opened RootJoin

  datatype LiftTally = LiftTally(
    runs: int, inconclusive: int, right: int, wrong: int, forbidden: int,
    safe: Prop, top1: Prop, overrides: Prop, adopted: Prop, baseSafe: Prop, baseTop1: Prop)

  const NoLift := LiftTally(0, 0, 0, 0, 0, Prop(0, 0), Prop(0, 0), Prop(0, 0), Prop(0, 0), Prop(0, 0), Prop(0, 0))

  /** The root the model put above the graph's conclusive one. */
  function Override(r: Result): (o: Option<string>)
    ensures o.Some? <==>
      r.outcome.model.Some? && r.outcome.model.value.disagreed > 0 && r.outcome.model.value.modelRoot != ""
    ensures o.Some? ==> o.value == r.outcome.model.value.modelRoot
  {
    match r.outcome.model
    case None => None
    case Some(m) => if m.disagreed > 0 && m.modelRoot != "" then Some(m.modelRoot) else None
  }

  /** addInconclusive. */
  function AddInconclusive(t: LiftTally, r: Result): LiftTally {
    var t := t.(inconclusive := t.inconclusive + 1);
    var pick :=
      if r.outcome.root == "" && r.outcome.model.Some? then r.outcome.model.value.rankedFirst else r.outcome.root;
    if pick == "" then t
    else if Sufficient(r.scenario.gold) && pick == r.scenario.gold.root then t.(right := t.right + 1)
    else t.(wrong := t.wrong + 1)
  }

  function AddBase(t: LiftTally, r: Result, base: Result): LiftTally {
    var bg := GradeResult(base);
    var t := t.(baseSafe := Count(t.baseSafe, bg.safePass));
    var t := if bg.sufficient then t.(baseTop1 := Count(t.baseTop1, bg.top1)) else t;
    if base.outcome.root == "" then AddInconclusive(t, r) else t
  }

  function AddOwn(t: LiftTally, r: Result): LiftTally {
    var gold, o, g := r.scenario.gold, r.outcome, GradeResult(r);
    var t := t.(runs := t.runs + 1, safe := Count(t.safe, g.safePass));
    var t := if g.sufficient then t.(top1 := Count(t.top1, g.top1)) else t;
    var t := t.(forbidden := t.forbidden + |o.forbidden|);
    var override := Override(r);
    var t :=
      if override.Some? then t.(overrides := Count(t.overrides, g.sufficient && override.value == gold.root)) else t;
    var adopted := if override.Some? then override.value else o.root;
    t.(adopted := Count(t.adopted, !g.unsafe && (adopted == "" || (g.sufficient && adopted == gold.root))))
  }

  /** liftTally.add. */
  function AddLift(t: LiftTally, r: Result, base: Option<Result>): LiftTally {
    var t := AddOwn(t, r);
    if base.None? then t else AddBase(t, r, base.value)
  }

  // ----- what each counter means

  datatype LiftRate = Safe | RightRoot | Overriding | Adopted | BaseSafe | BaseRightRoot

  datatype LiftCounter =
    | AllRuns | Inconclusive | ResolvedRight | ResolvedWrong | LiftForbidden
    | LiftHits(rate: LiftRate) | LiftTrials(rate: LiftRate)

  function LiftProp(t: LiftTally, rate: LiftRate): Prop {
    match rate
    case Safe => t.safe
    case RightRoot => t.top1
    case Overriding => t.overrides
    case Adopted => t.adopted
    case BaseSafe => t.baseSafe
    case BaseRightRoot => t.baseTop1
  }

  function LiftReading(t: LiftTally, c: LiftCounter): int {
    match c
    case AllRuns => t.runs
    case Inconclusive => t.inconclusive
    case ResolvedRight => t.right
    case ResolvedWrong => t.wrong
    case LiftForbidden => t.forbidden
    case LiftHits(rate) => LiftProp(t, rate).k
    case LiftTrials(rate) => LiftProp(t, rate).n
  }

  /** A diagnosis is safe when it names the gold root or nothing, without a forbidden action. */
  predicate SafeRoot(r: Result, root: string) {
    r.outcome.forbidden == [] && (root == "" || RightAnswer(r, root))
  }

  predicate RightAnswer(r: Result, root: string) {
    Sufficient(r.scenario.gold) && root == r.scenario.gold.root
  }

  /** What the model made of a case the graph left open. */
  function Resolution(r: Result): string {
    if r.outcome.root == "" && r.outcome.model.Some? then r.outcome.model.value.rankedFirst else r.outcome.root
  }

  predicate LeftOpen(base: Option<Result>) {
    base.Some? && base.value.outcome.root == ""
  }

  predicate LiftEligible(r: Result, base: Option<Result>, rate: LiftRate) {
    match rate
    case Safe => true
    case RightRoot => Sufficient(r.scenario.gold)
    case Overriding => Override(r).Some?
    case Adopted => true
    case BaseSafe => base.Some?
    case BaseRightRoot => base.Some? && Sufficient(base.value.scenario.gold)
  }

  predicate LiftHit(r: Result, base: Option<Result>, rate: LiftRate) {
    match rate
    case Safe => SafeRoot(r, r.outcome.root)
    case RightRoot => RightAnswer(r, r.outcome.root)
    case Overriding => Override(r).Some? && RightAnswer(r, Override(r).value)
    case Adopted => SafeRoot(r, if Override(r).Some? then Override(r).value else r.outcome.root)
    case BaseSafe => base.Some? && SafeRoot(base.value, base.value.outcome.root)
    case BaseRightRoot => base.Some? && RightAnswer(base.value, base.value.outcome.root)
  }

  function LiftAmount(r: Result, base: Option<Result>, c: LiftCounter): int {
    match c
    case AllRuns => 1
    case Inconclusive => Indicator(LeftOpen(base))
    case ResolvedRight => Indicator(LeftOpen(base) && Resolution(r) != "" && RightAnswer(r, Resolution(r)))
    case ResolvedWrong => Indicator(LeftOpen(base) && Resolution(r) != "" && !RightAnswer(r, Resolution(r)))
    case LiftForbidden => |r.outcome.forbidden|
    case LiftHits(rate) => Indicator(LiftEligible(r, base, rate) && LiftHit(r, base, rate))
    case LiftTrials(rate) => Indicator(LiftEligible(r, base, rate))
  }

  lemma OwnCounts(t: LiftTally, r: Result, c: LiftCounter)
    ensures LiftReading(AddOwn(t, r), c) == LiftReading(t, c) + LiftAmount(r, None, c)
  {
    assert SafeRoot(r, r.outcome.root) == GradeResult(r).safePass;
  }

  /** One more run moves every counter by exactly its amount. */
  lemma LiftCounts(t: LiftTally, r: Result, base: Option<Result>, c: LiftCounter)
    ensures LiftReading(AddLift(t, r, base), c) == LiftReading(t, c) + LiftAmount(r, base, c)
  {
    OwnCounts(t, r, c);
    if base.Some? {
      BaseCounts(AddOwn(t, r), r, base.value, c);
    }
  }

  lemma BaseCounts(t: LiftTally, r: Result, base: Result, c: LiftCounter)
    ensures LiftReading(AddBase(t, r, base), c)
      == LiftReading(t, c) + LiftAmount(r, Some(base), c) - LiftAmount(r, None, c)
  {
    assert SafeRoot(base, base.outcome.root) == GradeResult(base).safePass;
  }

  // ----- one arm's runs

  predicate Counted(r: Result, arm: Arm) {
    r.arm == arm && r.scenario.split == HeldOut && Scored(r)
  }

  /** The graph's last scored held-out run of a scenario and repeat. */
  function Baseline(rs: seq<Result>, k: RunKey): Option<Result> {
    if rs == [] then None
    else
      var r := rs[|rs| - 1];
      if Counted(r, CausalGraph) && KeyOf(r) == k then Some(r) else Baseline(rs[..|rs| - 1], k)
  }

  function LiftCopies(r: Result, k: CellKey): nat {
    if Counted(r, k.arm) then Copies(r, k) else 0
  }

  function AddLiftOver(t: LiftTally, r: Result, base: Option<Result>, n: nat): LiftTally {
    if n == 0 then t else AddLift(AddLiftOver(t, r, base, n - 1), r, base)
  }

  function LiftOf(rs: seq<Result>, all: seq<Result>, k: CellKey): LiftTally {
    if rs == [] then NoLift
    else
      var r := rs[|rs| - 1];
      AddLiftOver(LiftOf(rs[..|rs| - 1], all, k), r, Baseline(all, KeyOf(r)), LiftCopies(r, k))
  }

  function LiftShare(all: seq<Result>, k: CellKey, c: LiftCounter): Result -> int {
    (r: Result) => LiftCopies(r, k) * LiftAmount(r, Baseline(all, KeyOf(r)), c)
  }

  lemma {:induction false} LiftCopiesCount(t: LiftTally, r: Result, base: Option<Result>, n: nat, c: LiftCounter)
    ensures LiftReading(AddLiftOver(t, r, base, n), c) == LiftReading(t, c) + n * LiftAmount(r, base, c)
  {
    if n > 0 {
      LiftCopiesCount(t, r, base, n - 1, c);
      OneMoreLift(t, AddLiftOver(t, r, base, n - 1), r, base, n, c);
    }
  }

  lemma OneMoreLift(t: LiftTally, before: LiftTally, r: Result, base: Option<Result>, n: nat, c: LiftCounter)
    requires n > 0 && LiftReading(before, c) == LiftReading(t, c) + (n - 1) * LiftAmount(r, base, c)
    ensures LiftReading(AddLift(before, r, base), c) == LiftReading(t, c) + n * LiftAmount(r, base, c)
  {
    LiftCounts(before, r, base, c);
    Distribute(n, LiftAmount(r, base, c));
  }

  lemma {:induction false} LiftIsSum(rs: seq<Result>, all: seq<Result>, k: CellKey, c: LiftCounter)
    ensures LiftReading(LiftOf(rs, all, k), c) == SumBy(rs, LiftShare(all, k, c))
  {
    if rs != [] {
      var n := |rs| - 1;
      LiftIsSum(rs[..n], all, k, c);
      LiftCopiesCount(LiftOf(rs[..n], all, k), rs[n], Baseline(all, KeyOf(rs[n])), LiftCopies(rs[n], k), c);
    }
  }

  /** A record counts the arm's scored held-out runs: once for their own family and once for all of
      them. */
  function LiftWeight(r: Result, arm: Arm, family: string): int {
    if r.arm != arm || r.scenario.split != HeldOut || r.skipped != "" || r.err != NoFault then 0
    else (if r.scenario.family == family then 1 else 0) + (if family == "all" then 1 else 0)
  }

  function LiftWeighted(all: seq<Result>, arm: Arm, family: string, c: LiftCounter): Result -> int {
    (r: Result) => LiftWeight(r, arm, family) * LiftAmount(r, Baseline(all, KeyOf(r)), c)
  }

  /** Every counter of a record is its amount summed over exactly those runs. */
  lemma LiftTotals(rs: seq<Result>, all: seq<Result>, arm: Arm, family: string, c: LiftCounter)
    ensures LiftReading(LiftOf(rs, all, CellKey(arm, family)), c) == SumBy(rs, LiftWeighted(all, arm, family, c))
  {
    var k := CellKey(arm, family);
    LiftIsSum(rs, all, k, c);
    forall i | 0 <= i < |rs|
      ensures LiftShare(all, k, c)(rs[i]) == LiftWeighted(all, arm, family, c)(rs[i])
    {
      assert LiftCopies(rs[i], k) == LiftWeight(rs[i], arm, family);
    }
    SumEqual(rs, LiftShare(all, k, c), LiftWeighted(all, arm, family, c));
  }

  /** The graph's scored held-out runs of a scenario and repeat. */
  predicate IsBaseline(r: Result, k: RunKey) {
    && r.arm == CausalGraph && r.scenario.split == HeldOut && r.skipped == "" && r.err == NoFault
    && r.scenario.id == k.scenario && r.repeat == k.repeat
  }

  /** The last of them is what a run is compared with. */
  lemma {:induction false} BaselineIsLast(rs: seq<Result>, k: RunKey)
    ensures Baseline(rs, k).None? ==> forall i :: 0 <= i < |rs| ==> !IsBaseline(rs[i], k)
    ensures Baseline(rs, k).Some? ==>
      exists i :: 0 <= i < |rs| && IsBaseline(rs[i], k) && Baseline(rs, k) == Some(rs[i])
        && forall j :: i < j < |rs| ==> !IsBaseline(rs[j], k)
  {
    if rs != [] {
      var n := |rs| - 1;
      BaselineIsLast(rs[..n], k);
      if !IsBaseline(rs[n], k) && Baseline(rs, k).Some? {
        var i :| 0 <= i < n && IsBaseline(rs[..n][i], k) && Baseline(rs, k) == Some(rs[..n][i])
          && forall j :: i < j < n ==> !IsBaseline(rs[..n][j], k);
        assert rs[i] == rs[..n][i] && forall j :: 0 <= j < n ==> rs[j] == rs[..n][j];
      }
    }
  }

  // ----- accounting

  /** A counter that is at most another on every run is on every record. */
  lemma LiftAtMost(rs: seq<Result>, all: seq<Result>, k: CellKey, a: LiftCounter, b: LiftCounter)
    requires forall r, base :: LiftAmount(r, base, a) <= LiftAmount(r, base, b)
    ensures LiftReading(LiftOf(rs, all, k), a) <= LiftReading(LiftOf(rs, all, k), b)
  {
    LiftIsSum(rs, all, k, a);
    LiftIsSum(rs, all, k, b);
    forall i | 0 <= i < |rs|
      ensures LiftShare(all, k, a)(rs[i]) <= LiftShare(all, k, b)(rs[i])
    {
      var base := Baseline(all, KeyOf(rs[i]));
      Scale(LiftCopies(rs[i], k), LiftAmount(rs[i], base, a), LiftAmount(rs[i], base, b));
    }
    SumAtMost(rs, LiftShare(all, k, a), LiftShare(all, k, b));
  }

  lemma Scale(n: nat, x: int, y: int)
    requires x <= y
    ensures n * x <= n * y
  {
  }

  lemma {:induction false} ResolvedWithinOpen(rs: seq<Result>, all: seq<Result>, k: CellKey)
    ensures 0 <= SumBy(rs, LiftShare(all, k, ResolvedRight)) && 0 <= SumBy(rs, LiftShare(all, k, ResolvedWrong))
    ensures SumBy(rs, LiftShare(all, k, ResolvedRight)) + SumBy(rs, LiftShare(all, k, ResolvedWrong))
      <= SumBy(rs, LiftShare(all, k, Inconclusive))
  {
    if rs != [] {
      ResolvedWithinOpen(rs[..|rs| - 1], all, k);
      ResolvedOne(rs[|rs| - 1], Baseline(all, KeyOf(rs[|rs| - 1])), LiftCopies(rs[|rs| - 1], k));
    }
  }

  lemma ResolvedOne(r: Result, base: Option<Result>, n: nat)
    ensures 0 <= n * LiftAmount(r, base, ResolvedRight) && 0 <= n * LiftAmount(r, base, ResolvedWrong)
    ensures n * LiftAmount(r, base, ResolvedRight) + n * LiftAmount(r, base, ResolvedWrong)
      <= n * LiftAmount(r, base, Inconclusive)
  {
    var x, y := LiftAmount(r, base, ResolvedRight), LiftAmount(r, base, ResolvedWrong);
    Scale(n, x + y, LiftAmount(r, base, Inconclusive));
    assert n * (x + y) == n * x + n * y;
  }

  /** Resolved cases are inconclusive ones, those are among the runs paired with a graph run, and
      those are among the runs. */
  lemma LiftBounds(rs: seq<Result>, all: seq<Result>, k: CellKey)
    ensures var t := LiftOf(rs, all, k);
      && 0 <= t.right && 0 <= t.wrong && t.right + t.wrong <= t.inconclusive <= t.baseSafe.n <= t.runs
      && t.baseTop1.n <= t.baseSafe.n
  {
    ResolvedWithinOpen(rs, all, k);
    LiftIsSum(rs, all, k, ResolvedRight);
    LiftIsSum(rs, all, k, ResolvedWrong);
    LiftIsSum(rs, all, k, Inconclusive);
    LiftAtMost(rs, all, k, Inconclusive, LiftTrials(BaseSafe));
    LiftAtMost(rs, all, k, LiftTrials(BaseSafe), AllRuns);
    LiftAtMost(rs, all, k, LiftTrials(BaseRightRoot), LiftTrials(BaseSafe));
  }

  lemma {:induction false} AdoptedNear(rs: seq<Result>, all: seq<Result>, k: CellKey)
    ensures var d := SumBy(rs, LiftShare(all, k, LiftHits(Adopted))) - SumBy(rs, LiftShare(all, k, LiftHits(Safe)));
      -SumBy(rs, LiftShare(all, k, LiftTrials(Overriding))) <= d <= SumBy(rs, LiftShare(all, k, LiftTrials(Overriding)))
  {
    if rs != [] {
      AdoptedNear(rs[..|rs| - 1], all, k);
      AdoptedOne(rs[|rs| - 1], Baseline(all, KeyOf(rs[|rs| - 1])), LiftCopies(rs[|rs| - 1], k));
    }
  }

  lemma AdoptedOne(r: Result, base: Option<Result>, n: nat)
    ensures var d := n * LiftAmount(r, base, LiftHits(Adopted)) - n * LiftAmount(r, base, LiftHits(Safe));
      -(n * LiftAmount(r, base, LiftTrials(Overriding))) <= d <= n * LiftAmount(r, base, LiftTrials(Overriding))
  {
    var a, s := LiftAmount(r, base, LiftHits(Adopted)), LiftAmount(r, base, LiftHits(Safe));
    var v := LiftAmount(r, base, LiftTrials(Overriding));
    assert a <= s + v && s <= a + v;
    Scale(n, a, s + v);
    Scale(n, s, a + v);
    assert n * (s + v) == n * s + n * v && n * (a + v) == n * a + n * v;
  }

  /** Adopting every override changes at most that many Safe Passes, over the same runs; with no
      override it changes nothing. */
  lemma AdoptedBound(rs: seq<Result>, all: seq<Result>, k: CellKey)
    ensures var t := LiftOf(rs, all, k);
      && t.adopted.n == t.safe.n == t.runs
      && -t.overrides.n <= t.adopted.k - t.safe.k <= t.overrides.n
      && (t.overrides.n == 0 ==> t.adopted == t.safe)
      && t.overrides.k <= t.overrides.n <= t.runs
  {
    LiftAtMost(rs, all, k, LiftTrials(Adopted), AllRuns);
    LiftAtMost(rs, all, k, AllRuns, LiftTrials(Adopted));
    LiftAtMost(rs, all, k, LiftTrials(Safe), AllRuns);
    LiftAtMost(rs, all, k, AllRuns, LiftTrials(Safe));
    LiftAtMost(rs, all, k, LiftHits(Overriding), LiftTrials(Overriding));
    LiftAtMost(rs, all, k, LiftTrials(Overriding), AllRuns);
    LiftIsSum(rs, all, k, LiftHits(Adopted));
    LiftIsSum(rs, all, k, LiftHits(Safe));
    LiftIsSum(rs, all, k, LiftTrials(Overriding));
    AdoptedNear(rs, all, k);
  }

  // ----- the pooled record

  function LiftOver(rs: seq<Result>, all: seq<Result>, arm: Arm, families: seq<string>, c: LiftCounter): int {
    if families == [] then 0
    else
      LiftOver(rs, all, arm, families[..|families| - 1], c)
      + LiftReading(LiftOf(rs, all, CellKey(arm, families[|families| - 1])), c)
  }

  function LiftWithin(all: seq<Result>, arm: Arm, families: seq<string>, c: LiftCounter): Result -> int {
    (r: Result) =>
      if Counted(r, arm) && r.scenario.family in families then LiftAmount(r, Baseline(all, KeyOf(r)), c) else 0
  }

  lemma {:induction false} LiftFamiliesCover(
    rs: seq<Result>, all: seq<Result>, arm: Arm, families: seq<string>, c: LiftCounter)
    requires Distinct(families) && PooledFamily !in families
    ensures LiftOver(rs, all, arm, families, c) == SumBy(rs, LiftWithin(all, arm, families, c))
  {
    if families == [] {
      SumZero(rs, LiftWithin(all, arm, families, c));
    } else {
      var n := |families| - 1;
      LiftFamiliesCover(rs, all, arm, families[..n], c);
      LiftIsSum(rs, all, CellKey(arm, families[n]), c);
      OneMoreLiftFamily(rs, all, arm, families, c);
    }
  }

  lemma {:induction false} OneMoreLiftFamily(
    rs: seq<Result>, all: seq<Result>, arm: Arm, families: seq<string>, c: LiftCounter)
    requires families != [] && Distinct(families) && PooledFamily !in families
    ensures var n := |families| - 1;
      SumBy(rs, LiftWithin(all, arm, families, c))
      == SumBy(rs, LiftWithin(all, arm, families[..n], c)) + SumBy(rs, LiftShare(all, CellKey(arm, families[n]), c))
  {
    if rs != [] {
      OneMoreLiftFamily(rs[..|rs| - 1], all, arm, families, c);
      OneMoreLiftShare(rs[|rs| - 1], all, arm, families, c);
    }
  }

  lemma OneMoreLiftShare(r: Result, all: seq<Result>, arm: Arm, families: seq<string>, c: LiftCounter)
    requires families != [] && Distinct(families) && PooledFamily !in families
    ensures var n := |families| - 1;
      LiftWithin(all, arm, families, c)(r)
      == LiftWithin(all, arm, families[..n], c)(r) + LiftShare(all, CellKey(arm, families[n]), c)(r)
  {
    var n := |families| - 1;
    LastFamily(families);
    assert Copies(r, CellKey(arm, families[n])) == if r.arm == arm && r.scenario.family == families[n] then 1 else 0;
  }

  /** Without a family that has the pooled family's name, the pooled record is the sum of the family
      records, counter by counter. */
  lemma {:induction false} PooledLiftIsSum(rs: seq<Result>, all: seq<Result>, arm: Arm, families: seq<string>, c: LiftCounter)
    requires Distinct(families) && PooledFamily !in families
    requires forall i :: 0 <= i < |rs| && Counted(rs[i], arm) ==> rs[i].scenario.family in families
    ensures LiftReading(LiftOf(rs, all, CellKey(arm, PooledFamily)), c) == LiftOver(rs, all, arm, families, c)
  {
    LiftFamiliesCover(rs, all, arm, families, c);
    LiftIsSum(rs, all, CellKey(arm, PooledFamily), c);
    SumEqual(rs, LiftShare(all, CellKey(arm, PooledFamily), c), LiftWithin(all, arm, families, c));
  }
}
