/** Every arm's tally per family and pooled. */
module Summary {
  import opened Names
  import opened Sums
  import opened Bench
  import opened Tally

  const PooledFamily := "all"

  datatype CellKey = CellKey(arm: Arm, family: string)

  /** Families are sorted, the pooled family last. */
  datatype Summary = Summary(arms: seq<Arm>, families: seq<string>, tallies: map<CellKey, Tally>)

  /** Reading a cell that holds no runs gives the empty tally. */
  function Cell(s: Summary, arm: Arm, family: string): Tally {
    Lookup(s.tallies, CellKey(arm, family))
  }

  function Lookup(m: map<CellKey, Tally>, k: CellKey): Tally {
    if k in m then m[k] else Empty
  }

  /** How often Summarize adds a run to a cell: for its family, and again for the pooled one. */
  function Copies(r: Result, k: CellKey): nat {
    (if r.arm == k.arm && r.scenario.family == k.family then 1 else 0)
    + if r.arm == k.arm && k.family == PooledFamily then 1 else 0
  }

  function AddTimesOver(t: Tally, r: Result, n: nat): Tally {
    if n == 0 then t else Add(AddTimesOver(t, r, n - 1), r)
  }

  /** The cell the runs leave, before consistency. */
  function CellOf(rs: seq<Result>, k: CellKey): Tally {
    if rs == [] then Empty
    else AddTimesOver(CellOf(rs[..|rs| - 1], k), rs[|rs| - 1], Copies(rs[|rs| - 1], k))
  }

  /** What a run adds to a counter of a cell. */
  function Share(k: CellKey, c: Counter): Result -> int {
    (r: Result) => Copies(r, k) * Amount(r, c)
  }

  lemma {:induction false} CopiesCount(t: Tally, r: Result, n: nat, c: Counter)
    ensures Reading(AddTimesOver(t, r, n), c) == Reading(t, c) + n * Amount(r, c)
  {
    if n > 0 {
      CopiesCount(t, r, n - 1, c);
      OneMore(t, AddTimesOver(t, r, n - 1), r, n, c);
    }
  }

  lemma OneMore(t: Tally, before: Tally, r: Result, n: nat, c: Counter)
    requires n > 0 && Reading(before, c) == Reading(t, c) + (n - 1) * Amount(r, c)
    ensures Reading(Add(before, r), c) == Reading(t, c) + n * Amount(r, c)
  {
    AddCounts(before, r, c);
    Distribute(n, Amount(r, c));
  }

  lemma Distribute(n: int, a: int)
    ensures (n - 1) * a + a == n * a
  {
  }

  /** Every counter of a cell is the sum of its runs' amounts. */
  lemma {:induction false} CellCounts(rs: seq<Result>, k: CellKey, c: Counter)
    ensures Reading(CellOf(rs, k), c) == SumBy(rs, Share(k, c))
  {
    if rs != [] {
      var n := |rs| - 1;
      CellCounts(rs[..n], k, c);
      CopiesCount(CellOf(rs[..n], k), rs[n], Copies(rs[n], k), c);
    }
  }

  // ----- the pooled cell and the family cells

  predicate HasFamily(rs: seq<Result>, arm: Arm, family: string) {
    exists i :: 0 <= i < |rs| && rs[i].arm == arm && rs[i].scenario.family == family
  }

  /** The counter summed over the cells of the listed families. */
  function OverFamilies(rs: seq<Result>, arm: Arm, families: seq<string>, c: Counter): int {
    if families == [] then 0
    else
      OverFamilies(rs, arm, families[..|families| - 1], c)
      + Reading(CellOf(rs, CellKey(arm, families[|families| - 1])), c)
  }

  /** The part of a run that falls in one of the listed families. */
  function InFamilies(arm: Arm, families: seq<string>, c: Counter): Result -> int {
    (r: Result) => if r.arm == arm && r.scenario.family in families then Amount(r, c) else 0
  }

  lemma {:induction false} FamiliesCover(rs: seq<Result>, arm: Arm, families: seq<string>, c: Counter)
    requires Distinct(families) && PooledFamily !in families
    ensures OverFamilies(rs, arm, families, c) == SumBy(rs, InFamilies(arm, families, c))
  {
    if families == [] {
      SumZero(rs, InFamilies(arm, families, c));
    } else {
      var n := |families| - 1;
      FamiliesCover(rs, arm, families[..n], c);
      CellCounts(rs, CellKey(arm, families[n]), c);
      OneMoreFamily(rs, arm, families, c);
    }
  }

  lemma {:induction false} OneMoreFamily(rs: seq<Result>, arm: Arm, families: seq<string>, c: Counter)
    requires families != [] && Distinct(families) && PooledFamily !in families
    ensures var n := |families| - 1;
      SumBy(rs, InFamilies(arm, families, c))
      == SumBy(rs, InFamilies(arm, families[..n], c)) + SumBy(rs, Share(CellKey(arm, families[n]), c))
  {
    if rs != [] {
      OneMoreFamily(rs[..|rs| - 1], arm, families, c);
      OneMoreShare(rs[|rs| - 1], arm, families, c);
    }
  }

  lemma OneMoreShare(r: Result, arm: Arm, families: seq<string>, c: Counter)
    requires families != [] && Distinct(families) && PooledFamily !in families
    ensures var n := |families| - 1;
      InFamilies(arm, families, c)(r)
      == InFamilies(arm, families[..n], c)(r) + Share(CellKey(arm, families[n]), c)(r)
  {
    var n := |families| - 1;
    LastFamily(families);
    assert Copies(r, CellKey(arm, families[n])) == if r.arm == arm && r.scenario.family == families[n] then 1 else 0;
  }

  lemma LastFamily(families: seq<string>)
    requires families != [] && Distinct(families)
    ensures var n := |families| - 1;
      && families[n] in families && families[n] !in families[..n]
      && forall f :: f in families <==> f in families[..n] || f == families[n]
  {
    assert families == families[..|families| - 1] + [families[|families| - 1]];
  }

  /** Without a family that has the pooled family's name, the pooled cell is the sum of the family
      cells, counter by counter; durations count as multisets. */
  lemma {:induction false} PooledIsSum(rs: seq<Result>, arm: Arm, families: seq<string>, c: Counter)
    requires Distinct(families) && PooledFamily !in families
    requires forall i :: 0 <= i < |rs| ==> rs[i].scenario.family in families
    ensures Reading(CellOf(rs, CellKey(arm, PooledFamily)), c) == OverFamilies(rs, arm, families, c)
  {
    FamiliesCover(rs, arm, families, c);
    CellCounts(rs, CellKey(arm, PooledFamily), c);
    forall i | 0 <= i < |rs|
      ensures Share(CellKey(arm, PooledFamily), c)(rs[i]) == InFamilies(arm, families, c)(rs[i])
    {
      PooledShare(rs[i], arm, families, c);
    }
    SumEqual(rs, Share(CellKey(arm, PooledFamily), c), InFamilies(arm, families, c));
  }

  lemma PooledShare(r: Result, arm: Arm, families: seq<string>, c: Counter)
    requires PooledFamily !in families && r.scenario.family in families
    ensures Share(CellKey(arm, PooledFamily), c)(r) == InFamilies(arm, families, c)(r)
  {
    assert Copies(r, CellKey(arm, PooledFamily)) == if r.arm == arm then 1 else 0;
  }

  function OfArm(arm: Arm): Result -> int {
    (r: Result) => Indicator(r.arm == arm)
  }

  function NamedAll(arm: Arm): Result -> int {
    (r: Result) => Indicator(r.arm == arm && r.scenario.family == PooledFamily)
  }

  function Seen(t: Tally): int {
    t.runs + t.errored + t.skipped
  }

  lemma {:induction false} PooledSees(rs: seq<Result>, arm: Arm)
    ensures Seen(CellOf(rs, CellKey(arm, PooledFamily))) == SumBy(rs, OfArm(arm)) + SumBy(rs, NamedAll(arm))
  {
    var k := CellKey(arm, PooledFamily);
    CellCounts(rs, k, Runs);
    CellCounts(rs, k, Errored);
    CellCounts(rs, k, Skipped);
    SeenSplit(rs, arm);
  }

  lemma {:induction false} SeenSplit(rs: seq<Result>, arm: Arm)
    ensures var k := CellKey(arm, PooledFamily);
      SumBy(rs, Share(k, Runs)) + SumBy(rs, Share(k, Errored)) + SumBy(rs, Share(k, Skipped))
      == SumBy(rs, OfArm(arm)) + SumBy(rs, NamedAll(arm))
  {
    if rs != [] {
      SeenSplit(rs[..|rs| - 1], arm);
      var r := rs[|rs| - 1];
      assert Amount(r, Runs) + Amount(r, Errored) + Amount(r, Skipped) == 1;
    }
  }

  lemma {:induction false} NamedAllPositive(rs: seq<Result>, arm: Arm)
    ensures SumBy(rs, NamedAll(arm)) >= 0
    ensures SumBy(rs, NamedAll(arm)) == 0 <==> !HasFamily(rs, arm, PooledFamily)
  {
    if rs != [] {
      var n := |rs| - 1;
      NamedAllPositive(rs[..n], arm);
      if HasFamily(rs, arm, PooledFamily) {
        var i :| 0 <= i < |rs| && rs[i].arm == arm && rs[i].scenario.family == PooledFamily;
        if i < n {
          assert rs[..n][i] == rs[i];
        }
      }
    }
  }

  /** The pooled cell sees each of an arm's runs once exactly when no family of the arm has the
      pooled family's name; such a family's runs are seen twice. */
  lemma PooledSeesOnce(rs: seq<Result>, arm: Arm)
    ensures Seen(CellOf(rs, CellKey(arm, PooledFamily))) == SumBy(rs, OfArm(arm))
      <==> !HasFamily(rs, arm, PooledFamily)
  {
    PooledSees(rs, arm);
    NamedAllPositive(rs, arm);
  }

  // ----- identities between the rates of a cell

  lemma {:induction false} LinearShares(rs: seq<Result>, k: CellKey, a: Counter, b: Counter, c: Counter)
    requires forall r :: Amount(r, a) + Amount(r, b) == Amount(r, c)
    ensures SumBy(rs, Share(k, a)) + SumBy(rs, Share(k, b)) == SumBy(rs, Share(k, c))
  {
    if rs != [] {
      LinearShares(rs[..|rs| - 1], k, a, b, c);
      var r := rs[|rs| - 1];
      Scaled(Copies(r, k), Amount(r, a), Amount(r, b), Amount(r, c));
    }
  }

  lemma Scaled(n: int, x: int, y: int, z: int)
    requires x + y == z
    ensures n * x + n * y == n * z
  {
  }

  /** If one counter is the sum of two others on every run, it is on every cell. */
  lemma CellIdentity(rs: seq<Result>, k: CellKey, a: Counter, b: Counter, c: Counter)
    requires forall r :: Amount(r, a) + Amount(r, b) == Amount(r, c)
    ensures var t := CellOf(rs, k);
      Reading(t, a) + Reading(t, b) == Reading(t, c)
  {
    CellCounts(rs, k, a);
    CellCounts(rs, k, b);
    CellCounts(rs, k, c);
    LinearShares(rs, k, a, b, c);
  }

  /** Committed runs are the runs that did not abstain, the correct ones are the top-1 hits, and
      every scored run has either sufficient or insufficient evidence. */
  lemma RateIdentities(rs: seq<Result>, k: CellKey)
    ensures var t := CellOf(rs, k);
      && t.rates.selective.k == t.rates.top1.k
      && t.rates.selective.n == t.runs - t.rates.abstention.k
      && t.rates.top1.n + t.rates.insufficientAbstention.n == t.runs
      && t.rates.safePass.n == t.rates.abstention.n == t.runs
      && t.rates.top3.n == t.rates.top1.n
      && t.rates.decoyCorrect.n == t.rates.decoyFalse.n
  {
    EvidenceIdentities(rs, k);
    Denominators(rs, k);
    SameCounter(rs, k, Hits(Selective), Hits(Top1));
  }

  lemma EvidenceIdentities(rs: seq<Result>, k: CellKey)
    ensures var t := CellOf(rs, k);
      t.rates.selective.n + t.rates.abstention.k == t.runs && t.rates.top1.n + t.rates.insufficientAbstention.n == t.runs
  {
    CellIdentity(rs, k, Trials(Selective), Hits(Abstention), Runs);
    CellIdentity(rs, k, Trials(Top1), Trials(InsufficientAbstention), Runs);
  }

  lemma Denominators(rs: seq<Result>, k: CellKey)
    ensures var t := CellOf(rs, k);
      && t.rates.safePass.n == t.rates.abstention.n == t.runs
      && t.rates.top3.n == t.rates.top1.n && t.rates.decoyCorrect.n == t.rates.decoyFalse.n
  {
    RunDenominators(rs, k);
    SameCounter(rs, k, Trials(Top3), Trials(Top1));
    SameCounter(rs, k, Trials(DecoyCorrect), Trials(DecoyFalse));
  }

  lemma RunDenominators(rs: seq<Result>, k: CellKey)
    ensures var t := CellOf(rs, k);
      t.rates.safePass.n == t.runs && t.rates.abstention.n == t.runs
  {
    SameCounter(rs, k, Trials(SafePass), Runs);
    SameCounter(rs, k, Trials(Abstention), Runs);
  }

  lemma SameCounter(rs: seq<Result>, k: CellKey, a: Counter, b: Counter)
    requires forall r :: Amount(r, a) == Amount(r, b)
    ensures Reading(CellOf(rs, k), a) == Reading(CellOf(rs, k), b)
  {
    CellCounts(rs, k, a);
    CellCounts(rs, k, b);
    SumEqual(rs, Share(k, a), Share(k, b));
  }

  /** What a run can lose of its Safe Pass to forbidden actions. */
  function Spoiled(k: CellKey): Result -> int {
    (r: Result) =>
      Copies(r, k) * Indicator(Scored(r) && r.outcome.forbidden != [] && (r.outcome.root == "" || NamesGold(r)))
  }

  lemma {:induction false} SafeSplit(rs: seq<Result>, k: CellKey)
    ensures SumBy(rs, Share(k, Hits(SafePass))) + SumBy(rs, Spoiled(k))
      == SumBy(rs, Share(k, Hits(Abstention))) + SumBy(rs, Share(k, Hits(Top1)))
  {
    if rs != [] {
      SafeSplit(rs[..|rs| - 1], k);
      SafeSplitOne(rs[|rs| - 1], k);
    }
  }

  lemma SafeSplitOne(r: Result, k: CellKey)
    ensures Share(k, Hits(SafePass))(r) + Spoiled(k)(r) == Share(k, Hits(Abstention))(r) + Share(k, Hits(Top1))(r)
  {
    assert Amount(r, Hits(SafePass))
      + Indicator(Scored(r) && r.outcome.forbidden != [] && (r.outcome.root == "" || NamesGold(r)))
      == Amount(r, Hits(Abstention)) + Amount(r, Hits(Top1));
  }

  /** A Safe Pass is an abstention or a top-1 hit; with no forbidden action the two are the same
      number. */
  lemma SafePassBound(rs: seq<Result>, k: CellKey)
    ensures var t := CellOf(rs, k);
      && t.rates.safePass.k <= t.rates.abstention.k + t.rates.top1.k
      && (t.forbidden == 0 ==> t.rates.safePass.k == t.rates.abstention.k + t.rates.top1.k)
  {
    CellCounts(rs, k, Hits(SafePass));
    CellCounts(rs, k, Hits(Abstention));
    CellCounts(rs, k, Hits(Top1));
    CellCounts(rs, k, ForbiddenActions);
    SafeSplit(rs, k);
    SpoiledBound(rs, k);
  }

  lemma {:induction false} SpoiledBound(rs: seq<Result>, k: CellKey)
    ensures 0 <= SumBy(rs, Spoiled(k)) <= SumBy(rs, Share(k, ForbiddenActions))
  {
    if rs != [] {
      SpoiledBound(rs[..|rs| - 1], k);
      var r := rs[|rs| - 1];
      var spoiled := Indicator(Scored(r) && r.outcome.forbidden != [] && (r.outcome.root == "" || NamesGold(r)));
      assert 0 <= spoiled <= Amount(r, ForbiddenActions);
      assert Copies(r, k) * spoiled <= Copies(r, k) * Amount(r, ForbiddenActions);
    }
  }

  // ----- clean and noise top-1 are counted by class, top-1 by evidence

  predicate CleanOrNoise(r: Result) {
    r.scenario.kind == Positive || r.scenario.kind == Noise
  }

  /** One run is split between clean and noise top-1 as it is counted in top-1 exactly when it is
      not scored, or its class is one of the two just when its evidence suffices. */
  lemma Top1SplitOne(r: Result)
    ensures Amount(r, Trials(CleanTop1)) + Amount(r, Trials(NoiseTop1)) == Amount(r, Trials(Top1))
      <==> (Scored(r) ==> (CleanOrNoise(r) <==> Sufficient(r.scenario.gold)))
  {
  }

  /** Runs of the two classes whose evidence does not suffice, and other runs whose evidence does. */
  function StrayIn(k: CellKey): Result -> int {
    (r: Result) => Copies(r, k) * Indicator(Scored(r) && CleanOrNoise(r) && !Sufficient(r.scenario.gold))
  }

  function StrayOut(k: CellKey): Result -> int {
    (r: Result) => Copies(r, k) * Indicator(Scored(r) && !CleanOrNoise(r) && Sufficient(r.scenario.gold))
  }

  lemma {:induction false} Top1SplitSum(rs: seq<Result>, k: CellKey)
    ensures SumBy(rs, Share(k, Trials(CleanTop1))) + SumBy(rs, Share(k, Trials(NoiseTop1))) + SumBy(rs, StrayOut(k))
      == SumBy(rs, Share(k, Trials(Top1))) + SumBy(rs, StrayIn(k))
  {
    if rs != [] {
      Top1SplitSum(rs[..|rs| - 1], k);
      Top1SplitShare(rs[|rs| - 1], k);
    }
  }

  lemma Top1SplitShare(r: Result, k: CellKey)
    ensures Share(k, Trials(CleanTop1))(r) + Share(k, Trials(NoiseTop1))(r) + StrayOut(k)(r)
      == Share(k, Trials(Top1))(r) + StrayIn(k)(r)
  {
    var n := Copies(r, k);
    var a, b, c := Amount(r, Trials(CleanTop1)), Amount(r, Trials(NoiseTop1)), Amount(r, Trials(Top1));
    var x := Indicator(Scored(r) && !CleanOrNoise(r) && Sufficient(r.scenario.gold));
    var y := Indicator(Scored(r) && CleanOrNoise(r) && !Sufficient(r.scenario.gold));
    assert a + b + x == c + y;
    FourTerms(n, a, b, x, c, y);
  }

  lemma FourTerms(n: int, a: int, b: int, x: int, c: int, y: int)
    requires a + b + x == c + y
    ensures n * a + n * b + n * x == n * c + n * y
  {
    assert n * (a + b + x) == n * a + n * b + n * x;
    assert n * (c + y) == n * c + n * y;
  }

  /** Clean and noise top-1 split top-1 in a cell if and only if the cell has as many insufficient
      clean and noise runs as sufficient runs of other classes: none of either, say. */
  lemma Top1SplitExactly(rs: seq<Result>, k: CellKey)
    ensures var t := CellOf(rs, k).rates;
      t.cleanTop1.n + t.noiseTop1.n == t.top1.n <==> SumBy(rs, StrayIn(k)) == SumBy(rs, StrayOut(k))
  {
    CellCounts(rs, k, Trials(CleanTop1));
    CellCounts(rs, k, Trials(NoiseTop1));
    CellCounts(rs, k, Trials(Top1));
    Top1SplitSum(rs, k);
  }

  /** One adversarial case with a root is in top-1 and in neither part. */
  lemma AdversarialRootIsNoPart(family: string)
    requires family != PooledFamily
    ensures var r := Result(Scenario("x", family, Adversarial, Gold("root", []), NoSplit), CausalGraph, 1,
                            NoOutcome, "", NoFault, 1);
      var t := CellOf([r], CellKey(CausalGraph, family)).rates;
      t.top1.n == 1 && t.cleanTop1.n + t.noiseTop1.n == 0
  {
    var r := Result(Scenario("x", family, Adversarial, Gold("root", []), NoSplit), CausalGraph, 1,
                    NoOutcome, "", NoFault, 1);
    var k := CellKey(CausalGraph, family);
    assert [r][..0] == [];
    assert Copies(r, k) == 1;
    OneRun(r, k, Trials(Top1));
    OneRun(r, k, Trials(CleanTop1));
    OneRun(r, k, Trials(NoiseTop1));
  }

  lemma OneRun(r: Result, k: CellKey, c: Counter)
    ensures Reading(CellOf([r], k), c) == Copies(r, k) * Amount(r, c)
  {
    CellCounts([r], k, c);
    assert [r][..0] == [];
    assert SumBy([r], Share(k, c)) == SumBy([r][..0], Share(k, c)) + Share(k, c)(r);
  }
}
