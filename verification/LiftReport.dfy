/** Building the lift records of every arm with a model. */
module LiftReport {
  import opened Names
  import opened Bench
  import opened Summary
  import opened RootJoin
  import opened Lift

  datatype LiftRecord = LiftRecord(arm: Arm, family: string, tally: LiftTally, inconclusiveLift: int)

  function Held(m: map<RunKey, Result>, k: RunKey): Option<Result> {
    if k in m then Some(m[k]) else None
  }

  function LiftAt(m: map<string, LiftTally>, f: string): LiftTally {
    if f in m then m[f] else NoLift
  }

  predicate Modelled(r: Result, arm: Arm) {
    arm != CausalGraph && Counted(r, arm) && r.outcome.model.Some?
  }

  /** The graph's runs by scenario and repeat, and the arms with a model in the order first seen. */
  method CollectBaseline(rs: seq<Result>) returns (baseline: map<RunKey, Result>, arms: seq<Arm>)
    ensures forall k :: Held(baseline, k) == Baseline(rs, k)
    ensures Distinct(arms) && forall a :: a in arms <==> exists i :: 0 <= i < |rs| && Modelled(rs[i], a)
  {
    baseline, arms := map[], [];
    var seen := {};
    for i := 0 to |rs|
      invariant forall k :: Held(baseline, k) == Baseline(rs[..i], k)
      invariant Distinct(arms) && forall a :: a in arms <==> a in seen
      invariant forall a :: a in seen <==> exists j :: 0 <= j < i && Modelled(rs[j], a)
    {
      var r := rs[i];
      assert rs[..i + 1][..i] == rs[..i];
      if r.scenario.split != HeldOut || !Scored(r) {
        continue;
      }
      if r.arm == CausalGraph {
        baseline := baseline[KeyOf(r) := r];
      } else if r.outcome.model.Some? && r.arm !in seen {
        seen := seen + {r.arm};
        arms := arms + [r.arm];
      }
    }
    assert rs[..|rs|] == rs;
  }

  method AddLiftTo(m: map<string, LiftTally>, f: string, r: Result, base: Option<Result>)
    returns (out: map<string, LiftTally>)
    ensures out == m[f := AddLift(LiftAt(m, f), r, base)]
  {
    out := m[f := AddLift(LiftAt(m, f), r, base)];
  }

  lemma TwoLifts(m: map<string, LiftTally>, r: Result, base: Option<Result>, k: CellKey)
    requires Counted(r, k.arm)
    ensures var once := m[r.scenario.family := AddLift(LiftAt(m, r.scenario.family), r, base)];
      LiftAt(once[PooledFamily := AddLift(LiftAt(once, PooledFamily), r, base)], k.family)
      == AddLiftOver(LiftAt(m, k.family), r, base, LiftCopies(r, k))
  {
    var t := LiftAt(m, k.family);
    assert AddLiftOver(t, r, base, 0) == t;
    assert AddLiftOver(t, r, base, 1) == AddLift(t, r, base);
    assert AddLiftOver(t, r, base, 2) == AddLift(AddLift(t, r, base), r, base);
  }

  lemma LiftStep(m: map<string, LiftTally>, m': map<string, LiftTally>, rs: seq<Result>, i: nat, k: CellKey)
    requires i < |rs| && LiftAt(m, k.family) == LiftOf(rs[..i], rs, k)
    requires LiftAt(m', k.family)
      == AddLiftOver(LiftAt(m, k.family), rs[i], Baseline(rs, KeyOf(rs[i])), LiftCopies(rs[i], k))
    ensures LiftAt(m', k.family) == LiftOf(rs[..i + 1], rs, k)
  {
    assert rs[..i + 1][..i] == rs[..i];
  }

  /** The families an arm's counted runs name, apart from the pooled one. */
  function FamiliesOf(rs: seq<Result>, arm: Arm): set<string> {
    set i | 0 <= i < |rs| && Counted(rs[i], arm) && rs[i].scenario.family != PooledFamily :: rs[i].scenario.family
  }

  method ArmTallies(rs: seq<Result>, arm: Arm, baseline: map<RunKey, Result>)
    returns (tallies: map<string, LiftTally>, families: seq<string>)
    requires forall k :: Held(baseline, k) == Baseline(rs, k)
    ensures forall f :: LiftAt(tallies, f) == LiftOf(rs, rs, CellKey(arm, f))
    ensures Distinct(families) && forall f :: f in families <==> f in FamiliesOf(rs, arm)
  {
    tallies, families := map[PooledFamily := NoLift], [];
    for i := 0 to |rs|
      invariant forall f :: LiftAt(tallies, f) == LiftOf(rs[..i], rs, CellKey(arm, f))
      invariant Distinct(families) && forall f :: f in families <==> f in FamiliesOf(rs[..i], arm)
      invariant PooledFamily in tallies && PooledFamily !in families
      invariant forall f :: f in tallies <==> f in families || f == PooledFamily
    {
      var r := rs[i];
      ghost var before := tallies;
      var counted := r.arm == arm && r.scenario.split == HeldOut && Scored(r);
      FamiliesGrow(rs, i, arm);
      if counted {
        var f := r.scenario.family;
        if f !in tallies {
          families := families + [f];
        }
        var base := Held(baseline, KeyOf(r));
        tallies := AddLiftTo(tallies, f, r, base);
        tallies := AddLiftTo(tallies, PooledFamily, r, base);
      }
      forall f
        ensures LiftAt(tallies, f) == LiftOf(rs[..i + 1], rs, CellKey(arm, f))
      {
        var k := CellKey(arm, f);
        assert LiftAt(before, f) == LiftOf(rs[..i], rs, k);
        if counted {
          assert Held(baseline, KeyOf(r)) == Baseline(rs, KeyOf(r));
          TwoLifts(before, r, Baseline(rs, KeyOf(r)), k);
        }
        LiftStep(before, tallies, rs, i, k);
      }
    }
    assert rs[..|rs|] == rs;
  }

  lemma FamiliesGrow(rs: seq<Result>, i: nat, arm: Arm)
    requires i < |rs|
    ensures var f := rs[i].scenario.family;
      FamiliesOf(rs[..i + 1], arm)
      == FamiliesOf(rs[..i], arm) + if Counted(rs[i], arm) && f != PooledFamily then {f} else {}
  {
    var a, b := rs[..i], rs[..i + 1];
    assert b[i] == rs[i];
    forall f
      ensures f in FamiliesOf(b, arm) <==>
        (f in FamiliesOf(a, arm)
         || (Counted(rs[i], arm) && rs[i].scenario.family != PooledFamily && f == rs[i].scenario.family))
    {
      if f in FamiliesOf(b, arm) {
        var j :| 0 <= j < |b| && Counted(b[j], arm) && b[j].scenario.family != PooledFamily && b[j].scenario.family == f;
        if j < i {
          assert a[j] == b[j];
        }
      }
      if f in FamiliesOf(a, arm) {
        var j :| 0 <= j < |a| && Counted(a[j], arm) && a[j].scenario.family != PooledFamily && a[j].scenario.family == f;
        assert b[j] == a[j];
      }
    }
  }

  function RecordOf(rs: seq<Result>, arm: Arm, f: string): LiftRecord {
    var t := LiftOf(rs, rs, CellKey(arm, f));
    LiftRecord(arm, f, t, t.right - t.wrong)
  }

  method Records(tallies: map<string, LiftTally>, ghost rs: seq<Result>, arm: Arm, families: seq<string>)
    returns (out: seq<LiftRecord>)
    requires forall f :: LiftAt(tallies, f) == LiftOf(rs, rs, CellKey(arm, f))
    ensures |out| == |families| && forall i :: 0 <= i < |out| ==> out[i] == RecordOf(rs, arm, families[i])
  {
    out := [];
    for i := 0 to |families|
      invariant |out| == i
      invariant forall j :: 0 <= j < i ==> out[j] == RecordOf(rs, arm, families[j])
    {
      var t := LiftAt(tallies, families[i]);
      out := out + [LiftRecord(arm, families[i], t, t.right - t.wrong)];
    }
  }

  lemma ListedFamilies(out: seq<LiftRecord>, families: seq<string>, names: set<string>)
    requires |out| == |families| + 1 && forall i :: 0 <= i < |families| ==> out[i].family == families[i]
    requires forall f :: f in families <==> f in names
    ensures names == set i | 0 <= i < |out| - 1 :: out[i].family
  {
    forall f | f in names
      ensures exists i :: 0 <= i < |out| - 1 && out[i].family == f
    {
      var i :| 0 <= i < |families| && families[i] == f;
      assert out[i].family == f;
    }
  }

  /** armLift: the arm's families in order, then the pooled one; each record covers exactly the
      arm's scored held-out runs of its family. */
  method ArmLift(rs: seq<Result>, arm: Arm, baseline: map<RunKey, Result>) returns (out: seq<LiftRecord>)
    requires forall k :: Held(baseline, k) == Baseline(rs, k)
    ensures |out| > 0 && out[|out| - 1] == RecordOf(rs, arm, PooledFamily)
    ensures forall i :: 0 <= i < |out| ==> out[i].arm == arm && out[i] == RecordOf(rs, arm, out[i].family)
    ensures forall i, j :: 0 <= i < j < |out| - 1 ==> AtMost(out[i].family, out[j].family) && out[i].family != out[j].family
    ensures FamiliesOf(rs, arm) == set i | 0 <= i < |out| - 1 :: out[i].family
  {
    var tallies, families := ArmTallies(rs, arm, baseline);
    var sorted := SortBy(families, Self);
    SortedFamilies(families, sorted);
    out := Records(tallies, rs, arm, sorted + [PooledFamily]);
    assert forall j :: 0 <= j < |sorted| ==> out[j].family == sorted[j];
    ListedFamilies(out, sorted, FamiliesOf(rs, arm));
  }

  lemma SortedFamilies(families: seq<string>, sorted: seq<string>)
    requires Distinct(families) && sorted == SortBy(families, Self)
    ensures forall i, j :: 0 <= i < j < |sorted| ==> AtMost(sorted[i], sorted[j]) && sorted[i] != sorted[j]
    ensures forall f :: f in sorted <==> f in families
  {
    SortKeepsDistinct(families, Self);
    forall i, j | 0 <= i < j < |sorted|
      ensures AtMost(sorted[i], sorted[j]) && sorted[i] != sorted[j]
    {
      assert Self(sorted[i]) == sorted[i] && Self(sorted[j]) == sorted[j];
    }
  }

  ghost predicate HasModelled(rs: seq<Result>, arm: Arm) {
    exists i :: 0 <= i < |rs| && Modelled(rs[i], arm)
  }

  /** The list holds the arm's pooled record and one for every family it has counted runs in. */
  ghost predicate AllRecords(rs: seq<Result>, arm: Arm, out: seq<LiftRecord>) {
    RecordOf(rs, arm, PooledFamily) in out && forall f :: f in FamiliesOf(rs, arm) ==> RecordOf(rs, arm, f) in out
  }

  lemma ArmRecords(rs: seq<Result>, arm: Arm, out: seq<LiftRecord>)
    requires |out| > 0 && out[|out| - 1] == RecordOf(rs, arm, PooledFamily)
    requires forall i :: 0 <= i < |out| ==> out[i] == RecordOf(rs, arm, out[i].family)
    requires FamiliesOf(rs, arm) == set i | 0 <= i < |out| - 1 :: out[i].family
    ensures AllRecords(rs, arm, out)
    ensures forall i :: 0 <= i < |out| ==> out[i].family == PooledFamily || out[i].family in FamiliesOf(rs, arm)
  {
    assert out[|out| - 1] in out;
    forall f | f in FamiliesOf(rs, arm)
      ensures RecordOf(rs, arm, f) in out
    {
      var i :| 0 <= i < |out| - 1 && out[i].family == f;
      assert out[i] in out;
    }
  }

  lemma MoreRecords(rs: seq<Result>, arm: Arm, a: seq<LiftRecord>, b: seq<LiftRecord>)
    requires AllRecords(rs, arm, a) || AllRecords(rs, arm, b)
    ensures AllRecords(rs, arm, a + b)
  {
  }

  /** BuildModelLift: every arm with a model and no other, against the graph's runs. */
  method BuildModelLift(rs: seq<Result>) returns (out: seq<LiftRecord>)
    ensures forall i :: 0 <= i < |out| ==>
      && HasModelled(rs, out[i].arm) && out[i] == RecordOf(rs, out[i].arm, out[i].family)
      && out[i].inconclusiveLift == out[i].tally.right - out[i].tally.wrong
      && out[i].tally == LiftOf(rs, rs, CellKey(out[i].arm, out[i].family))
      && (out[i].family == PooledFamily || out[i].family in FamiliesOf(rs, out[i].arm))
    ensures forall a :: HasModelled(rs, a) ==> AllRecords(rs, a, out)
  {
    var baseline, arms := CollectBaseline(rs);
    assert forall a :: a in arms <==> HasModelled(rs, a);
    out := [];
    for n := 0 to |arms|
      invariant forall i :: 0 <= i < |out| ==> out[i] == RecordOf(rs, out[i].arm, out[i].family)
      invariant forall i :: 0 <= i < |out| ==>
        out[i].arm in arms && (out[i].family == PooledFamily || out[i].family in FamiliesOf(rs, out[i].arm))
      invariant forall a :: a in arms[..n] ==> AllRecords(rs, a, out)
    {
      var more := ArmLift(rs, arms[n], baseline);
      ArmRecords(rs, arms[n], more);
      forall a | a in arms[..n]
        ensures AllRecords(rs, a, out + more)
      {
        MoreRecords(rs, a, out, more);
      }
      MoreRecords(rs, arms[n], out, more);
      out := out + more;
      assert arms[..n + 1] == arms[..n] + [arms[n]];
    }
    assert arms[..|arms|] == arms;
  }
}
