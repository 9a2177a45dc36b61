/** How the pooled consistency relates to the families'. */
module Consistency {
  import opened Names
  import opened Bench
  import opened Tally
  import opened Summary
  import opened Summarize

  /** A scenario's id determines its family, and no family has the pooled family's name. */
  ghost predicate IdsNameFamilies(rs: seq<Result>, familyOf: string -> string) {
    forall i :: 0 <= i < |rs| ==>
      familyOf(rs[i].scenario.id) == rs[i].scenario.family && rs[i].scenario.family != PooledFamily
  }

  lemma {:induction false} PooledRoots(rs: seq<Result>, familyOf: string -> string, arm: Arm, id: string, family: string)
    requires IdsNameFamilies(rs, familyOf) && family != PooledFamily
    ensures RootsOf(rs, GroupKey(arm, family, id)) ==
      if family == familyOf(id) then RootsOf(rs, GroupKey(arm, PooledFamily, id)) else []
  {
    if rs != [] {
      var n := |rs| - 1;
      assert forall i :: 0 <= i < n ==> rs[..n][i] == rs[i];
      PooledRoots(rs[..n], familyOf, arm, id, family);
      PooledRootsFrom(rs[n], familyOf, arm, id, family);
    }
  }

  lemma PooledRootsFrom(r: Result, familyOf: string -> string, arm: Arm, id: string, family: string)
    requires familyOf(r.scenario.id) == r.scenario.family != PooledFamily && family != PooledFamily
    ensures RootsFrom(r, GroupKey(arm, family, id)) ==
      if family == familyOf(id) then RootsFrom(r, GroupKey(arm, PooledFamily, id)) else []
  {
  }

  function RepeatedOver(rs: seq<Result>, arm: Arm, families: seq<string>): int {
    if families == [] then 0
    else
      RepeatedOver(rs, arm, families[..|families| - 1])
      + |Repeated(rs, CellKey(arm, families[|families| - 1]))|
  }

  function AgreeingOver(rs: seq<Result>, arm: Arm, families: seq<string>): int {
    if families == [] then 0
    else
      AgreeingOver(rs, arm, families[..|families| - 1])
      + |Agreeing(rs, CellKey(arm, families[|families| - 1]))|
  }

  /** The ids of a set that belong to the listed families. */
  ghost function Part(ids: set<string>, familyOf: string -> string, families: seq<string>): set<string> {
    set id | id in ids && familyOf(id) in families
  }

  lemma FamilyPart(rs: seq<Result>, familyOf: string -> string, arm: Arm, family: string)
    requires IdsNameFamilies(rs, familyOf) && family != PooledFamily
    ensures Repeated(rs, CellKey(arm, family)) == Part(Repeated(rs, CellKey(arm, PooledFamily)), familyOf, [family])
    ensures Agreeing(rs, CellKey(arm, family)) == Part(Agreeing(rs, CellKey(arm, PooledFamily)), familyOf, [family])
  {
    forall id
      ensures id in Repeated(rs, CellKey(arm, family))
        <==> id in Repeated(rs, CellKey(arm, PooledFamily)) && familyOf(id) == family
      ensures id in Agreeing(rs, CellKey(arm, family))
        <==> id in Agreeing(rs, CellKey(arm, PooledFamily)) && familyOf(id) == family
    {
      PooledRoots(rs, familyOf, arm, id, family);
    }
  }

  lemma PartGrows(ids: set<string>, familyOf: string -> string, families: seq<string>, family: string)
    requires family !in families
    ensures |Part(ids, familyOf, families + [family])| == |Part(ids, familyOf, families)| + |Part(ids, familyOf, [family])|
  {
    assert Part(ids, familyOf, families + [family]) == Part(ids, familyOf, families) + Part(ids, familyOf, [family]);
    assert Part(ids, familyOf, families) !! Part(ids, familyOf, [family]);
  }

  lemma {:induction false} PartsAddUp(rs: seq<Result>, familyOf: string -> string, arm: Arm, families: seq<string>)
    requires IdsNameFamilies(rs, familyOf) && Distinct(families) && PooledFamily !in families
    ensures RepeatedOver(rs, arm, families) == |Part(Repeated(rs, CellKey(arm, PooledFamily)), familyOf, families)|
    ensures AgreeingOver(rs, arm, families) == |Part(Agreeing(rs, CellKey(arm, PooledFamily)), familyOf, families)|
  {
    if families != [] {
      var n := |families| - 1;
      var f := families[n];
      assert families == families[..n] + [f] && f in families;
      PartsAddUp(rs, familyOf, arm, families[..n]);
      FamilyPart(rs, familyOf, arm, f);
      PartGrows(Repeated(rs, CellKey(arm, PooledFamily)), familyOf, families[..n], f);
      PartGrows(Agreeing(rs, CellKey(arm, PooledFamily)), familyOf, families[..n], f);
    } else {
      assert Part(Repeated(rs, CellKey(arm, PooledFamily)), familyOf, families) == {};
      assert Part(Agreeing(rs, CellKey(arm, PooledFamily)), familyOf, families) == {};
    }
  }

  /** When an id determines its family and no family is named like the pooled one, the pooled
      consistency is the sum of the families'. */
  lemma PooledConsistency(rs: seq<Result>, familyOf: string -> string, arm: Arm, families: seq<string>)
    requires IdsNameFamilies(rs, familyOf) && Distinct(families) && PooledFamily !in families
    requires forall i :: 0 <= i < |rs| ==> rs[i].scenario.family in families
    ensures var pooled := FullCell(rs, CellKey(arm, PooledFamily)).consistency;
      pooled == Prop(AgreeingOver(rs, arm, families), RepeatedOver(rs, arm, families))
  {
    PartsAddUp(rs, familyOf, arm, families);
    var all := Repeated(rs, CellKey(arm, PooledFamily));
    forall id | id in all
      ensures familyOf(id) in families
    {
      var i :| 0 <= i < |rs| && rs[i].scenario.id == id;
      assert familyOf(rs[i].scenario.id) == rs[i].scenario.family;
    }
    assert Part(all, familyOf, families) == all;
    assert Part(Agreeing(rs, CellKey(arm, PooledFamily)), familyOf, families) == Agreeing(rs, CellKey(arm, PooledFamily));
  }

  function Run1(id: string, family: string): Result {
    Result(Scenario(id, family, Benign, Gold("", []), NoSplit), CausalGraph, 1, NoOutcome, "", NoFault, 1)
  }

  /** An id that two families share breaks the sum: one run in each is a repeat only when pooled. */
  lemma {:induction false} SharedIdsBreakTheSum(id: string, f: string, g: string)
    requires f != g && f != PooledFamily && g != PooledFamily
    ensures var rs := [Run1(id, f), Run1(id, g)];
      && Repeated(rs, CellKey(CausalGraph, PooledFamily)) == {id}
      && RepeatedOver(rs, CausalGraph, [f, g]) == 0
  {
    var rs := [Run1(id, f), Run1(id, g)];
    TwoRoots1(rs, GroupKey(CausalGraph, PooledFamily, id));
    assert rs[0].scenario.id == id && rs[1].scenario.id == id;
    OnceInFamily(id, f, g, f);
    OnceInFamily(id, f, g, g);
    assert [f, g][..1] == [f] && [f][..0] == [];
    assert RepeatedOver(rs, CausalGraph, [f]) == 0;
  }

  lemma OnceInFamily(id: string, f: string, g: string, family: string)
    requires f != g && family != PooledFamily
    ensures Repeated([Run1(id, f), Run1(id, g)], CellKey(CausalGraph, family)) == {}
  {
    var rs := [Run1(id, f), Run1(id, g)];
    forall x | x in Ids(rs)
      ensures |RootsOf(rs, GroupKey(CausalGraph, family, x))| < 2
    {
      TwoRoots1(rs, GroupKey(CausalGraph, family, x));
    }
  }

  lemma TwoRoots1(rs: seq<Result>, k: GroupKey)
    requires |rs| == 2
    ensures RootsOf(rs, k) == RootsFrom(rs[0], k) + RootsFrom(rs[1], k)
  {
    assert rs[..1] == [rs[0]] && [rs[0]][..0] == [];
    assert RootsOf([rs[0]], k) == RootsOf([], k) + RootsFrom(rs[0], k);
  }

  lemma {:induction false} FamilySeesNoMore(rs: seq<Result>, arm: Arm, family: string, id: string)
    ensures |RootsOf(rs, GroupKey(arm, family, id))| <= |RootsOf(rs, GroupKey(arm, PooledFamily, id))|
  {
    if rs != [] {
      FamilySeesNoMore(rs[..|rs| - 1], arm, family, id);
    }
  }

  /** The scenarios some listed family has repeats of, and those some family's repeats agree on. */
  function RepeatedInSome(rs: seq<Result>, arm: Arm, families: seq<string>): set<string> {
    if families == [] then {}
    else
      RepeatedInSome(rs, arm, families[..|families| - 1]) + Repeated(rs, CellKey(arm, families[|families| - 1]))
  }

  function AgreeingInSome(rs: seq<Result>, arm: Arm, families: seq<string>): set<string> {
    if families == [] then {}
    else
      AgreeingInSome(rs, arm, families[..|families| - 1]) + Agreeing(rs, CellKey(arm, families[|families| - 1]))
  }

  /** How often a family counts a scenario that an earlier family counted already. */
  function RepeatedAgain(rs: seq<Result>, arm: Arm, families: seq<string>): nat {
    if families == [] then 0
    else
      var earlier := families[..|families| - 1];
      RepeatedAgain(rs, arm, earlier)
      + |Repeated(rs, CellKey(arm, families[|families| - 1])) * RepeatedInSome(rs, arm, earlier)|
  }

  function AgreeingAgain(rs: seq<Result>, arm: Arm, families: seq<string>): nat {
    if families == [] then 0
    else
      var earlier := families[..|families| - 1];
      AgreeingAgain(rs, arm, earlier)
      + |Agreeing(rs, CellKey(arm, families[|families| - 1])) * AgreeingInSome(rs, arm, earlier)|
  }

  lemma UnionCard<T>(a: set<T>, b: set<T>)
    ensures |a| + |b| == |a + b| + |a * b|
  {
    assert a + b == a + (b - a);
    assert b == (b - a) + (a * b);
  }

  lemma SplitCard<T>(a: set<T>, b: set<T>)
    ensures |a| == |a * b| + |a - b|
  {
    assert a == a * b + (a - b);
  }

  /** The families' counts are the scenarios counted at all and the times one was counted again. */
  lemma {:induction false} OverIsSomeAndAgain(rs: seq<Result>, arm: Arm, families: seq<string>)
    ensures RepeatedOver(rs, arm, families) == |RepeatedInSome(rs, arm, families)| + RepeatedAgain(rs, arm, families)
    ensures AgreeingOver(rs, arm, families) == |AgreeingInSome(rs, arm, families)| + AgreeingAgain(rs, arm, families)
  {
    if families != [] {
      var n := |families| - 1;
      var k := CellKey(arm, families[n]);
      OverIsSomeAndAgain(rs, arm, families[..n]);
      UnionCard(RepeatedInSome(rs, arm, families[..n]), Repeated(rs, k));
      UnionCard(AgreeingInSome(rs, arm, families[..n]), Agreeing(rs, k));
      assert RepeatedInSome(rs, arm, families[..n]) * Repeated(rs, k) == Repeated(rs, k) * RepeatedInSome(rs, arm, families[..n]);
      assert AgreeingInSome(rs, arm, families[..n]) * Agreeing(rs, k) == Agreeing(rs, k) * AgreeingInSome(rs, arm, families[..n]);
    }
  }

  lemma {:induction false} SomeArePooled(rs: seq<Result>, arm: Arm, families: seq<string>)
    ensures RepeatedInSome(rs, arm, families) <= Repeated(rs, CellKey(arm, PooledFamily))
  {
    if families != [] {
      var n := |families| - 1;
      SomeArePooled(rs, arm, families[..n]);
      forall id | id in Repeated(rs, CellKey(arm, families[n]))
        ensures id in Repeated(rs, CellKey(arm, PooledFamily))
      {
        FamilySeesNoMore(rs, arm, families[n], id);
      }
    }
  }

  /** For any runs and families, the pooled consistency counts as many repeated scenarios as the
      families together if and only if as many scenarios are repeated only across families as are
      counted again by a further family; and as many agreeing ones if and only if the scenarios that
      agree pooled but in no family are as many as those that agree in a family but not pooled and
      those counted again. */
  lemma PooledConsistencyExactly(rs: seq<Result>, arm: Arm, families: seq<string>)
    ensures var pooled, some := Repeated(rs, CellKey(arm, PooledFamily)), RepeatedInSome(rs, arm, families);
      |pooled| == RepeatedOver(rs, arm, families) <==> |pooled - some| == RepeatedAgain(rs, arm, families)
    ensures var pooled, some := Agreeing(rs, CellKey(arm, PooledFamily)), AgreeingInSome(rs, arm, families);
      |pooled| == AgreeingOver(rs, arm, families) <==>
      |pooled - some| == |some - pooled| + AgreeingAgain(rs, arm, families)
  {
    OverIsSomeAndAgain(rs, arm, families);
    SomeArePooled(rs, arm, families);
    var pooled, some := Repeated(rs, CellKey(arm, PooledFamily)), RepeatedInSome(rs, arm, families);
    SplitCard(pooled, some);
    assert pooled * some == some;
    var agreed, part := Agreeing(rs, CellKey(arm, PooledFamily)), AgreeingInSome(rs, arm, families);
    SplitCard(agreed, part);
    SplitCard(part, agreed);
    assert agreed * part == part * agreed;
  }
}
