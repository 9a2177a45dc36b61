/** The trust policy owner: a global trust change applied to every database, in memory and (in
    meta-db mode) durably, with the global level as a ceiling. */
module TrustPolicy {
  import opened Names

  /** A trust level as written: the three named levels, the empty string, or anything else. */
  datatype Level = Observation | Advisory | Autonomous | Unset | Other(text: string)

  /** One database as the owner sees it. `override` is its executor's level (Unset follows the
      global one); `row` is its durable trust row. */
  datatype Database = Database(
    executor: bool, override: Level, status: Level, configured: Level, ownPolicy: bool, row: Level)

  /** trustRank. */
  function Rank(level: Level): int {
    match level
    case Observation => 0
    case Advisory => 1
    case Autonomous => 2
    case _ => -1
  }

  predicate Named(level: Level) {
    level == Observation || level == Advisory || level == Autonomous
  }

  /** A database at `was` has more trust than a ceiling of `level` allows. */
  predicate MustFall(was: Level, level: Level) {
    match level
    case Observation => was == Advisory || was == Autonomous
    case Advisory => was == Autonomous
    case Autonomous => false
    case _ => Named(was)
  }

  lemma RankIsTrust(was: Level, level: Level)
    ensures Rank(was) > Rank(level) <==> MustFall(was, level)
  {
  }

  /** What a ceiling makes of one level: autonomous falls to advisory, every named level falls to
      observation, and nothing else changes. */
  predicate CeilingHolds(was: Level, now: Level, level: Level) {
    && (level == Observation ==> now == if Named(was) then Observation else was)
    && (level == Advisory ==> now == if was == Autonomous then Advisory else was)
    && (level == Autonomous ==> now == was)
  }

  lemma CeilingIs(was: Level, now: Level, level: Level)
    requires Named(level)
    ensures CeilingHolds(was, now, level) <==> now == if MustFall(was, level) then level else was
  {
  }

  /** currentTrustLevel: an executor's own level or the global one, otherwise the level shown, the
      configured one, or the global one. */
  function CurrentLevel(db: Database, global: Level): (r: Level)
    ensures db.executor && db.override != Unset ==> r == db.override
    ensures db.executor && db.override == Unset ==> r == global
    ensures !db.executor && db.status != Unset ==> r == db.status
    ensures !db.executor && db.status == Unset && db.configured != Unset ==> r == db.configured
    ensures !db.executor && db.status == Unset && db.configured == Unset ==> r == global
  {
    if db.executor then (if db.override != Unset then db.override else global)
    else if db.status != Unset then db.status
    else if db.configured != Unset then db.configured
    else global
  }

  /** applyTrustPolicyLevel: executor and status together. */
  function Apply(db: Database, level: Level): Database {
    db.(override := if db.executor then level else db.override, status := level)
  }

  datatype Target = Target(name: string, oldLevel: Level)

  function TargetName(t: Target): string {
    t.name
  }

  /** Memory and row agree. */
  predicate InStep(db: Database, global: Level) {
    CurrentLevel(db, global) == db.row
  }

  /** Which databases a change is for: in meta-db mode those above the new level, otherwise those
      without a policy of their own. */
  predicate IsTarget(db: Database, global: Level, level: Level, persisted: bool) {
    if persisted then Rank(CurrentLevel(db, global)) > Rank(level) else !db.ownPolicy
  }

  /** The targets are exactly the databases the change is for, each once, with its level then. */
  ghost predicate TargetsOf(
    start: map<string, Database>, global: Level, level: Level, persisted: bool, targets: seq<Target>)
  {
    && SortedBy(targets, TargetName)
    && (forall i, j :: 0 <= i < j < |targets| ==> targets[i].name != targets[j].name)
    && (forall t :: t in targets <==> TargetFor(start, global, level, persisted, t))
  }

  predicate TargetFor(
    start: map<string, Database>, global: Level, level: Level, persisted: bool, t: Target)
  {
    && t.name in start
    && IsTarget(start[t.name], global, level, persisted)
    && t.oldLevel == CurrentLevel(start[t.name], global)
  }

  ghost predicate Listed(targets: seq<Target>, n: string) {
    exists i :: 0 <= i < |targets| && targets[i].name == n
  }

  /** In meta-db mode exactly the databases with more trust than the new level are targets, otherwise
      exactly those without a policy of their own. */
  ghost predicate TargetsByName(
    fleet: map<string, Database>, global: Level, level: Level, persisted: bool, targets: seq<Target>)
  {
    forall n :: n in fleet ==>
      (Listed(targets, n) <==> if persisted then MustFall(CurrentLevel(fleet[n], global), level) else !fleet[n].ownPolicy)
  }

  lemma TargetsAreByName(
    fleet: map<string, Database>, global: Level, level: Level, persisted: bool, targets: seq<Target>)
    requires TargetsOf(fleet, global, level, persisted, targets)
    ensures TargetsByName(fleet, global, level, persisted, targets)
  {
    forall n | n in fleet
      ensures Listed(targets, n) <==> IsTarget(fleet[n], global, level, persisted)
      ensures Rank(CurrentLevel(fleet[n], global)) > Rank(level) <==> MustFall(CurrentLevel(fleet[n], global), level)
    {
      RankIsTrust(CurrentLevel(fleet[n], global), level);
      if Listed(targets, n) {
        var i :| 0 <= i < |targets| && targets[i].name == n;
        assert targets[i] in targets;
      }
      if IsTarget(fleet[n], global, level, persisted) {
        var t := Target(n, CurrentLevel(fleet[n], global));
        assert TargetFor(fleet, global, level, persisted, t) && t in targets;
        var i :| 0 <= i < |targets| && targets[i] == t;
        assert Listed(targets, n);
      }
    }
  }

  /** trustPolicyOwner.Prepare. */
  method FindTargets(fleet: map<string, Database>, global: Level, level: Level, persisted: bool)
    returns (targets: seq<Target>)
    ensures TargetsOf(fleet, global, level, persisted, targets)
    ensures TargetsByName(fleet, global, level, persisted, targets)
  {
    var found: seq<Target> := [];
    var todo := fleet.Keys;
    while todo != {}
      invariant todo <= fleet.Keys
      invariant forall t :: t in found <==>
        t.name !in todo && TargetFor(fleet, global, level, persisted, t)
      invariant forall i, j :: 0 <= i < j < |found| ==> found[i].name != found[j].name
      decreases todo
    {
      var n :| n in todo;
      todo := todo - {n};
      var level' := CurrentLevel(fleet[n], global);
      assert forall i :: 0 <= i < |found| ==> found[i] in found && found[i].name != n;
      if IsTarget(fleet[n], global, level, persisted) {
        found := found + [Target(n, level')];
      }
    }
    SortedTargets(found);
    targets := SortBy(found, TargetName);
    TargetsAreByName(fleet, global, level, persisted, targets);
  }

  /** Every executor's own level, and the global one, are named levels. */
  ghost predicate NamedLevels(fleet: map<string, Database>, global: Level) {
    Named(global) && forall n :: n in fleet && fleet[n].executor ==>
      fleet[n].override == Unset || Named(fleet[n].override)
  }

  /** A level is what it was, or it had more trust than the new level allows and is the new level. */
  predicate StaysOrFalls(was: Level, now: Level, level: Level) {
    now == was || (now == level && MustFall(was, level))
  }

  /** Every database runs, and is recorded, where it started or at the new level below that. */
  ghost predicate NotRaised(
    start: map<string, Database>, now: map<string, Database>, global: Level, level: Level)
  {
    now.Keys == start.Keys && forall n :: n in start ==>
      && StaysOrFalls(CurrentLevel(start[n], global), CurrentLevel(now[n], global), level)
      && StaysOrFalls(start[n].row, now[n].row, level)
  }

  lemma AppliedNotRaised(
    start: map<string, Database>, before: map<string, Database>, global: Level, level: Level, n: string, to: Level)
    requires NotRaised(start, before, global, level) && n in start && to != Unset
    requires StaysOrFalls(CurrentLevel(start[n], global), to, level)
    ensures NotRaised(start, before[n := Apply(before[n], to)], global, level)
  {
  }

  lemma SeenGrows(
    start: map<string, Database>, seen: seq<map<string, Database>>, x: map<string, Database>,
    y: map<string, Database>, global: Level, level: Level, from: nat)
    requires from <= |seen| && forall k :: from <= k < |seen| ==> NotRaised(start, seen[k], global, level)
    requires NotRaised(start, x, global, level) && NotRaised(start, y, global, level)
    ensures forall k :: from <= k < |seen| + 2 ==> NotRaised(start, (seen + [x, y])[k], global, level)
  {
  }

  /** A database in observation stays there, one in advisory unless the new level is observation, and
      everybody does when it is autonomous. */
  ghost predicate LowStay(start: map<string, Database>, now: map<string, Database>, global: Level, level: Level) {
    forall n :: n in start && n in now ==>
      && (CurrentLevel(start[n], global) == Observation ==> CurrentLevel(now[n], global) == Observation)
      && (CurrentLevel(start[n], global) == Advisory && level != Observation ==>
            CurrentLevel(now[n], global) == Advisory)
      && (level == Autonomous ==> CurrentLevel(now[n], global) == CurrentLevel(start[n], global))
  }

  lemma NotRaisedLow(start: map<string, Database>, now: map<string, Database>, global: Level, level: Level)
    requires NotRaised(start, now, global, level) && Named(level)
    ensures now.Keys == start.Keys && LowStay(start, now, global, level)
  {
  }

  class TrustChange {
    var fleet: map<string, Database>
    const global: Level
    const level: Level
    const persisted: bool
    const targets: seq<Target>
    var committed: nat
    ghost const start: map<string, Database>
    /** Every state of the fleet another reader could see, oldest first. */
    ghost var seen: seq<map<string, Database>>

    ghost predicate Valid()
      reads this
    {
      && Named(level)
      && NamedLevels(start, global)
      && (persisted ==> forall n :: n in start ==> InStep(start[n], global))
      && TargetsOf(start, global, level, persisted, targets)
      && committed <= |targets|
      && fleet.Keys == start.Keys
      && (forall n :: n in start ==> fleet[n].executor == start[n].executor)
    }

    /** The databases of `lowered` run at the new level (and are recorded at it in meta-db mode);
        every other database is as it started. */
    ghost predicate Shows(lowered: set<string>)
      reads this
    {
      fleet.Keys == start.Keys && forall n :: n in start ==> Shown(n, n in lowered)
    }

    ghost predicate Shown(n: string, changed: bool)
      reads this
      requires n in start && n in fleet
    {
      && CurrentLevel(fleet[n], global) == (if changed then level else CurrentLevel(start[n], global))
      && fleet[n].row == (if changed && persisted then level else start[n].row)
    }

    ghost function Lowered(k: nat): set<string>
      requires k <= |targets|
    {
      set i | 0 <= i < k :: targets[i].name
    }

    constructor (fleet: map<string, Database>, global: Level, level: Level, persisted: bool,
                 targets: seq<Target>)
      requires Named(level) && NamedLevels(fleet, global)
      requires persisted ==> forall n :: n in fleet ==> InStep(fleet[n], global)
      requires TargetsOf(fleet, global, level, persisted, targets)
      ensures Valid() && start == fleet && committed == 0 && seen == [] && Shows({})
      ensures this.global == global && this.level == level && this.persisted == persisted
      ensures this.targets == targets && this.fleet == fleet
    {
      this.fleet, this.global, this.level := fleet, global, level;
      this.persisted, this.targets, start, committed, seen := persisted, targets, fleet, 0, [];
    }

    /** set: memory first, then the row; a row that cannot be written puts memory back. */
    method Set(n: string, to: Level, back: Level, persistOk: bool) returns (ok: bool)
      requires n in fleet && to != Unset && back != Unset
      modifies this`fleet, this`seen
      ensures fleet.Keys == old(fleet).Keys
      ensures forall m :: m in fleet && m != n ==> fleet[m] == old(fleet)[m]
      ensures fleet[n].executor == old(fleet)[n].executor
      ensures fleet[n].status == if ok then to else back
      ensures fleet[n].executor ==> fleet[n].override == if ok then to else back
      ensures !fleet[n].executor ==> fleet[n].override == old(fleet)[n].override
      ensures fleet[n].configured == old(fleet)[n].configured && fleet[n].ownPolicy == old(fleet)[n].ownPolicy
      ensures ok == (!persisted || persistOk)
      ensures CurrentLevel(fleet[n], global) == if ok then to else back
      ensures fleet[n].row == if ok && persisted then to else old(fleet)[n].row
      ensures seen == old(seen) + [old(fleet)[n := Apply(old(fleet)[n], to)], fleet]
    {
      fleet := fleet[n := Apply(fleet[n], to)];
      seen := seen + [fleet];
      ok := true;
      if persisted {
        if persistOk {
          fleet := fleet[n := fleet[n].(row := to)];
        } else {
          fleet := fleet[n := Apply(fleet[n], back)];
          ok := false;
        }
      }
      seen := seen + [fleet];
    }

    lemma TargetAt(i: nat)
      requires Valid() && i < |targets|
      ensures TargetFor(start, global, level, persisted, targets[i])
      ensures targets[i].oldLevel != Unset
    {
      assert targets[i] in targets;
    }

    /** Shown levels that are all old or lowered ones are never above the start. */
    lemma ShownNotRaised(lowered: set<string>)
      requires Valid() && persisted && Shows(lowered)
      requires forall n :: n in lowered ==> exists i :: 0 <= i < |targets| && targets[i].name == n
      ensures NotRaised(start, fleet, global, level)
      ensures forall n :: n in fleet ==> InStep(fleet[n], global)
    {
      forall n | n in start
        ensures StaysOrFalls(CurrentLevel(start[n], global), CurrentLevel(fleet[n], global), level)
        ensures StaysOrFalls(start[n].row, fleet[n].row, level) && InStep(fleet[n], global)
      {
        assert Shown(n, n in lowered) && InStep(start[n], global);
        if n in lowered {
          var i :| 0 <= i < |targets| && targets[i].name == n;
          TargetAt(i);
          RankIsTrust(targets[i].oldLevel, level);
        }
      }
    }

    ghost predicate SomeTargets(lowered: set<string>)
    {
      forall n :: n in lowered ==> exists i :: 0 <= i < |targets| && targets[i].name == n
    }

    /** In meta-db mode: everybody at its starting level or at the new one below it, now and in any
        state seen from `from` on, and memory and row agree now. */
    ghost predicate UnderCeiling(from: nat)
      reads this
    {
      && from <= |seen|
      && (persisted ==>
            && NotRaised(start, fleet, global, level)
            && (forall n :: n in fleet ==> InStep(fleet[n], global))
            && (forall k :: from <= k < |seen| ==> NotRaised(start, seen[k], global, level)))
    }

    /** What that means by name, in every state seen. */
    lemma LowNeverRaised(from: nat)
      requires Valid() && persisted && UnderCeiling(from)
      ensures forall k :: from <= k < |seen| ==>
        seen[k].Keys == start.Keys && LowStay(start, seen[k], global, level)
    {
      forall k | from <= k < |seen|
        ensures seen[k].Keys == start.Keys && LowStay(start, seen[k], global, level)
      {
        NotRaisedLow(start, seen[k], global, level);
      }
    }

    ghost function Goal(i: nat, restore: bool): Level
      requires i < |targets|
    {
      if restore then targets[i].oldLevel else level
    }

    ghost function Moved(i: nat, restore: bool, lowered: set<string>, ok: bool): set<string>
      requires i < |targets|
    {
      if !ok then lowered
      else if restore then lowered - {targets[i].name}
      else lowered + {targets[i].name}
    }

    /** One target moved to the new level, or back from it. */
    method MoveOne(i: nat, restore: bool, persistOk: bool, ghost lowered: set<string>) returns (ok: bool)
      requires Valid() && i < |targets| && Shows(lowered)
      requires targets[i].name in lowered <==> restore
      modifies this`fleet, this`seen
      ensures Valid() && ok == (!persisted || persistOk)
      ensures Shows(Moved(i, restore, lowered, ok))
      ensures targets[i].name in old(fleet)
      ensures seen == old(seen)
        + [old(fleet)[targets[i].name := Apply(old(fleet)[targets[i].name], Goal(i, restore))], fleet]
    {
      TargetAt(i);
      var t := targets[i];
      ghost var before := fleet;
      assert Shown(t.name, restore);
      if restore {
        ok := Set(t.name, t.oldLevel, level, persistOk);
      } else {
        ok := Set(t.name, level, t.oldLevel, persistOk);
      }
      OneShown(before, t.name, restore, lowered, Moved(i, restore, lowered, ok));
    }

    /** The same, with the ceiling kept in every state another reader could see. */
    method Move(i: nat, restore: bool, persistOk: bool, ghost lowered: set<string>, ghost from: nat)
      returns (ok: bool)
      requires Valid() && i < |targets| && SomeTargets(lowered) && Shows(lowered) && UnderCeiling(from)
      requires targets[i].name in lowered <==> restore
      modifies this`fleet, this`seen
      ensures Valid() && UnderCeiling(from)
      ensures ok == (!persisted || persistOk)
      ensures Shows(Moved(i, restore, lowered, ok))
    {
      TargetAt(i);
      ghost var before := fleet;
      ghost var earlier, name := seen, targets[i].name;
      ok := MoveOne(i, restore, persistOk, lowered);
      if persisted {
        RankIsTrust(targets[i].oldLevel, level);
        AppliedNotRaised(start, before, global, level, name, Goal(i, restore));
        ShownNotRaised(Moved(i, restore, lowered, ok));
        SeenGrows(start, earlier, before[name := Apply(before[name], Goal(i, restore))], fleet, global, level, from);
      }
    }

    lemma OneShown(before: map<string, Database>, n: string, restore: bool, lowered: set<string>, now: set<string>)
      requires Valid() && before.Keys == start.Keys && n in start
      requires forall m :: m in fleet && m != n ==> fleet[m] == before[m]
      requires forall m :: m in start ==>
        && CurrentLevel(before[m], global) == (if m in lowered then level else CurrentLevel(start[m], global))
        && before[m].row == (if m in lowered && persisted then level else start[m].row)
      requires forall m :: m != n ==> (m in now <==> m in lowered)
      requires Shown(n, n in now)
      ensures Shows(now)
    {
    }

    lemma LoweredAreTargets(k: nat)
      requires k <= |targets|
      ensures SomeTargets(Lowered(k))
    {
    }

    /** A change that went through: the ceiling holds of every database and its row or, without a
        meta-db, every database without a policy of its own is at the new level and nothing else
        has changed. */
    ghost predicate Done()
      reads this
    {
      fleet.Keys == start.Keys && forall n :: n in start ==>
        && (persisted ==>
              && CeilingHolds(CurrentLevel(start[n], global), CurrentLevel(fleet[n], global), level)
              && CeilingHolds(start[n].row, fleet[n].row, level))
        && (!persisted ==>
              && CurrentLevel(fleet[n], global) == (if start[n].ownPolicy then CurrentLevel(start[n], global) else level)
              && fleet[n].row == start[n].row)
    }

    /** Commit: one database after another; the first that cannot be recorded ends it. In meta-db
        mode no database is ever seen at a level that is neither its own nor a lower new one, memory
        and row agree at the end of every step, and a Commit that succeeds has done the change. */
    method Commit(persistOk: nat -> bool) returns (ok: bool)
      requires Valid() && committed == 0 && Shows({}) && UnderCeiling(|seen|)
      modifies this
      ensures Valid() && Shows(Lowered(committed)) && UnderCeiling(|old(seen)|)
      ensures ok <==> forall i :: 0 <= i < |targets| ==> !persisted || persistOk(i)
      ensures ok ==> committed == |targets|
      ensures ok ==> Done()
      ensures persisted ==>
        forall k :: |old(seen)| <= k < |seen| ==> seen[k].Keys == start.Keys && LowStay(start, seen[k], global, level)
    {
      assert Lowered(0) == {};
      ok := true;
      for i := 0 to |targets|
        invariant ok && Valid() && committed == i && Shows(Lowered(i)) && UnderCeiling(|old(seen)|)
        invariant forall k :: 0 <= k < i ==> !persisted || persistOk(k)
      {
        LoweredAreTargets(i);
        NextLowered(i);
        NotLowered(i);
        ok := Move(i, false, persistOk(i), Lowered(i), |old(seen)|);
        if !ok {
          break;
        }
        committed := i + 1;
      }
      if persisted {
        LowNeverRaised(|old(seen)|);
      }
      if ok {
        AllDone();
      }
    }

    lemma AllDone()
      requires Valid() && Shows(Lowered(|targets|))
      ensures Done()
    {
      forall n | n in start
        ensures n in Lowered(|targets|) <==>
          if persisted then MustFall(CurrentLevel(start[n], global), level) else !start[n].ownPolicy
        ensures Shown(n, n in Lowered(|targets|))
      {
        AllLowered(n);
      }
      forall n | n in start && persisted
        ensures CeilingHolds(CurrentLevel(start[n], global), CurrentLevel(fleet[n], global), level)
        ensures CeilingHolds(start[n].row, fleet[n].row, level)
      {
        assert InStep(start[n], global) && Shown(n, n in Lowered(|targets|));
        CeilingIs(CurrentLevel(start[n], global), CurrentLevel(fleet[n], global), level);
        CeilingIs(start[n].row, fleet[n].row, level);
      }
    }

    lemma NotLowered(i: nat)
      requires Valid() && i < |targets|
      ensures targets[i].name !in Lowered(i)
    {
    }

    lemma NextLowered(i: nat)
      requires i < |targets|
      ensures Lowered(i + 1) == Lowered(i) + {targets[i].name}
    {
    }

    lemma AllLowered(n: string)
      requires Valid() && n in start
      ensures n in Lowered(|targets|) <==>
        if persisted then MustFall(CurrentLevel(start[n], global), level) else !start[n].ownPolicy
    {
      TargetsAreByName(start, global, level, persisted, targets);
      assert n in Lowered(|targets|) <==> Listed(targets, n);
    }

    /** The databases a rollback could not record again: they stay at the new level. */
    ghost function Stuck(from: nat, to: nat, persistOk: nat -> bool): set<string>
      requires to <= |targets|
    {
      set i | from <= i < to && persisted && !persistOk(i) :: targets[i].name
    }

    /** Rollback: newest first, going on after a failure. Exactly the databases whose row could not
        be written again stay at the new level; without a failure every level is as it started. */
    method Rollback(persistOk: nat -> bool) returns (ok: bool)
      requires Valid() && Shows(Lowered(committed)) && UnderCeiling(|seen|)
      modifies this`fleet, this`seen
      ensures Valid() && Shows(Stuck(0, committed, persistOk)) && UnderCeiling(|old(seen)|)
      ensures ok <==> Stuck(0, committed, persistOk) == {}
      ensures ok ==> Shows({})
      ensures persisted ==>
        forall k :: |old(seen)| <= k < |seen| ==> seen[k].Keys == start.Keys && LowStay(start, seen[k], global, level)
    {
      ok := true;
      var i := committed;
      assert Lowered(i) + Stuck(i, committed, persistOk) == Lowered(i);
      while i > 0
        invariant 0 <= i <= committed && Valid() && UnderCeiling(|old(seen)|)
        invariant Shows(Lowered(i) + Stuck(i, committed, persistOk))
        invariant ok <==> Stuck(i, committed, persistOk) == {}
      {
        i := i - 1;
        ghost var lowered := Lowered(i + 1) + Stuck(i + 1, committed, persistOk);
        StuckAreTargets(i, persistOk);
        OneLess(i, persistOk);
        var done := Move(i, true, persistOk(i), lowered, |old(seen)|);
        ok := ok && done;
      }
      assert Lowered(0) + Stuck(0, committed, persistOk) == Stuck(0, committed, persistOk);
      if persisted {
        LowNeverRaised(|old(seen)|);
      }
    }

    lemma StuckAreTargets(i: nat, persistOk: nat -> bool)
      requires i < committed <= |targets|
      ensures SomeTargets(Lowered(i + 1) + Stuck(i + 1, committed, persistOk))
    {
    }

    lemma OneLess(i: nat, persistOk: nat -> bool)
      requires Valid() && i < committed
      ensures var n := targets[i].name;
        var lowered := Lowered(i + 1) + Stuck(i + 1, committed, persistOk);
        && n in lowered
        && Lowered(i) + Stuck(i, committed, persistOk)
           == (if persisted && !persistOk(i) then lowered else lowered - {n})
        && (Stuck(i, committed, persistOk) == {} <==>
              Stuck(i + 1, committed, persistOk) == {} && (!persisted || persistOk(i)))
    {
      NextLowered(i);
      NextStuck(i, persistOk);
      NotLowered(i);
      NotYetStuck(i, persistOk);
    }

    lemma NextStuck(i: nat, persistOk: nat -> bool)
      requires i < committed <= |targets|
      ensures Stuck(i, committed, persistOk) ==
        Stuck(i + 1, committed, persistOk) + if persisted && !persistOk(i) then {targets[i].name} else {}
    {
    }

    lemma NotYetStuck(i: nat, persistOk: nat -> bool)
      requires Valid() && i < committed
      ensures targets[i].name !in Stuck(i + 1, committed, persistOk)
    {
    }
  }

  lemma SortedTargets(found: seq<Target>)
    requires forall i, j :: 0 <= i < j < |found| ==> found[i].name != found[j].name
    ensures var r := SortBy(found, TargetName);
      && (forall t :: t in r <==> t in found)
      && (forall i, j :: 0 <= i < j < |r| ==> r[i].name != r[j].name)
  {
    assert Distinct(found);
    SortKeepsDistinct(found, TargetName);
    var r := SortBy(found, TargetName);
    forall i, j | 0 <= i < j < |r|
      ensures r[i].name != r[j].name
    {
      assert r[i] in found && r[j] in found && r[i] != r[j];
    }
  }
}
