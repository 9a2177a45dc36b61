/** The per-database difference between two fleet configurations. */
module FleetPlan {
  import opened Names

  /** One fleet database. `connection` stands for every setting that needs a new connection
      or runtime (host, port, credentials, pool size, intervals, replicas, options). */
  datatype DatabaseConfig = DatabaseConfig(
    name: string, connection: string, llmEnabled: Option<bool>,
    trustLevel: string, trustExplicit: bool, executionMode: string,
    executorEnabled: Option<bool>, tags: seq<string>)

  /** An unset gate means enabled. */
  predicate GateOn(gate: Option<bool>) {
    gate.None? || gate.value
  }

  datatype Change = Unchanged | Hot | Rebuild

  function Classify(was: DatabaseConfig, updated: DatabaseConfig): Change {
    if was.name != updated.name || was.connection != updated.connection
       || GateOn(was.llmEnabled) != GateOn(updated.llmEnabled) then Rebuild
    else if was.trustLevel != updated.trustLevel || was.trustExplicit != updated.trustExplicit
            || was.executionMode != updated.executionMode
            || GateOn(was.executorEnabled) != GateOn(updated.executorEnabled)
            || was.tags != updated.tags then Hot
    else Unchanged
  }

  /** A config with its gates written out. */
  function Effective(db: DatabaseConfig): DatabaseConfig {
    db.(llmEnabled := Some(GateOn(db.llmEnabled)),
        executorEnabled := Some(GateOn(db.executorEnabled)))
  }

  /** The classification is an exact comparison of effective settings, and it is symmetric: a
      rebuild is a change of name, connection or LLM gate, and nothing else is. */
  lemma ClassifyIsEffectiveComparison(a: DatabaseConfig, b: DatabaseConfig)
    ensures Classify(a, b) == Rebuild <==>
      || a.name != b.name || a.connection != b.connection
      || ((a.llmEnabled == Some(false)) != (b.llmEnabled == Some(false)))
    ensures Classify(a, b) == Unchanged <==>
      && a.name == b.name && a.connection == b.connection && a.trustLevel == b.trustLevel
      && a.trustExplicit == b.trustExplicit && a.executionMode == b.executionMode && a.tags == b.tags
      && ((a.llmEnabled == Some(false)) == (b.llmEnabled == Some(false)))
      && ((a.executorEnabled == Some(false)) == (b.executorEnabled == Some(false)))
    ensures Classify(a, b) == Unchanged <==> Effective(a) == Effective(b)
    ensures Classify(a, b) == Classify(b, a)
    ensures Classify(a, b) == Hot ==>
      Effective(a).(trustLevel := b.trustLevel, trustExplicit := b.trustExplicit,
        executionMode := b.executionMode, executorEnabled := Some(GateOn(b.executorEnabled)),
        tags := b.tags) == Effective(b)
  {
  }

  datatype Plan = Plan(
    add: seq<DatabaseConfig>, remove: seq<string>, rebuild: seq<DatabaseConfig>,
    hot: seq<DatabaseConfig>, previous: map<string, DatabaseConfig>)

  function NameOf(db: DatabaseConfig): string {
    db.name
  }

  /** The configs by name, the last entry of a name winning. */
  function Current(dbs: seq<DatabaseConfig>): (m: map<string, DatabaseConfig>)
    ensures forall n :: n in m ==> m[n] in dbs && m[n].name == n
    ensures forall db :: db in dbs ==> db.name in m
  {
    if dbs == [] then map[]
    else
      assert dbs == dbs[..|dbs| - 1] + [dbs[|dbs| - 1]];
      Current(dbs[..|dbs| - 1])[dbs[|dbs| - 1].name := dbs[|dbs| - 1]]
  }

  datatype Decision = Add | Keep | Apply(change: Change)

  function Decide(current: map<string, DatabaseConfig>, db: DatabaseConfig): Decision {
    if db.name !in current then Add
    else if Classify(current[db.name], db) == Unchanged then Keep
    else Apply(Classify(current[db.name], db))
  }

  /** The desired databases with one decision, in order. */
  function Picked(current: map<string, DatabaseConfig>, desired: seq<DatabaseConfig>, d: Decision)
    : (r: seq<DatabaseConfig>)
    ensures forall db :: db in r <==> db in desired && Decide(current, db) == d
  {
    if desired == [] then []
    else
      var db := desired[|desired| - 1];
      assert desired == desired[..|desired| - 1] + [db];
      var rest := Picked(current, desired[..|desired| - 1], d);
      if Decide(current, db) == d then rest + [db] else rest
  }

  /** The active configs of the desired databases that change. */
  function Changing(current: map<string, DatabaseConfig>, desired: seq<DatabaseConfig>)
    : (r: map<string, DatabaseConfig>)
    ensures r.Keys <= current.Keys
    ensures forall n :: n in r ==> r[n] == current[n]
    ensures forall db :: db in desired && Decide(current, db).Apply? ==> db.name in r
    ensures forall n :: n in r ==>
      exists db :: db in desired && db.name == n && Decide(current, db).Apply?
  {
    if desired == [] then map[]
    else
      var db := desired[|desired| - 1];
      assert desired == desired[..|desired| - 1] + [db];
      var rest := Changing(current, desired[..|desired| - 1]);
      if Decide(current, db).Apply? then rest[db.name := current[db.name]] else rest
  }

  function NamesIn(dbs: seq<DatabaseConfig>): set<string> {
    Current(dbs).Keys
  }

  /** What a reload plan is, for any two lists. */
  ghost predicate IsPlan(active: seq<DatabaseConfig>, desired: seq<DatabaseConfig>, plan: Plan) {
    var current := Current(active);
    && plan.add == SortBy(Picked(current, desired, Add), NameOf)
    && plan.rebuild == SortBy(Picked(current, desired, Apply(Rebuild)), NameOf)
    && plan.hot == SortBy(Picked(current, desired, Apply(Hot)), NameOf)
    && SortedBy(plan.remove, Self)
    && Distinct(plan.remove)
    && (forall n :: n in plan.remove <==> n in current && n !in NamesIn(desired))
    && plan.previous.Keys == (current.Keys - NamesIn(desired)) + Changing(current, desired).Keys
    && (forall n :: n in plan.previous ==> plan.previous[n] == current[n])
  }

  /** planFleetReload: one pass over the desired list, one over what is left, then four sorts. */
  method PlanFleetReload(active: seq<DatabaseConfig>, desired: seq<DatabaseConfig>)
    returns (plan: Plan)
    ensures IsPlan(active, desired, plan)
  {
    var current := map[];
    for i := 0 to |active|
      invariant current == Current(active[..i])
    {
      assert active[..i + 1][..i] == active[..i];
      current := current[active[i].name := active[i]];
    }
    assert active[..|active|] == active;
    var add, rebuild, hot, previous, wanted := SplitDesired(current, desired);
    var remove, all := SplitRemoved(current, wanted, previous);
    SortKeepsDistinct(remove, Self);
    plan := Plan(SortBy(add, NameOf), SortBy(remove, Self), SortBy(rebuild, NameOf),
                 SortBy(hot, NameOf), all);
  }

  method SplitDesired(current: map<string, DatabaseConfig>, desired: seq<DatabaseConfig>)
    returns (add: seq<DatabaseConfig>, rebuild: seq<DatabaseConfig>, hot: seq<DatabaseConfig>,
             previous: map<string, DatabaseConfig>, wanted: set<string>)
    ensures add == Picked(current, desired, Add)
    ensures rebuild == Picked(current, desired, Apply(Rebuild))
    ensures hot == Picked(current, desired, Apply(Hot))
    ensures wanted == NamesIn(desired)
    ensures previous == Changing(current, desired)
  {
    add, rebuild, hot, previous, wanted := [], [], [], map[], {};
    for i := 0 to |desired|
      invariant add == Picked(current, desired[..i], Add)
      invariant rebuild == Picked(current, desired[..i], Apply(Rebuild))
      invariant hot == Picked(current, desired[..i], Apply(Hot))
      invariant wanted == NamesIn(desired[..i])
      invariant previous == Changing(current, desired[..i])
    {
      var db := desired[i];
      NextDesired(current, desired, i);
      wanted := wanted + {db.name};
      if db.name !in current {
        add := add + [db];
      } else {
        var change := Classify(current[db.name], db);
        if change == Rebuild {
          rebuild := rebuild + [db];
          previous := previous[db.name := current[db.name]];
        } else if change == Hot {
          hot := hot + [db];
          previous := previous[db.name := current[db.name]];
        }
      }
    }
    assert desired[..|desired|] == desired;
  }

  lemma NextDesired(current: map<string, DatabaseConfig>, desired: seq<DatabaseConfig>, i: nat)
    requires i < |desired|
    ensures forall d ::
      (Picked(current, desired[..i + 1], d)
       == Picked(current, desired[..i], d) + if Decide(current, desired[i]) == d then [desired[i]] else [])
    ensures NamesIn(desired[..i + 1]) == NamesIn(desired[..i]) + {desired[i].name}
    ensures Changing(current, desired[..i + 1]) ==
      if Decide(current, desired[i]).Apply?
      then Changing(current, desired[..i])[desired[i].name := current[desired[i].name]]
      else Changing(current, desired[..i])
  {
    assert desired[..i + 1][..i] == desired[..i];
  }

  method SplitRemoved(
    current: map<string, DatabaseConfig>, wanted: set<string>, changed: map<string, DatabaseConfig>)
    returns (remove: seq<string>, previous: map<string, DatabaseConfig>)
    requires changed.Keys <= current.Keys && forall n :: n in changed ==> changed[n] == current[n]
    ensures Distinct(remove)
    ensures forall n :: n in remove <==> n in current && n !in wanted
    ensures previous.Keys == (current.Keys - wanted) + changed.Keys
    ensures forall n :: n in previous ==> previous[n] == current[n]
  {
    remove, previous := [], changed;
    var todo := current.Keys;
    while todo != {}
      invariant todo <= current.Keys
      invariant Distinct(remove)
      invariant forall n :: n in remove <==> n in current && n !in todo && n !in wanted
      invariant previous.Keys == (current.Keys - todo - wanted) + changed.Keys
      invariant forall n :: n in previous ==> previous[n] == current[n]
      decreases todo
    {
      var n :| n in todo;
      todo := todo - {n};
      if n !in wanted {
        remove := remove + [n];
        previous := previous[n := current[n]];
      }
    }
  }

  /** `m` lists the databases of `dbs` by name, each name once. */
  ghost predicate Indexes(m: map<string, DatabaseConfig>, dbs: seq<DatabaseConfig>) {
    && Distinct(dbs)
    && (forall n :: n in m ==> m[n] in dbs && m[n].name == n)
    && (forall db :: db in dbs ==> db.name in m && m[db.name] == db)
  }

  ghost predicate UniqueNames(dbs: seq<DatabaseConfig>) {
    forall i, j :: 0 <= i < j < |dbs| ==> dbs[i].name != dbs[j].name
  }

  lemma {:induction false} UniqueNamesIndexed(dbs: seq<DatabaseConfig>)
    requires UniqueNames(dbs)
    ensures Indexes(Current(dbs), dbs)
  {
    if dbs != [] {
      var t, x := dbs[..|dbs| - 1], dbs[|dbs| - 1];
      UniqueNamesIndexed(t);
      assert dbs == t + [x];
      forall db | db in t
        ensures db.name != x.name
      {
        var i :| 0 <= i < |t| && t[i] == db;
        assert dbs[i] == db;
      }
      IndexedOneMore(Current(t), t, x);
    }
  }

  lemma IndexedOneMore(m: map<string, DatabaseConfig>, t: seq<DatabaseConfig>, x: DatabaseConfig)
    requires Indexes(m, t) && forall db :: db in t ==> db.name != x.name
    ensures Indexes(m[x.name := x], t + [x])
  {
  }

  lemma {:induction false} PickedKeepsDistinct(
    current: map<string, DatabaseConfig>, desired: seq<DatabaseConfig>, d: Decision)
    requires Distinct(desired)
    ensures Distinct(Picked(current, desired, d))
  {
    if desired != [] {
      var t, x := desired[..|desired| - 1], desired[|desired| - 1];
      PickedKeepsDistinct(current, t, d);
      assert x !in t;
      assert x !in Picked(current, t, d);
    }
  }

  /** The databases of `want` whose decision against `current` is `d`, sorted by name. */
  ghost predicate Lists(
    current: map<string, DatabaseConfig>, want: map<string, DatabaseConfig>, d: Decision,
    list: seq<DatabaseConfig>)
  {
    && SortedBy(list, NameOf)
    && Distinct(list)
    && forall db :: db in list <==>
         db.name in want && want[db.name] == db && Decide(current, db) == d
  }

  lemma PickedLists(
    current: map<string, DatabaseConfig>, want: map<string, DatabaseConfig>,
    desired: seq<DatabaseConfig>, d: Decision)
    requires Indexes(want, desired)
    ensures Lists(current, want, d, SortBy(Picked(current, desired, d), NameOf))
  {
    PickedKeepsDistinct(current, desired, d);
    SortKeepsDistinct(Picked(current, desired, d), NameOf);
  }

  /** The names with one decision, sorted: their list is the list's names. */
  lemma ListedNames(
    current: map<string, DatabaseConfig>, want: map<string, DatabaseConfig>, d: Decision,
    list: seq<DatabaseConfig>)
    requires Lists(current, want, d, list)
    requires forall n :: n in want ==> want[n].name == n
    ensures SortedBy(KeysOf(list, NameOf), Self) && Distinct(KeysOf(list, NameOf))
    ensures forall n :: n in KeysOf(list, NameOf) <==> n in want && Decide(current, want[n]) == d
  {
    var keys := KeysOf(list, NameOf);
    forall i, j | 0 <= i < j < |keys|
      ensures keys[i] != keys[j] && AtMost(Self(keys[i]), Self(keys[j]))
    {
      assert list[i] in list && list[j] in list && list[i] != list[j];
      assert AtMost(NameOf(list[i]), NameOf(list[j]));
    }
    forall n
      ensures n in keys <==> n in want && Decide(current, want[n]) == d
    {
      if n in keys {
        var i :| 0 <= i < |keys| && keys[i] == n;
        assert list[i] in list;
      }
      if n in want && Decide(current, want[n]) == d {
        assert want[n] in list;
        var i :| 0 <= i < |list| && list[i] == want[n];
        assert keys[i] == n;
      }
    }
  }

  /** A plan between two indexed fleets. */
  ghost predicate PlanBetween(
    current: map<string, DatabaseConfig>, want: map<string, DatabaseConfig>, plan: Plan)
  {
    && Lists(current, want, Add, plan.add)
    && Lists(current, want, Apply(Rebuild), plan.rebuild)
    && Lists(current, want, Apply(Hot), plan.hot)
    && SortedBy(plan.remove, Self)
    && Distinct(plan.remove)
    && (forall n :: n in plan.remove <==> n in current && n !in want)
    && (forall n :: n in plan.previous <==>
          n in current && (n !in want || Decide(current, want[n]).Apply?))
    && (forall n :: n in plan.previous ==> plan.previous[n] == current[n])
  }

  lemma PlanIsBetween(active: seq<DatabaseConfig>, desired: seq<DatabaseConfig>, plan: Plan)
    requires UniqueNames(active) && UniqueNames(desired) && IsPlan(active, desired, plan)
    ensures Indexes(Current(active), active) && Indexes(Current(desired), desired)
    ensures PlanBetween(Current(active), Current(desired), plan)
  {
    var current, want := Current(active), Current(desired);
    UniqueNamesIndexed(active);
    UniqueNamesIndexed(desired);
    PickedLists(current, want, desired, Add);
    PickedLists(current, want, desired, Apply(Rebuild));
    PickedLists(current, want, desired, Apply(Hot));
    forall n
      ensures n in plan.previous <==> n in current && (n !in want || Decide(current, want[n]).Apply?)
    {
      if n in want && Decide(current, want[n]).Apply? {
        assert want[n] in desired;
      }
    }
  }

  /** Each name of the two fleets falls in exactly one of Add, Remove, Rebuild, Hot and
      "unchanged"; the four lists are sorted and repeat nothing; Previous keeps the active config
      of exactly the removed, rebuilt and hot names. */
  lemma PlanPartition(active: seq<DatabaseConfig>, desired: seq<DatabaseConfig>, plan: Plan, n: string)
    requires UniqueNames(active) && UniqueNames(desired) && IsPlan(active, desired, plan)
    ensures SortedBy(KeysOf(plan.add, NameOf), Self) && Distinct(KeysOf(plan.add, NameOf))
    ensures SortedBy(KeysOf(plan.rebuild, NameOf), Self) && Distinct(KeysOf(plan.rebuild, NameOf))
    ensures SortedBy(KeysOf(plan.hot, NameOf), Self) && Distinct(KeysOf(plan.hot, NameOf))
    ensures SortedBy(plan.remove, Self) && Distinct(plan.remove)
    ensures n in KeysOf(plan.add, NameOf) <==> n in NamesIn(desired) && n !in NamesIn(active)
    ensures n in plan.remove <==> n in NamesIn(active) && n !in NamesIn(desired)
    ensures n in KeysOf(plan.rebuild, NameOf) <==>
      n in NamesIn(active) * NamesIn(desired) && Classify(Current(active)[n], Current(desired)[n]) == Rebuild
    ensures n in KeysOf(plan.hot, NameOf) <==>
      n in NamesIn(active) * NamesIn(desired) && Classify(Current(active)[n], Current(desired)[n]) == Hot
    ensures n in plan.previous <==>
      n in plan.remove || n in KeysOf(plan.rebuild, NameOf) || n in KeysOf(plan.hot, NameOf)
    ensures n in plan.previous ==> plan.previous[n] in active && plan.previous[n].name == n
  {
    PlanIsBetween(active, desired, plan);
    NameInOneList(Current(active), Current(desired), plan, n);
  }

  lemma NameInOneList(
    current: map<string, DatabaseConfig>, want: map<string, DatabaseConfig>, plan: Plan, n: string)
    requires PlanBetween(current, want, plan)
    requires forall m :: m in want ==> want[m].name == m
    ensures SortedBy(KeysOf(plan.add, NameOf), Self) && Distinct(KeysOf(plan.add, NameOf))
    ensures SortedBy(KeysOf(plan.rebuild, NameOf), Self) && Distinct(KeysOf(plan.rebuild, NameOf))
    ensures SortedBy(KeysOf(plan.hot, NameOf), Self) && Distinct(KeysOf(plan.hot, NameOf))
    ensures n in KeysOf(plan.add, NameOf) <==> n in want && n !in current
    ensures n in KeysOf(plan.rebuild, NameOf) <==>
      n in current && n in want && Classify(current[n], want[n]) == Rebuild
    ensures n in KeysOf(plan.hot, NameOf) <==>
      n in current && n in want && Classify(current[n], want[n]) == Hot
    ensures n in plan.previous <==>
      n in plan.remove || n in KeysOf(plan.rebuild, NameOf) || n in KeysOf(plan.hot, NameOf)
  {
    ListedNames(current, want, Add, plan.add);
    ListedNames(current, want, Apply(Rebuild), plan.rebuild);
    ListedNames(current, want, Apply(Hot), plan.hot);
  }

  /** The configs after carrying out a plan. */
  function ApplyPlan(active: map<string, DatabaseConfig>, plan: Plan): map<string, DatabaseConfig> {
    (active - (set n | n in plan.remove))
    + Current(plan.add) + Current(plan.rebuild) + Current(plan.hot)
  }

  /** Carrying out the plan gives exactly the desired databases, each with its desired effective
      settings; only a database that is effectively unchanged keeps its active entry. */
  lemma PlanYieldsDesired(active: seq<DatabaseConfig>, desired: seq<DatabaseConfig>, plan: Plan, n: string)
    requires UniqueNames(active) && UniqueNames(desired) && IsPlan(active, desired, plan)
    ensures n in ApplyPlan(Current(active), plan) <==> n in NamesIn(desired)
    ensures n in NamesIn(desired) ==>
      Effective(ApplyPlan(Current(active), plan)[n]) == Effective(Current(desired)[n])
    ensures n in NamesIn(desired) && Decide(Current(active), Current(desired)[n]) != Keep ==>
      ApplyPlan(Current(active), plan)[n] == Current(desired)[n]
  {
    PlanIsBetween(active, desired, plan);
    PlannedEntry(Current(active), Current(desired), plan, n);
  }

  lemma PlannedEntry(
    current: map<string, DatabaseConfig>, want: map<string, DatabaseConfig>, plan: Plan, n: string)
    requires PlanBetween(current, want, plan)
    requires forall m :: m in want ==> want[m].name == m
    ensures n in ApplyPlan(current, plan) <==> n in want
    ensures n in want ==> Effective(ApplyPlan(current, plan)[n]) == Effective(want[n])
    ensures n in want && Decide(current, want[n]) != Keep ==> ApplyPlan(current, plan)[n] == want[n]
  {
    if n in want {
      var db := want[n];
      assert Decide(current, db) == Add ==> db in plan.add;
      assert Decide(current, db) == Apply(Rebuild) ==> db in plan.rebuild;
      assert Decide(current, db) == Apply(Hot) ==> db in plan.hot;
      if n in current {
        ClassifyIsEffectiveComparison(current[n], db);
      }
    }
  }

  /** Planning the reverse reload exchanges additions and removals and keeps the other two. */
  lemma PlanReversed(active: seq<DatabaseConfig>, desired: seq<DatabaseConfig>, plan: Plan, back: Plan)
    requires UniqueNames(active) && UniqueNames(desired)
    requires IsPlan(active, desired, plan) && IsPlan(desired, active, back)
    ensures KeysOf(plan.add, NameOf) == back.remove
    ensures plan.remove == KeysOf(back.add, NameOf)
    ensures KeysOf(plan.rebuild, NameOf) == KeysOf(back.rebuild, NameOf)
    ensures KeysOf(plan.hot, NameOf) == KeysOf(back.hot, NameOf)
  {
    PlanIsBetween(active, desired, plan);
    PlanIsBetween(desired, active, back);
    BetweenReversed(Current(active), Current(desired), plan, back);
    BetweenReversed(Current(desired), Current(active), back, plan);
  }

  lemma SameSortedNames(a: seq<string>, b: seq<string>)
    requires SortedBy(a, Self) && SortedBy(b, Self) && Distinct(a) && Distinct(b)
    requires forall n :: n in a <==> n in b
    ensures a == b
  {
    SameMultiset(a, b);
    SortedUnique(a, b);
  }

  lemma BetweenReversed(
    current: map<string, DatabaseConfig>, want: map<string, DatabaseConfig>, plan: Plan, back: Plan)
    requires PlanBetween(current, want, plan) && PlanBetween(want, current, back)
    requires forall m :: m in want ==> want[m].name == m
    requires forall m :: m in current ==> current[m].name == m
    ensures KeysOf(plan.add, NameOf) == back.remove
    ensures KeysOf(plan.rebuild, NameOf) == KeysOf(back.rebuild, NameOf)
    ensures KeysOf(plan.hot, NameOf) == KeysOf(back.hot, NameOf)
  {
    forall n
      ensures n in KeysOf(plan.add, NameOf) <==> n in back.remove
      ensures n in KeysOf(plan.rebuild, NameOf) <==> n in KeysOf(back.rebuild, NameOf)
      ensures n in KeysOf(plan.hot, NameOf) <==> n in KeysOf(back.hot, NameOf)
    {
      NameInOneList(current, want, plan, n);
      NameInOneList(want, current, back, n);
      if n in current && n in want {
        ClassifyIsEffectiveComparison(current[n], want[n]);
      }
    }
    NameInOneList(current, want, plan, "");
    NameInOneList(want, current, back, "");
    SameSortedNames(KeysOf(plan.add, NameOf), back.remove);
    SameSortedNames(KeysOf(plan.rebuild, NameOf), KeysOf(back.rebuild, NameOf));
    SameSortedNames(KeysOf(plan.hot, NameOf), KeysOf(back.hot, NameOf));
  }

  // ----- refusals

  datatype PlanError = ControlDatabase(name: string) | InvalidPolicy(name: string)

  predicate ValidTrust(level: string) {
    level in ["", "observation", "advisory", "autonomous"]
  }

  predicate ValidMode(mode: string) {
    mode in ["", "auto", "approval", "manual"]
  }

  predicate ValidPolicy(db: DatabaseConfig) {
    ValidTrust(db.trustLevel) && ValidMode(db.executionMode)
  }

  function FirstInvalid(dbs: seq<DatabaseConfig>): (r: Option<PlanError>)
    ensures r.None? <==> forall db :: db in dbs ==> ValidPolicy(db)
    ensures r.Some? ==> exists db :: db in dbs && !ValidPolicy(db) && r.value == InvalidPolicy(db.name)
  {
    if dbs == [] then None
    else if !ValidPolicy(dbs[0]) then Some(InvalidPolicy(dbs[0].name))
    else
      assert dbs == [dbs[0]] + dbs[1..];
      FirstInvalid(dbs[1..])
  }

  predicate NamedLevel(level: string) {
    level == "" || level == "observation" || level == "advisory" || level == "autonomous"
  }

  lemma NamedLevels(level: string)
    ensures ValidTrust(level) <==> NamedLevel(level)
  {
  }

  /** The levels and modes a config may name. */
  predicate NamedPolicy(db: DatabaseConfig) {
    && NamedLevel(db.trustLevel)
    && (db.executionMode == "" || db.executionMode == "auto" || db.executionMode == "approval"
        || db.executionMode == "manual")
  }

  /** validateFleetReloadPlan: the refusal, or None. */
  function ValidatePlan(plan: Plan, controlName: string): (r: Option<PlanError>)
    ensures r.None? <==>
      && (controlName != "" ==> controlName !in plan.remove && controlName !in NamesIn(plan.rebuild))
      && forall db :: db in plan.add + plan.rebuild + plan.hot ==> NamedPolicy(db)
    ensures controlName != "" && (controlName in plan.remove || controlName in NamesIn(plan.rebuild)) ==>
      r == Some(ControlDatabase(controlName))
  {
    if controlName != "" && (controlName in plan.remove || controlName in NamesIn(plan.rebuild)) then
      Some(ControlDatabase(controlName))
    else FirstInvalid(plan.add + plan.rebuild + plan.hot)
  }
}
