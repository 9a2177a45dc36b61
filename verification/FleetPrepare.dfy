/** Preparing a fleet reload: plan, refuse, observe, build unpublished runtimes. */
module FleetPrepare {
  import opened Names
  import opened FleetPlan
  import opened FleetRegistry
  import opened FleetSteps
  import opened FleetReload
  import opened FleetOwner

  /** What building one runtime came to. */
  datatype Build = BuildOk(runtime: Runtime) | BuildFailed

  function Lookup(instances: map<string, Gen>, name: string): Option<Gen> {
    if name in instances then Some(instances[name]) else None
  }

  /** The registered generations of some names, in order. */
  function RemovalsOf(instances: map<string, Gen>, names: seq<string>): seq<Gen> {
    if names == [] then []
    else
      var n := names[|names| - 1];
      RemovalsOf(instances, names[..|names| - 1]) + if n in instances then [instances[n]] else []
  }

  method ObserveRemovals(process: Process, names: seq<string>) returns (gens: seq<Gen>)
    ensures gens == RemovalsOf(process.instances, names)
  {
    gens := [];
    for k := 0 to |names|
      invariant gens == RemovalsOf(process.instances, names[..k])
    {
      assert names[..k + 1][..k] == names[..k];
      if names[k] in process.instances {
        gens := gens + [process.instances[names[k]]];
      }
    }
    assert names[..|names|] == names;
  }

  /** They are the published generations of exactly the registered names, each name once. */
  lemma {:induction false} RemovalsAre(f: Fleet, names: seq<string>)
    requires Valid(f) && Distinct(names)
    ensures Registered(f, names, RemovalsOf(f.instances, names))
  {
    if names != [] {
      var k := |names| - 1;
      var n := names[k];
      RemovalsAre(f, names[..k]);
      assert names == names[..k] + [n];
      assert n !in names[..k];
      RegisteredGrows(f, names[..k], RemovalsOf(f.instances, names[..k]), n);
    }
  }

  /** The generations are those published under the registered names of a list, one each. */
  ghost predicate Registered(f: Fleet, names: seq<string>, gens: seq<Gen>) {
    && (forall i :: 0 <= i < |gens| ==>
          gens[i] in f.heap && Current?(f, gens[i]) && f.heap[gens[i]].name in names && f.heap[gens[i]].name != "")
    && (forall i, j :: 0 <= i < j < |gens| ==> f.heap[gens[i]].name != f.heap[gens[j]].name)
    && (forall n :: n in names && n in f.instances ==> f.instances[n] in gens)
  }

  lemma RegisteredGrows(f: Fleet, names: seq<string>, gens: seq<Gen>, n: string)
    requires Valid(f) && Registered(f, names, gens) && n !in names
    ensures Registered(f, names + [n], if n in f.instances then gens + [f.instances[n]] else gens)
  {
    if n in f.instances {
      var all := gens + [f.instances[n]];
      forall i | 0 <= i < |all|
        ensures all[i] in f.heap && Current?(f, all[i]) && f.heap[all[i]].name in names + [n] && f.heap[all[i]].name != ""
      {
        if i < |gens| {
          assert all[i] == gens[i];
        } else {
          assert n in names + [n];
        }
      }
    }
  }

  /** The policy changes of the registered databases, in order. */
  function HotOf(instances: map<string, Gen>, dbs: seq<DatabaseConfig>, previous: map<string, DatabaseConfig>)
    : seq<HotChange>
    requires forall i :: 0 <= i < |dbs| ==> dbs[i].name in previous
  {
    if dbs == [] then []
    else
      var db := dbs[|dbs| - 1];
      HotOf(instances, dbs[..|dbs| - 1], previous)
      + if db.name in instances then [HotChange(instances[db.name], previous[db.name], db)] else []
  }

  method ObserveHot(process: Process, dbs: seq<DatabaseConfig>, previous: map<string, DatabaseConfig>)
    returns (hot: seq<HotChange>)
    requires forall i :: 0 <= i < |dbs| ==> dbs[i].name in previous
    ensures hot == HotOf(process.instances, dbs, previous)
  {
    hot := [];
    for k := 0 to |dbs|
      invariant hot == HotOf(process.instances, dbs[..k], previous)
    {
      assert dbs[..k + 1][..k] == dbs[..k];
      if dbs[k].name in process.instances {
        hot := hot + [HotChange(process.instances[dbs[k].name], previous[dbs[k].name], dbs[k])];
      }
    }
    assert dbs[..|dbs|] == dbs;
  }

  /** The change is for a registered database of the list, from its previous config. */
  predicate HotFor(f: Fleet, dbs: seq<DatabaseConfig>, previous: map<string, DatabaseConfig>, h: HotChange) {
    && h.instance in f.heap && Current?(f, h.instance)
    && h.cfg in dbs && h.cfg.name in previous && h.was == previous[h.cfg.name]
    && f.heap[h.instance].name == h.cfg.name
  }

  /** The changes are those of the registered databases of a list, one each. */
  ghost predicate HotList(
    f: Fleet, dbs: seq<DatabaseConfig>, previous: map<string, DatabaseConfig>, hot: seq<HotChange>)
  {
    && (forall i :: 0 <= i < |hot| ==> HotFor(f, dbs, previous, hot[i]))
    && (forall i, j :: 0 <= i < j < |hot| ==> hot[i].cfg.name != hot[j].cfg.name)
    && (forall db :: db in dbs && db.name in f.instances && db.name in previous ==>
          HotChange(f.instances[db.name], previous[db.name], db) in hot)
  }

  lemma {:induction false} HotAre(f: Fleet, dbs: seq<DatabaseConfig>, previous: map<string, DatabaseConfig>)
    requires Valid(f) && Distinct(KeysOf(dbs, NameOf))
    requires forall i :: 0 <= i < |dbs| ==> dbs[i].name in previous
    ensures HotList(f, dbs, previous, HotOf(f.instances, dbs, previous))
  {
    if dbs != [] {
      var k := |dbs| - 1;
      var before, keys := dbs[..k], KeysOf(dbs, NameOf);
      assert KeysOf(before, NameOf) == keys[..k];
      HotAre(f, before, previous);
      assert dbs == before + [dbs[k]];
      forall d | d in before
        ensures d.name != dbs[k].name
      {
        var i :| 0 <= i < k && dbs[i] == d;
        assert keys[i] != keys[k];
      }
      HotGrows(f, before, previous, HotOf(f.instances, before, previous), dbs[k]);
    }
  }

  lemma HotGrows(
    f: Fleet, dbs: seq<DatabaseConfig>, previous: map<string, DatabaseConfig>, hot: seq<HotChange>, db: DatabaseConfig)
    requires Valid(f) && HotList(f, dbs, previous, hot) && db.name in previous
    requires forall d :: d in dbs ==> d.name != db.name
    ensures HotList(f, dbs + [db], previous,
                    hot + if db.name in f.instances then [HotChange(f.instances[db.name], previous[db.name], db)] else [])
  {
    var all := hot + if db.name in f.instances then [HotChange(f.instances[db.name], previous[db.name], db)] else [];
    forall i | 0 <= i < |all|
      ensures HotFor(f, dbs + [db], previous, all[i])
      ensures i < |hot| ==> all[i].cfg.name != db.name
    {
      if i < |hot| {
        assert HotFor(f, dbs, previous, hot[i]);
      }
    }
  }

  function Observed(instances: map<string, Gen>, dbs: seq<DatabaseConfig>): (r: seq<Candidate>)
    ensures |r| == |dbs|
    ensures forall i :: 0 <= i < |dbs| ==> r[i] == Candidate(dbs[i], Lookup(instances, dbs[i].name), None)
  {
    seq(|dbs|, i requires 0 <= i < |dbs| => Candidate(dbs[i], Lookup(instances, dbs[i].name), None))
  }

  /** The instance prepareCandidate makes: a connected runtime, or the placeholder of a database
      that could not be reached. */
  function NewRuntime(db: DatabaseConfig, build: Build): Runtime {
    match build
    case BuildOk(r) => r.(name := db.name, connected := true, config := db)
    case BuildFailed =>
      Runtime(db.name, false, false, db, "", "", false, false, false, "", false)
  }

  /** It serves the config under the config's name, connected if and only if the runtime could be
      built, whose executor and policy it then has; a placeholder has no executor. */
  predicate Unpublished(db: DatabaseConfig, build: Build, r: Runtime) {
    && r.name == db.name && r.config == db && (r.connected <==> build.BuildOk?)
    && (build.BuildFailed? ==> !r.executor && !r.enabled && !r.stopped && r.statusTrust == "")
    && (build.BuildOk? ==>
          && r.executor == build.runtime.executor && r.stopped == build.runtime.stopped
          && r.trust == build.runtime.trust && r.mode == build.runtime.mode && r.enabled == build.runtime.enabled)
  }

  /** prepareCandidate: refused when a running database's new runtime cannot be built, otherwise a
      fresh generation. */
  method BuildOne(process: Process, c: Candidate, build: Build) returns (built: Candidate)
    requires process.Ok() && c.instance.None? && c.cfg.name != ""
    requires c.was.Some? ==> c.was.value in process.heap
    modifies process`heap, process`nextGen
    ensures process.Ok()
    ensures built.cfg == c.cfg && built.was == c.was
    ensures built.instance.None? <==>
      build.BuildFailed? && c.was.Some? && old(process.heap)[c.was.value].connected
    ensures built.instance.None? ==> process.heap == old(process.heap)
    ensures built.instance.Some? ==>
      && built.instance.value !in old(process.heap)
      && process.heap == old(process.heap)[built.instance.value := NewRuntime(c.cfg, build)]
      && CandidateOk(built, process.heap) && Unpublished(c.cfg, build, process.heap[built.instance.value])
  {
    if build.BuildFailed? && c.was.Some? && process.heap[c.was.value].connected {
      return c;
    }
    var g := process.nextGen;
    process.heap := process.heap[g := NewRuntime(c.cfg, build)];
    process.nextGen := g + 1;
    return c.(instance := Some(g));
  }

  /** Building stops at candidate i: the caller gave up, or a running database's new runtime could
      not be built. */
  predicate BuildStops(
    observed: seq<Candidate>, heap: map<Gen, Runtime>, builds: nat -> Build, cancelled: nat -> bool, i: nat)
    requires i < |observed|
  {
    || cancelled(i)
    || (builds(i).BuildFailed? && observed[i].was.Some? && observed[i].was.value in heap
        && heap[observed[i].was.value].connected)
  }

  /** The candidate is built as its config and build say. */
  predicate BuiltAs(c: Candidate, heap: map<Gen, Runtime>, build: Build) {
    CandidateOk(c, heap) && heap[c.instance.value] == NewRuntime(c.cfg, build)
  }

  /** The first n candidates are built, the others as observed; every generation beyond `heap0` is
      one of them. */
  ghost predicate BuiltUpTo(
    candidates: seq<Candidate>, observed: seq<Candidate>, heap0: map<Gen, Runtime>, heap: map<Gen, Runtime>,
    builds: nat -> Build, cancelled: nat -> bool, n: nat)
  {
    && n <= |observed| && Extends(heap0, heap)
    && BuiltFirst(candidates, observed, heap, builds, n)
    && (forall k :: 0 <= k < n ==> !BuildStops(observed, heap0, builds, cancelled, k))
    && FreshAre(candidates, heap0, heap)
  }

  ghost predicate BuiltFirst(
    candidates: seq<Candidate>, observed: seq<Candidate>, heap: map<Gen, Runtime>, builds: nat -> Build, n: nat)
  {
    && SameTargets(candidates, observed)
    && (forall k :: n <= k < |observed| ==> candidates[k] == observed[k])
    && (forall k :: 0 <= k < n && k < |candidates| ==> BuiltAs(candidates[k], heap, builds(k)))
  }

  ghost predicate FreshAre(candidates: seq<Candidate>, heap0: map<Gen, Runtime>, heap: map<Gen, Runtime>) {
    forall g :: g in heap && g !in heap0 <==> IsInstance(candidates, g)
  }

  /** One turn of the loop. */
  method BuildNext(
    process: Process, candidates: seq<Candidate>, build: Build, ghost observed: seq<Candidate>, ghost first: Fleet,
    ghost builds: nat -> Build, ghost cancelled: nat -> bool, i: nat)
    returns (ok: bool, all: seq<Candidate>)
    requires process.Ok() && Observed?(observed, process.instances) && i < |observed|
    requires Valid(first) && first.instances == process.instances
    requires BuiltUpTo(candidates, observed, first.heap, process.heap, builds, cancelled, i)
    requires build == builds(i) && !cancelled(i)
    modifies process`heap, process`nextGen
    ensures process.Ok()
    ensures ok ==> BuiltUpTo(all, observed, first.heap, process.heap, builds, cancelled, i + 1)
    ensures !ok ==>
      && all == candidates && process.heap == old(process.heap)
      && BuildStops(observed, first.heap, builds, cancelled, i)
  {
    ghost var heap := process.heap;
    assert candidates[i] == observed[i];
    WasKnown(observed, process.State(), first, i);
    var built := BuildOne(process, candidates[i], build);
    if built.instance.None? {
      return false, candidates;
    }
    all := candidates[i := built];
    BuiltOneMore(candidates, observed, first.heap, heap, process.heap, builds, cancelled, i, built);
    ok := true;
  }

  lemma BuiltOneMore(
    candidates: seq<Candidate>, observed: seq<Candidate>, heap0: map<Gen, Runtime>, heap: map<Gen, Runtime>,
    after: map<Gen, Runtime>, builds: nat -> Build, cancelled: nat -> bool, i: nat, built: Candidate)
    requires BuiltUpTo(candidates, observed, heap0, heap, builds, cancelled, i) && i < |observed|
    requires observed[i].instance.None? && built.cfg == observed[i].cfg && built.was == observed[i].was
    requires built.instance.Some? && built.instance.value !in heap
    requires after == heap[built.instance.value := NewRuntime(built.cfg, builds(i))] && CandidateOk(built, after)
    requires !BuildStops(observed, heap0, builds, cancelled, i)
    ensures BuiltUpTo(candidates[i := built], observed, heap0, after, builds, cancelled, i + 1)
  {
    assert candidates[i] == observed[i];
    BuiltNext(candidates, observed, heap, after, builds, i, built);
    FreshNext(candidates, i, built, heap0, heap, after);
    StopsNext(observed, heap0, builds, cancelled, i);
  }

  lemma StopsNext(
    observed: seq<Candidate>, heap0: map<Gen, Runtime>, builds: nat -> Build, cancelled: nat -> bool, i: nat)
    requires i < |observed| && forall k :: 0 <= k < i ==> !BuildStops(observed, heap0, builds, cancelled, k)
    requires !BuildStops(observed, heap0, builds, cancelled, i)
    ensures forall k :: 0 <= k < i + 1 ==> !BuildStops(observed, heap0, builds, cancelled, k)
  {
  }

  lemma FreshNext(
    candidates: seq<Candidate>, i: nat, built: Candidate, heap0: map<Gen, Runtime>, heap: map<Gen, Runtime>,
    after: map<Gen, Runtime>)
    requires i < |candidates| && candidates[i].instance.None? && built.instance.Some?
    requires built.instance.value !in heap && heap0.Keys <= heap.Keys && FreshAre(candidates, heap0, heap)
    requires after.Keys == heap.Keys + {built.instance.value}
    ensures FreshAre(candidates[i := built], heap0, after)
  {
    forall g: Gen
      ensures g in after && g !in heap0 <==> IsInstance(candidates[i := built], g)
    {
      FreshOne(candidates, i, built, heap0, heap, g);
    }
  }

  lemma BuiltNext(
    candidates: seq<Candidate>, observed: seq<Candidate>, heap: map<Gen, Runtime>, after: map<Gen, Runtime>,
    builds: nat -> Build, i: nat, built: Candidate)
    requires BuiltFirst(candidates, observed, heap, builds, i) && i < |observed| && Extends(heap, after)
    requires built.cfg == observed[i].cfg && built.was == observed[i].was && BuiltAs(built, after, builds(i))
    ensures BuiltFirst(candidates[i := built], observed, after, builds, i + 1)
  {
    var all := candidates[i := built];
    forall k | 0 <= k < i
      ensures BuiltAs(all[k], after, builds(k))
    {
      assert BuiltAs(candidates[k], heap, builds(k)) && all[k] == candidates[k];
      StillOk(candidates[k], heap, after);
    }
  }

  lemma FreshOne(
    candidates: seq<Candidate>, i: nat, built: Candidate, heap0: map<Gen, Runtime>, heap: map<Gen, Runtime>, g: Gen)
    requires i < |candidates| && candidates[i].instance.None? && built.instance.Some?
    requires built.instance.value !in heap && heap0.Keys <= heap.Keys
    requires g in heap && g !in heap0 <==> IsInstance(candidates, g)
    ensures (g in heap || g == built.instance.value) && g !in heap0 <==> IsInstance(candidates[i := built], g)
  {
    OneMore(candidates, i, built);
  }

  /** prepareCandidates: builds in order up to the first candidate at which building stops, if there
      is one. Every new generation is a fresh one recorded in its candidate. */
  method BuildCandidates(
    process: Process, observed: seq<Candidate>, builds: nat -> Build, cancelled: nat -> bool)
    returns (ok: bool, candidates: seq<Candidate>)
    requires process.Ok() && Observed?(observed, process.instances)
    modifies process`heap, process`nextGen
    ensures process.Ok()
    ensures ok ==> BuiltUpTo(candidates, observed, old(process.heap), process.heap, builds, cancelled, |observed|)
    ensures !ok ==> exists i ::
      && 0 <= i < |observed| && BuildStops(observed, old(process.heap), builds, cancelled, i)
      && BuiltUpTo(candidates, observed, old(process.heap), process.heap, builds, cancelled, i)
  {
    candidates := observed;
    ghost var first := process.State();
    assert forall g: Gen :: !IsInstance(observed, g);
    for i := 0 to |observed|
      invariant process.Ok() && BuiltUpTo(candidates, observed, first.heap, process.heap, builds, cancelled, i)
    {
      ok := false;
      if cancelled(i) {
        assert BuildStops(observed, first.heap, builds, cancelled, i);
        return;
      }
      ok, candidates := BuildNext(process, candidates, builds(i), observed, first, builds, cancelled, i);
      if !ok {
        return;
      }
    }
    ok := true;
  }

  lemma WasKnown(observed: seq<Candidate>, now: Fleet, first: Fleet, i: nat)
    requires Valid(now) && now.instances == first.instances && Valid(first) && Extends(first.heap, now.heap)
    requires Observed?(observed, now.instances) && i < |observed|
    ensures observed[i].was.Some? ==>
      && observed[i].was.value in now.heap && observed[i].was.value in first.heap
      && now.heap[observed[i].was.value] == first.heap[observed[i].was.value]
  {
  }

  ghost predicate SameTargets(a: seq<Candidate>, b: seq<Candidate>) {
    |a| == |b| && forall i :: 0 <= i < |a| ==> a[i].cfg == b[i].cfg && a[i].was == b[i].was
  }

  lemma StillOk(c: Candidate, a: map<Gen, Runtime>, b: map<Gen, Runtime>)
    requires CandidateOk(c, a) && Extends(a, b)
    ensures CandidateOk(c, b)
  {
  }

  lemma OneMore(cs: seq<Candidate>, i: nat, c: Candidate)
    requires i < |cs| && cs[i].instance.None? && c.instance.Some?
    ensures forall g: Gen :: IsInstance(cs[i := c], g) <==> IsInstance(cs, g) || c.instance == Some(g)
  {
    var all := cs[i := c];
    forall g: Gen
      ensures IsInstance(all, g) <==> IsInstance(cs, g) || c.instance == Some(g)
    {
      if IsInstance(cs, g) {
        var k :| 0 <= k < |cs| && cs[k].instance == Some(g);
        assert all[k] == cs[k];
      }
      assert all[i] == c;
    }
  }

  ghost predicate Observed?(cs: seq<Candidate>, instances: map<string, Gen>) {
    forall i :: 0 <= i < |cs| ==>
      cs[i].instance.None? && cs[i].cfg.name != "" && cs[i].was == Lookup(instances, cs[i].cfg.name)
  }

  ghost predicate Extends(a: map<Gen, Runtime>, b: map<Gen, Runtime>) {
    a.Keys <= b.Keys && forall g :: g in a ==> b[g] == a[g]
  }

  // ----- names of a prepared reload

  lemma DistinctConcat(a: seq<string>, b: seq<string>)
    requires Distinct(a) && Distinct(b) && forall x :: x in a ==> x !in b
    ensures Distinct(a + b)
  {
    forall i, j | 0 <= i < j < |a + b|
      ensures (a + b)[i] != (a + b)[j]
    {
      if i < |a| <= j {
        assert a[i] in a && b[j - |a|] in b;
      }
    }
  }

  lemma OneName(active: seq<DatabaseConfig>, desired: seq<DatabaseConfig>, plan: Plan, n: string)
    requires UniqueNames(active) && UniqueNames(desired) && IsPlan(active, desired, plan)
    ensures n in KeysOf(plan.add, NameOf) ==> n !in KeysOf(plan.rebuild, NameOf)
    ensures n in plan.remove ==> n !in KeysOf(plan.add, NameOf) + KeysOf(plan.rebuild, NameOf)
    ensures n in plan.remove ==> n !in KeysOf(plan.hot, NameOf)
    ensures n in KeysOf(plan.hot, NameOf) ==> n !in KeysOf(plan.add, NameOf) + KeysOf(plan.rebuild, NameOf)
    ensures n in KeysOf(plan.hot, NameOf) ==> n in plan.previous
    ensures n in plan.previous ==> plan.previous[n] in active && plan.previous[n].name == n
  {
    PlanPartition(active, desired, plan, n);
  }

  /** The names of a plan: candidates, removals and policy changes never meet. */
  ghost predicate SeparateNames(plan: Plan) {
    && Distinct(plan.remove)
    && Distinct(KeysOf(plan.hot, NameOf))
    && Distinct(KeysOf(plan.add + plan.rebuild, NameOf))
    && (forall n :: n in plan.remove ==>
          n !in KeysOf(plan.add + plan.rebuild, NameOf) && n !in KeysOf(plan.hot, NameOf))
    && (forall n :: n in KeysOf(plan.hot, NameOf) ==> n !in KeysOf(plan.add + plan.rebuild, NameOf))
  }

  lemma PlanNames(active: seq<DatabaseConfig>, desired: seq<DatabaseConfig>, plan: Plan)
    requires UniqueNames(active) && UniqueNames(desired) && IsPlan(active, desired, plan)
    ensures SeparateNames(plan)
  {
    PlanPartition(active, desired, plan, "");
    forall n: string
      ensures n in KeysOf(plan.add, NameOf) ==> n !in KeysOf(plan.rebuild, NameOf)
      ensures n in plan.remove ==> n !in KeysOf(plan.add, NameOf) + KeysOf(plan.rebuild, NameOf)
      ensures n in plan.remove ==> n !in KeysOf(plan.hot, NameOf)
      ensures n in KeysOf(plan.hot, NameOf) ==> n !in KeysOf(plan.add, NameOf) + KeysOf(plan.rebuild, NameOf)
    {
      OneName(active, desired, plan, n);
    }
    SeparateFrom(plan, KeysOf(plan.add, NameOf), KeysOf(plan.rebuild, NameOf), KeysOf(plan.hot, NameOf));
  }

  lemma SeparateFrom(plan: Plan, adds: seq<string>, rebuilds: seq<string>, hots: seq<string>)
    requires adds == KeysOf(plan.add, NameOf) && rebuilds == KeysOf(plan.rebuild, NameOf)
    requires hots == KeysOf(plan.hot, NameOf)
    requires Distinct(plan.remove) && Distinct(adds) && Distinct(rebuilds) && Distinct(hots)
    requires forall n :: n in adds ==> n !in rebuilds
    requires forall n :: n in plan.remove ==> n !in adds + rebuilds
    requires forall n :: n in plan.remove ==> n !in hots
    requires forall n :: n in hots ==> n !in adds + rebuilds
    ensures SeparateNames(plan)
  {
    assert KeysOf(plan.add + plan.rebuild, NameOf) == adds + rebuilds;
    DistinctConcat(adds, rebuilds);
  }

  /** Candidates have names; policy changes have names, a previous config and named levels. */
  ghost predicate UsableEntries(active: seq<DatabaseConfig>, plan: Plan) {
    && (forall i :: 0 <= i < |plan.add + plan.rebuild| ==> (plan.add + plan.rebuild)[i].name != "")
    && (forall i :: 0 <= i < |plan.hot| ==> HotEntry(active, plan, plan.hot[i]))
  }

  ghost predicate HotEntry(active: seq<DatabaseConfig>, plan: Plan, db: DatabaseConfig) {
    && ValidPolicy(db) && db.name != "" && db.name in plan.previous
    && plan.previous[db.name] in active && plan.previous[db.name].name == db.name
  }

  lemma PlanUsable(active: seq<DatabaseConfig>, desired: seq<DatabaseConfig>, plan: Plan)
    requires UniqueNames(active) && UniqueNames(desired) && IsPlan(active, desired, plan)
    requires forall db :: db in desired ==> db.name != ""
    requires forall db :: db in plan.add + plan.rebuild + plan.hot ==> ValidPolicy(db)
    ensures UsableEntries(active, plan)
  {
    PlanIsBetween(active, desired, plan);
    forall i | 0 <= i < |plan.add + plan.rebuild|
      ensures (plan.add + plan.rebuild)[i].name != ""
    {
      PlanFrom(active, desired, plan, (plan.add + plan.rebuild)[i]);
    }
    forall i | 0 <= i < |plan.hot|
      ensures HotEntry(active, plan, plan.hot[i])
    {
      var db := plan.hot[i];
      assert KeysOf(plan.hot, NameOf)[i] == db.name && db in plan.add + plan.rebuild + plan.hot;
      OneName(active, desired, plan, db.name);
      PlanFrom(active, desired, plan, db);
    }
  }

  lemma PlanFrom(active: seq<DatabaseConfig>, desired: seq<DatabaseConfig>, plan: Plan, db: DatabaseConfig)
    requires PlanBetween(Current(active), Current(desired), plan) && db in plan.add + plan.rebuild + plan.hot
    ensures db in desired
  {
    assert db in plan.add || db in plan.rebuild || db in plan.hot;
    assert db.name in Current(desired) && Current(desired)[db.name] == db;
  }

  /** The plan, unless it is refused. */
  method PlanOrRefuse(active: seq<DatabaseConfig>, desired: seq<DatabaseConfig>, controlName: string)
    returns (refused: bool, plan: Plan)
    requires UniqueNames(active) && UniqueNames(desired)
    requires forall db :: db in desired ==> db.name != ""
    ensures IsPlan(active, desired, plan) && refused == ValidatePlan(plan, controlName).Some?
    ensures SeparateNames(plan) && (!refused ==> UsableEntries(active, plan))
  {
    plan := PlanFleetReload(active, desired);
    PlanNames(active, desired, plan);
    refused := ValidatePlan(plan, controlName).Some?;
    if !refused {
      PlanUsable(active, desired, plan);
    }
  }

  /** One of the plan's runtimes cannot be built. */
  ghost predicate Unbuildable(plan: Plan, f: Fleet, builds: nat -> Build, cancelled: nat -> bool) {
    exists i :: 0 <= i < |plan.add + plan.rebuild|
      && BuildStops(Observed(f.instances, plan.add + plan.rebuild), f.heap, builds, cancelled, i)
  }

  /** Why no reload was prepared: the plan is refused, or one of its runtimes could not be built. */
  ghost predicate NotPreparable(
    plan: Plan, controlName: string, f: Fleet, builds: nat -> Build, cancelled: nat -> bool)
  {
    ValidatePlan(plan, controlName).Some? || Unbuildable(plan, f, builds, cancelled)
  }

  /** The reload observes exactly the plan: a candidate for every added and rebuilt database, every
      registered removed name, every registered hot one. */
  ghost predicate Observes(p: Prepared, plan: Plan, instances: map<string, Gen>) {
    && (forall i :: 0 <= i < |plan.hot| ==> plan.hot[i].name in plan.previous)
    && p.removals == RemovalsOf(instances, plan.remove)
    && p.hot == HotOf(instances, plan.hot, plan.previous)
    && SameTargets(p.candidates, Observed(instances, plan.add + plan.rebuild))
  }

  /** Every candidate runtime carries the config it is for. */
  ghost predicate Configured(p: Prepared, heap: map<Gen, Runtime>) {
    forall i :: 0 <= i < |p.candidates| ==>
      p.candidates[i].instance.Some? && p.candidates[i].instance.value in heap
      && heap[p.candidates[i].instance.value].config == p.candidates[i].cfg
  }

  /** The reload observes exactly the plan, its observations are current, the registry is untouched,
      and every generation made since `start` is one of its candidates, built as desired. */
  ghost predicate PreparedFor(p: Prepared, plan: Plan, f: Fleet, start: Fleet, builds: nat -> Build) {
    && SeparateNames(plan) && Observes(p, plan, f.instances) && Configured(p, f.heap)
    && (forall i :: 0 <= i < |p.candidates| ==> BuiltAs(p.candidates[i], f.heap, builds(i)))
    && WellPrepared(p, f.heap) && Validates(f, p)
    && f.instances == start.instances && f.primary == start.primary && Extends(start.heap, f.heap)
    && (forall g :: g in f.heap && g !in start.heap <==> IsCandidate(p, g))
  }

  /** Prepare: nothing is prepared exactly when the plan is refused or a runtime cannot be built, and
      then nothing is published and no runtime left running; a prepared reload observes exactly the
      plan, its observations are current, and every generation built for it is one of its
      candidates. */
  method Prepare(
    process: Process, active: seq<DatabaseConfig>, desired: seq<DatabaseConfig>, controlName: string,
    nextMode: string, builds: nat -> Build, cancelled: nat -> bool)
    returns (r: Option<PreparedReload>)
    requires process.Ok()
    requires UniqueNames(active) && UniqueNames(desired)
    requires forall db :: db in desired ==> db.name != ""
    modifies process`heap, process`nextGen, process`down
    ensures process.Ok() && Extends(old(process.heap), process.heap)
    ensures r.None? ==>
      && process.down == old(process.down) + (process.heap.Keys - old(process.heap.Keys))
      && exists plan :: IsPlan(active, desired, plan)
           && NotPreparable(plan, controlName, old(process.State()), builds, cancelled)
    ensures r.Some? ==>
      && fresh(r.value) && r.value.process == process && !r.value.committed && r.value.nextMode == nextMode
      && IsPlan(active, desired, r.value.plan)
      && !NotPreparable(r.value.plan, controlName, old(process.State()), builds, cancelled)
      && PreparedFor(r.value.Data(), r.value.plan, process.State(), old(process.State()), builds)
      && process.down == old(process.down)
      && r.value.Ready?()
  {
    var refused, plan := PlanOrRefuse(active, desired, controlName);
    if refused {
      assert NotPreparable(plan, controlName, process.State(), builds, cancelled);
      return None;
    }
    r := PrepareWith(process, active, plan, nextMode, builds, cancelled);
    assert ValidatePlan(plan, controlName).None?;
  }

  /** Preparing an accepted plan. */
  method PrepareWith(
    process: Process, ghost active: seq<DatabaseConfig>, plan: Plan, nextMode: string, builds: nat -> Build,
    cancelled: nat -> bool)
    returns (r: Option<PreparedReload>)
    requires process.Ok() && SeparateNames(plan) && UsableEntries(active, plan)
    modifies process`heap, process`nextGen, process`down
    ensures process.Ok() && Extends(old(process.heap), process.heap)
    ensures r.None? <==> Unbuildable(plan, old(process.State()), builds, cancelled)
    ensures r.None? ==> process.down == old(process.down) + (process.heap.Keys - old(process.heap.Keys))
    ensures r.Some? ==>
      && fresh(r.value) && r.value.process == process && !r.value.committed && r.value.plan == plan
      && r.value.nextMode == nextMode
      && PreparedFor(r.value.Data(), plan, process.State(), old(process.State()), builds)
      && process.down == old(process.down) && r.value.Ready?()
  {
    var observed := Observed(process.instances, plan.add + plan.rebuild);
    var removals := ObserveRemovals(process, plan.remove);
    HotNamed(active, plan);
    var hot := ObserveHot(process, plan.hot, plan.previous);
    ghost var before := process.State();
    var ok, candidates := BuildCandidates(process, observed, builds, cancelled);
    if !ok {
      Discard(process, candidates, before.heap);
      return None;
    }
    var data := Prepared(removals, candidates, hot);
    PreparedFromPlan(active, plan, data, process.State(), builds);
    StepsKnown(data, process.heap);
    var reload := new PreparedReload(process, plan, data, nextMode, process.defaultMode);
    return Some(reload);
  }

  lemma HotNamed(active: seq<DatabaseConfig>, plan: Plan)
    requires UsableEntries(active, plan)
    ensures forall i :: 0 <= i < |plan.hot| ==> plan.hot[i].name in plan.previous
  {
    forall i | 0 <= i < |plan.hot|
      ensures plan.hot[i].name in plan.previous
    {
      assert HotEntry(active, plan, plan.hot[i]);
    }
  }

  lemma PreparedFromPlan(active: seq<DatabaseConfig>, plan: Plan, data: Prepared, f: Fleet, builds: nat -> Build)
    requires Valid(f) && SeparateNames(plan) && UsableEntries(active, plan) && Observes(data, plan, f.instances)
    requires forall i :: 0 <= i < |data.candidates| ==> BuiltAs(data.candidates[i], f.heap, builds(i))
    ensures WellPrepared(data, f.heap) && Validates(f, data) && Configured(data, f.heap)
  {
    RemovalsAre(f, plan.remove);
    HotAre(f, plan.hot, plan.previous);
    forall i | 0 <= i < |data.candidates|
      ensures CandidateOk(data.candidates[i], f.heap)
      ensures f.heap[data.candidates[i].instance.value].config == data.candidates[i].cfg
    {
      assert BuiltAs(data.candidates[i], f.heap, builds(i));
    }
    PreparedWell(active, plan, data, f, Observed(f.instances, plan.add + plan.rebuild));
  }

  method Discard(process: Process, candidates: seq<Candidate>, ghost before: map<Gen, Runtime>)
    requires forall g :: g in process.heap && g !in before <==> IsInstance(candidates, g)
    modifies process`down
    ensures process.down == old(process.down) + (process.heap.Keys - before.Keys)
  {
    DiscardCandidates(process, candidates);
    forall g
      ensures g in process.down <==> g in old(process.down) || (g in process.heap && g !in before)
    {
      assert g in process.heap && g !in before <==> IsInstance(candidates, g);
    }
  }

  lemma StepsKnown(data: Prepared, heap: map<Gen, Runtime>)
    requires WellPrepared(data, heap)
    ensures AllKnown(heap, StepsOf(data))
  {
    forall i | 0 <= i < |StepsOf(data)|
      ensures Known(heap, StepsOf(data)[i])
    {
      NameOfStep(data, heap, i);
    }
  }

  lemma PreparedWell(
    active: seq<DatabaseConfig>, plan: Plan, data: Prepared, f: Fleet, observed: seq<Candidate>)
    requires Valid(f) && SeparateNames(plan) && UsableEntries(active, plan)
    requires observed == Observed(f.instances, plan.add + plan.rebuild)
    requires SameTargets(data.candidates, observed)
    requires forall i :: 0 <= i < |data.candidates| ==> CandidateOk(data.candidates[i], f.heap)
    requires Registered(f, plan.remove, data.removals)
    requires HotList(f, plan.hot, plan.previous, data.hot)
    ensures WellPrepared(data, f.heap)
    ensures Validates(f, data)
  {
    forall i | 0 <= i < |data.hot|
      ensures HotOk(data.hot[i], f.heap) && data.hot[i].cfg.name in KeysOf(plan.hot, NameOf)
    {
      var h := data.hot[i];
      assert HotFor(f, plan.hot, plan.previous, h);
      var k :| 0 <= k < |plan.hot| && plan.hot[k] == h.cfg;
      assert HotEntry(active, plan, plan.hot[k]);
      assert KeysOf(plan.hot, NameOf)[k] == h.cfg.name;
    }
    forall i | 0 <= i < |data.candidates|
      ensures data.candidates[i].cfg.name == KeysOf(plan.add + plan.rebuild, NameOf)[i]
      ensures CandidateCurrent(f, data.candidates[i])
    {
      assert data.candidates[i].cfg == observed[i].cfg;
      assert CandidateOk(data.candidates[i], f.heap);
    }
    NamesStayDistinct(plan, data, f);
  }

  lemma NamesStayDistinct(plan: Plan, data: Prepared, f: Fleet)
    requires SeparateNames(plan) && |data.candidates| == |plan.add + plan.rebuild|
    requires forall i :: 0 <= i < |data.removals| ==>
      data.removals[i] in f.heap && f.heap[data.removals[i]].name in plan.remove
    requires forall i, j :: 0 <= i < j < |data.removals| ==>
      f.heap[data.removals[i]].name != f.heap[data.removals[j]].name
    requires forall i :: 0 <= i < |data.candidates| ==>
      data.candidates[i].cfg.name == KeysOf(plan.add + plan.rebuild, NameOf)[i]
    requires forall i :: 0 <= i < |data.hot| ==> data.hot[i].cfg.name in KeysOf(plan.hot, NameOf)
    requires forall i, j :: 0 <= i < j < |data.hot| ==> data.hot[i].cfg.name != data.hot[j].cfg.name
    ensures Distinct(ReloadNames(data, f.heap))
  {
    var keys := KeysOf(plan.add + plan.rebuild, NameOf);
    var removed := seq(|data.removals|, i requires 0 <= i < |data.removals| => GenName(f.heap, data.removals[i]));
    var built := seq(|data.candidates|, i requires 0 <= i < |data.candidates| => data.candidates[i].cfg.name);
    var hot := seq(|data.hot|, i requires 0 <= i < |data.hot| => data.hot[i].cfg.name);
    assert built == keys;
    assert forall x :: x in removed ==> x in plan.remove;
    assert forall x :: x in hot ==> x in KeysOf(plan.hot, NameOf);
    DistinctConcat(removed, keys);
    DistinctConcat(removed + keys, hot);
    assert ReloadNames(data, f.heap) == removed + built + hot;
  }
}
