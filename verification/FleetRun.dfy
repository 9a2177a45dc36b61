/** One reload from plan to end, with everything that can happen on the way. */
module FleetRun {
  import opened Names
  import opened FleetPlan
  import opened FleetRegistry
  import opened FleetSteps
  import opened FleetAtomicity
  import opened FleetReload
  import opened FleetOwner
  import opened FleetPrepare
  import opened FleetOthers
  import opened FleetLate

  // ----- others, acting on the process

  ghost function SceneOf(process: Process): Scene
    reads process
  {
    Scene(process.State(), process.down, process.nextGen)
  }

  method NewGeneration(process: Process, r: Runtime) returns (g: Gen)
    requires process.Ok() && r.name != ""
    modifies process`heap, process`nextGen
    ensures old(process.heap.Keys) <= process.heap.Keys
    ensures process.Ok() && g == old(process.nextGen) && process.nextGen == g + 1
    ensures process.State() == WithNew(old(SceneOf(process)), r)
  {
    g := process.nextGen;
    process.heap := process.heap[g := r];
    process.nextGen := g + 1;
  }

  method RemoveOther(process: Process, n: string)
    requires process.Ok()
    modifies process`instances, process`primary, process`heap, process`down
    ensures old(process.heap.Keys) <= process.heap.Keys
    ensures process.Ok() && SceneOf(process) == Removed(old(SceneOf(process)), n)
  {
    if n in process.instances {
      var g := process.instances[n];
      var _ := process.Perform(DetachStep(g));
      process.down := process.down + {g};
    }
  }

  method RegisterFresh(process: Process, r: Runtime) returns (g: Gen, ok: bool)
    requires process.Ok() && r.name != ""
    modifies process`instances, process`primary, process`heap, process`nextGen
    ensures old(process.heap.Keys) <= process.heap.Keys
    ensures process.Ok() && g == old(process.nextGen) && process.nextGen == g + 1
    ensures var o := Register(WithNew(old(SceneOf(process)), r), g, old(process.Environment()));
      process.State() == o.fleet && ok == o.ok
  {
    g := NewGeneration(process, r);
    DoIsRegister(process.State(), g, process.Environment());
    ok := process.Perform(RegisterStep(g));
  }

  lemma DoIsRegister(f: Fleet, g: Gen, env: Env)
    requires g in f.heap
    ensures Do(f, RegisterStep(g), env) == Register(f, g, env)
  {
  }

  lemma DoIsReplace(f: Fleet, n: string, was: Gen, cand: Gen, env: Env)
    requires was in f.heap && cand in f.heap
    ensures Do(f, ReplaceStep(n, was, cand), env) == Replace(f, n, was, cand, env)
  {
  }

  method CreateOther(process: Process, r: Runtime)
    requires process.Ok()
    modifies process`instances, process`primary, process`heap, process`nextGen, process`down
    ensures old(process.heap.Keys) <= process.heap.Keys
    ensures process.Ok() && SceneOf(process) == Created(old(SceneOf(process)), r, old(process.Environment()))
  {
    if r.name != "" {
      var g, ok := RegisterFresh(process, r);
      if !ok {
        process.down := process.down + {g};
      }
    }
  }

  method ReplaceWithFresh(process: Process, n: string, was: Gen, r: Runtime) returns (g: Gen, ok: bool)
    requires process.Ok() && r.name != "" && was in process.heap
    modifies process`instances, process`primary, process`heap, process`nextGen
    ensures old(process.heap.Keys) <= process.heap.Keys
    ensures process.Ok() && g == old(process.nextGen) && process.nextGen == g + 1
    ensures var o := Replace(WithNew(old(SceneOf(process)), r), n, was, g, old(process.Environment()));
      process.State() == o.fleet && ok == o.ok
  {
    g := NewGeneration(process, r);
    DoIsReplace(process.State(), n, was, g, process.Environment());
    ok := process.Perform(ReplaceStep(n, was, g));
  }

  method SwapOther(process: Process, n: string, r: Runtime)
    requires process.Ok()
    modifies process`instances, process`primary, process`heap, process`nextGen, process`down
    ensures old(process.heap.Keys) <= process.heap.Keys
    ensures process.Ok() && SceneOf(process) == Swapped(old(SceneOf(process)), n, r, old(process.Environment()))
  {
    if r.name != "" && n in process.instances {
      var was := process.instances[n];
      var g, ok := ReplaceWithFresh(process, n, was, r);
      process.down := process.down + {if ok then was else g};
    }
  }

  method TweakOther(process: Process, n: string, r: Runtime)
    requires process.Ok()
    modifies process`heap
    ensures old(process.heap.Keys) <= process.heap.Keys
    ensures process.Ok() && SceneOf(process) == Retouched(old(SceneOf(process)), n, r)
  {
    if n in process.instances {
      var g := process.instances[n];
      process.heap := process.heap[g := Tweaked(process.heap[g], r)];
    }
  }

  method Other(process: Process, op: Foreign)
    requires process.Ok()
    modifies process`instances, process`primary, process`heap, process`nextGen, process`down
    ensures old(process.heap.Keys) <= process.heap.Keys
    ensures process.Ok() && SceneOf(process) == Meddle(old(SceneOf(process)), op, old(process.Environment()))
  {
    match op {
      case Remove(n) => RemoveOther(process, n);
      case Create(r) => CreateOther(process, r);
      case Swap(n, r) => SwapOther(process, n, r);
      case Tweak(n, r) => TweakOther(process, n, r);
    }
  }

  /** Others act in turn: exactly what the operations leave. */
  method Interfere(process: Process, ops: seq<Foreign>)
    requires process.Ok()
    modifies process`instances, process`primary, process`heap, process`nextGen, process`down
    ensures old(process.heap.Keys) <= process.heap.Keys
    ensures process.Ok() && SceneOf(process) == MeddleAll(old(SceneOf(process)), ops, old(process.Environment()))
  {
    for i := 0 to |ops|
      invariant process.Ok() && old(process.heap.Keys) <= process.heap.Keys
      invariant SceneOf(process) == MeddleAll(old(SceneOf(process)), ops[..i], old(process.Environment()))
    {
      assert ops[..i + 1][..i] == ops[..i];
      Other(process, ops[i]);
    }
    assert ops[..|ops|] == ops;
  }

  // ----- what an applied reload has done

  /** The name is served by a generation made since `start`, configured as desired. */
  ghost predicate Renewed(start: Fleet, after: Fleet, n: string, db: DatabaseConfig) {
    && n in after.instances && after.instances[n] in after.heap && after.instances[n] !in start.heap
    && after.heap[after.instances[n]].config == db
  }

  /** The name keeps its generation, whose policy is now the desired one. */
  ghost predicate MovedInPlace(f: Fleet, after: Fleet, n: string, db: DatabaseConfig, env: Env) {
    && n in f.instances && n in after.instances && after.instances[n] == f.instances[n]
    && f.instances[n] in f.heap && f.instances[n] in after.heap
    && PolicyRuns(f.heap[f.instances[n]], after.heap[f.instances[n]], db, env)
  }

  /** What an applied reload has done about one name: `start` is the fleet when it was prepared,
      `f` when it was committed. */
  ghost predicate Reached(
    start: Fleet, f: Fleet, after: Fleet, env: Env, current: map<string, DatabaseConfig>,
    want: map<string, DatabaseConfig>, n: string)
  {
    if n in want then
      match Decide(current, want[n])
      case Add => Renewed(start, after, n, want[n])
      case Keep => SameAt(f, after, n)
      case Apply(change) =>
        if change == Rebuild then Renewed(start, after, n, want[n])
        else if n in start.instances then MovedInPlace(f, after, n, want[n], env)
        else SameAt(f, after, n)
    else if n in current && n in start.instances then n !in after.instances
    else SameAt(f, after, n)
  }

  /** The reload has done its work about every name. */
  ghost predicate DesiredReached(
    start: Fleet, f: Fleet, after: Fleet, env: Env, active: seq<DatabaseConfig>, desired: seq<DatabaseConfig>)
  {
    forall n :: Reached(start, f, after, env, Current(active), Current(desired), n)
  }

  lemma {:induction false} CandidateDone(f: Fleet, p: Prepared, env: Env, i: nat)
    requires WellPrepared(p, f.heap) && Valid(f) && Validates(f, p) && AllReady(f, StepsOf(p)) && i < |p.candidates|
    ensures var c, after := p.candidates[i], DoAll(f, StepsOf(p), env);
      var g := c.instance.value;
      && g in f.heap && g in after.heap && c.cfg.name in after.instances && after.instances[c.cfg.name] == g
      && after.heap[g].config == f.heap[g].config
  {
    var steps, c := StepsOf(p), p.candidates[i];
    var k := |p.removals| + i;
    StepAt(p, k);
    assert CandidateOk(c, f.heap) && Ready(f, steps[k]);
    RunThere(f, steps, env, env, k);
    DoSucceeds(f, steps[k], env);
    CandidateConfig(f, p, env, i);
  }

  lemma {:induction false} CandidateConfig(f: Fleet, p: Prepared, env: Env, i: nat)
    requires WellPrepared(p, f.heap) && Valid(f) && Validates(f, p) && AllReady(f, StepsOf(p)) && i < |p.candidates|
    ensures var g, after := p.candidates[i].instance.value, DoAll(f, StepsOf(p), env);
      g in f.heap && g in after.heap && after.heap[g].config == f.heap[g].config
  {
    var steps, g := StepsOf(p), p.candidates[i].instance.value;
    var k := |p.removals| + i;
    StepAt(p, k);
    assert CandidateOk(p.candidates[i], f.heap) && Ready(f, steps[k]) && !Moves(steps[k], g);
    RunRuntime(f, steps, env, env, k, g);
  }

  lemma {:induction false} RemovalDone(f: Fleet, p: Prepared, env: Env, i: nat)
    requires WellPrepared(p, f.heap) && Valid(f) && Validates(f, p) && AllReady(f, StepsOf(p)) && i < |p.removals|
    ensures p.removals[i] in f.heap && f.heap[p.removals[i]].name !in DoAll(f, StepsOf(p), env).instances
  {
    var steps := StepsOf(p);
    StepAt(p, i);
    assert Ready(f, steps[i]);
    RunThere(f, steps, env, env, i);
    DoSucceeds(f, steps[i], env);
  }

  lemma {:induction false} HotChanged(f: Fleet, p: Prepared, env: Env, i: nat)
    requires WellPrepared(p, f.heap) && Valid(f) && Validates(f, p) && AllReady(f, StepsOf(p)) && i < |p.hot|
    ensures MovedInPlace(f, DoAll(f, StepsOf(p), env), p.hot[i].cfg.name, p.hot[i].cfg, env)
  {
    var steps := StepsOf(p);
    StepAt(p, HotStep(p, i));
    assert HotOk(p.hot[i], f.heap) && Ready(f, steps[HotStep(p, i)]);
    assert steps[..|steps|] == steps;
    HotDone(f, p, |steps|, env, env, i);
    WithPolicyRuns(f.heap[p.hot[i].instance], DoAll(f, steps, env).heap[p.hot[i].instance], p.hot[i].cfg, env);
    HotRegistered(f, p, env, i);
  }

  lemma {:induction false} HotRegistered(f: Fleet, p: Prepared, env: Env, i: nat)
    requires WellPrepared(p, f.heap) && Valid(f) && Validates(f, p) && AllReady(f, StepsOf(p)) && i < |p.hot|
    ensures var n, after := p.hot[i].cfg.name, DoAll(f, StepsOf(p), env);
      && n in f.instances && f.instances[n] == p.hot[i].instance
      && n in after.instances && after.instances[n] == f.instances[n]
  {
    var steps := StepsOf(p);
    StepAt(p, HotStep(p, i));
    assert HotOk(p.hot[i], f.heap) && Ready(f, steps[HotStep(p, i)]);
    RunThere(f, steps, env, env, HotStep(p, i));
    DoSucceeds(f, steps[HotStep(p, i)], env);
  }

  /** A name the reload does not list is left alone. */
  lemma {:induction false} Unlisted(f: Fleet, p: Prepared, env: Env, n: string)
    requires WellPrepared(p, f.heap) && Valid(f) && Validates(f, p) && AllReady(f, StepsOf(p))
    requires n !in ReloadNames(p, f.heap)
    ensures SameAt(f, DoAll(f, StepsOf(p), env), n)
  {
    var steps := StepsOf(p);
    forall i | 0 <= i < |steps|
      ensures !(Known(f.heap, steps[i]) && NameAt(f.heap, steps[i]) == n)
    {
      NameOfStep(p, f.heap, i);
      assert ReloadNames(p, f.heap)[i] in ReloadNames(p, f.heap);
    }
    RunElsewhere(f, steps, env, env, n);
  }

  /** The names a reload lists: those added or rebuilt, and the registered ones removed or hot. */
  lemma ListedNamesOf(start: Fleet, f: Fleet, p: Prepared, plan: Plan, n: string)
    requires Valid(start) && SeparateNames(plan) && Observes(p, plan, start.instances) && Keeps(start.heap, f.heap)
    requires n in ReloadNames(p, f.heap)
    ensures || (n in plan.remove && n in start.instances)
      || n in KeysOf(plan.add + plan.rebuild, NameOf)
      || (n in KeysOf(plan.hot, NameOf) && n in start.instances)
  {
    var i :| 0 <= i < |ReloadNames(p, f.heap)| && ReloadNames(p, f.heap)[i] == n;
    var a, b := |p.removals|, |p.candidates|;
    if i < a {
      RemovalListed(start, f, p, plan, i);
    } else if i < a + b {
      assert p.candidates[i - a].cfg == (plan.add + plan.rebuild)[i - a];
      assert KeysOf(plan.add + plan.rebuild, NameOf)[i - a] == n;
    } else {
      HotListed(start, p, plan, i - a - b);
    }
  }

  lemma RemovalListed(start: Fleet, f: Fleet, p: Prepared, plan: Plan, i: nat)
    requires Valid(start) && Distinct(plan.remove) && Keeps(start.heap, f.heap)
    requires p.removals == RemovalsOf(start.instances, plan.remove) && i < |p.removals|
    ensures GenName(f.heap, p.removals[i]) in plan.remove && GenName(f.heap, p.removals[i]) in start.instances
  {
    RemovalsAre(start, plan.remove);
    assert p.removals[i] in start.heap && Current?(start, p.removals[i]);
  }

  lemma HotListed(start: Fleet, p: Prepared, plan: Plan, i: nat)
    requires Valid(start) && SeparateNames(plan) && Observes(p, plan, start.instances) && i < |p.hot|
    ensures p.hot[i].cfg.name in KeysOf(plan.hot, NameOf) && p.hot[i].cfg.name in start.instances
  {
    HotAre(start, plan.hot, plan.previous);
    var h := p.hot[i];
    assert HotFor(start, plan.hot, plan.previous, h);
    var k :| 0 <= k < |plan.hot| && plan.hot[k] == h.cfg;
    assert KeysOf(plan.hot, NameOf)[k] == h.cfg.name;
  }

  /** What relates a reload being committed to its plan. */
  ghost predicate Carries(start: Fleet, f: Fleet, p: Prepared, plan: Plan) {
    && Valid(start) && Valid(f) && Keeps(start.heap, f.heap)
    && SeparateNames(plan) && Observes(p, plan, start.instances)
    && WellPrepared(p, f.heap) && Validates(f, p) && AllReady(f, StepsOf(p)) && Configured(p, f.heap)
    && (forall g :: IsCandidate(p, g) ==> g !in start.heap)
  }

  lemma RenewedDone(start: Fleet, f: Fleet, p: Prepared, plan: Plan, env: Env, db: DatabaseConfig)
    requires Carries(start, f, p, plan) && db in plan.add + plan.rebuild
    ensures Renewed(start, DoAll(f, StepsOf(p), env), db.name, db)
  {
    var i :| 0 <= i < |plan.add + plan.rebuild| && (plan.add + plan.rebuild)[i] == db;
    assert p.candidates[i].cfg == db;
    CandidateDone(f, p, env, i);
    assert IsCandidate(p, p.candidates[i].instance.value);
  }

  lemma HotReached(start: Fleet, f: Fleet, p: Prepared, plan: Plan, env: Env, db: DatabaseConfig)
    requires Carries(start, f, p, plan) && db in plan.hot && db.name in start.instances
    ensures MovedInPlace(f, DoAll(f, StepsOf(p), env), db.name, db, env)
  {
    HotAre(start, plan.hot, plan.previous);
    var h := HotChange(start.instances[db.name], plan.previous[db.name], db);
    assert h in p.hot;
    var i :| 0 <= i < |p.hot| && p.hot[i] == h;
    HotChanged(f, p, env, i);
  }

  lemma RemovedDone(start: Fleet, f: Fleet, p: Prepared, plan: Plan, env: Env, n: string)
    requires Carries(start, f, p, plan) && n in plan.remove && n in start.instances
    ensures n !in DoAll(f, StepsOf(p), env).instances
  {
    RemovalsAre(start, plan.remove);
    var i :| 0 <= i < |p.removals| && p.removals[i] == start.instances[n];
    RemovalDone(f, p, env, i);
  }

  lemma LeftAlone(start: Fleet, f: Fleet, p: Prepared, plan: Plan, env: Env, n: string)
    requires Carries(start, f, p, plan)
    requires !(n in plan.remove && n in start.instances) && n !in KeysOf(plan.add + plan.rebuild, NameOf)
    requires !(n in KeysOf(plan.hot, NameOf) && n in start.instances)
    ensures SameAt(f, DoAll(f, StepsOf(p), env), n)
  {
    if n in ReloadNames(p, f.heap) {
      ListedNamesOf(start, f, p, plan, n);
    }
    Unlisted(f, p, env, n);
  }

  /** Carrying the plan out reaches the desired fleet, name by name. */
  lemma PlanReached(
    start: Fleet, f: Fleet, p: Prepared, plan: Plan, active: seq<DatabaseConfig>, desired: seq<DatabaseConfig>,
    env: Env, n: string)
    requires Carries(start, f, p, plan)
    requires UniqueNames(active) && UniqueNames(desired) && IsPlan(active, desired, plan)
    ensures Reached(start, f, DoAll(f, StepsOf(p), env), env, Current(active), Current(desired), n)
  {
    PlanIsBetween(active, desired, plan);
    NameReached(start, f, p, plan, env, Current(active), Current(desired), n);
  }

  lemma {:induction false} NameReached(
    start: Fleet, f: Fleet, p: Prepared, plan: Plan, env: Env, current: map<string, DatabaseConfig>,
    want: map<string, DatabaseConfig>, n: string)
    requires Carries(start, f, p, plan) && PlanBetween(current, want, plan)
    requires forall m :: m in want ==> want[m].name == m
    ensures Reached(start, f, DoAll(f, StepsOf(p), env), env, current, want, n)
  {
    NamesApart(current, want, plan, n);
    if n in want && (Decide(current, want[n]) == Add || Decide(current, want[n]) == Apply(Rebuild)) {
      RenewedDone(start, f, p, plan, env, want[n]);
    } else if n in want && Decide(current, want[n]) == Apply(Hot) && n in start.instances {
      HotReached(start, f, p, plan, env, want[n]);
    } else if n !in want && n in current && n in start.instances {
      RemovedDone(start, f, p, plan, env, n);
    } else {
      LeftAlone(start, f, p, plan, env, n);
    }
  }

  lemma NamesApart(
    current: map<string, DatabaseConfig>, want: map<string, DatabaseConfig>, plan: Plan, n: string)
    requires PlanBetween(current, want, plan) && forall m :: m in want ==> want[m].name == m
    ensures n in KeysOf(plan.add + plan.rebuild, NameOf) <==>
      n in want && (Decide(current, want[n]) == Add || Decide(current, want[n]) == Apply(Rebuild))
    ensures n in KeysOf(plan.hot, NameOf) <==> n in want && Decide(current, want[n]) == Apply(Hot)
    ensures n in want ==> want[n].name == n
    ensures n in want && Decide(current, want[n]) == Add ==> want[n] in plan.add + plan.rebuild
    ensures n in want && Decide(current, want[n]) == Apply(Rebuild) ==> want[n] in plan.add + plan.rebuild
    ensures n in want && Decide(current, want[n]) == Apply(Hot) ==> want[n] in plan.hot
  {
    ListedNames(current, want, Add, plan.add);
    ListedNames(current, want, Apply(Rebuild), plan.rebuild);
    ListedNames(current, want, Apply(Hot), plan.hot);
    assert KeysOf(plan.add + plan.rebuild, NameOf) == KeysOf(plan.add, NameOf) + KeysOf(plan.rebuild, NameOf);
  }

  // ----- the whole reload

  datatype Ending = NotPrepared | NotCommitted | RolledBack | Applied

  /** What a reload went through once it was prepared: the reload and its plan, and the scene when it
      was prepared, when it was committed, and when it was drained or rolled back. */
  datatype Trail = Trail(p: Prepared, plan: Plan, ready: Scene, found: Scene, late: Scene)

  /** Commit goes through: nothing is stale and no step is stopped. */
  ghost predicate Commits(f: Fleet, p: Prepared, fault: int)
    requires Built(p)
  {
    Validates(f, p) && !(0 <= fault < |StepsOf(p)|)
  }

  /** How a prepared reload ends. */
  ghost function EndingOf(f: Fleet, p: Prepared, fault: int, otherOwnerFails: bool): Ending
    requires Built(p)
  {
    if !Commits(f, p, fault) then NotCommitted else if otherOwnerFails then RolledBack else Applied
  }

  /** The whole way of a prepared reload: others act before the commit and after it, the commit goes
      through or not, and then the retired generations are drained or the reload is rolled back. */
  ghost predicate Went(
    start: Scene, env: Env, next: Env, builds: nat -> Build, t: Trail, before: seq<Foreign>, fault: int,
    after: seq<Foreign>, otherOwnerFails: bool, ending: Ending, end: Scene)
  {
    && SceneOk(t.ready) && PreparedFor(t.p, t.plan, t.ready.fleet, start.fleet, builds) && t.ready.down == start.down
    && t.found == MeddleAll(t.ready, before, env)
    && ending == EndingOf(t.found.fleet, t.p, fault, otherOwnerFails)
    && t.late == MeddleAll(t.found.(fleet := CommitRun(t.found.fleet, t.p, env, fault).fleet), after,
                           if ending.NotCommitted? then env else next)
    && end == Scene(if ending.RolledBack? then RollbackRun(t.late.fleet, t.p, next).fleet else t.late.fleet,
                    t.late.down + if ending.Applied? then Retired(t.p) else Candidates(t.p), t.late.next)
  }

  lemma WellPreparedStays(p: Prepared, a: map<Gen, Runtime>, b: map<Gen, Runtime>)
    requires WellPrepared(p, a) && Keeps(a, b)
    ensures WellPrepared(p, b) && AllKnown(b, StepsOf(p))
  {
    forall i | 0 <= i < |p.candidates|
      ensures CandidateOk(p.candidates[i], b)
    {
      assert CandidateOk(p.candidates[i], a);
    }
    forall i | 0 <= i < |p.hot|
      ensures HotOk(p.hot[i], b)
    {
      assert HotOk(p.hot[i], a);
    }
    assert ReloadNames(p, b) == ReloadNames(p, a);
    StepsKnown(p, b);
  }

  lemma HeldSets(p: Prepared, g: Gen)
    ensures g in Candidates(p) <==> IsCandidate(p, g)
    ensures g in Retired(p) <==> IsRetired(p, g)
  {
  }

  /** When a reload is prepared its candidates are held and everything else is accounted for. */
  lemma ReadyStanding(start: Scene, ready: Scene, p: Prepared, plan: Plan, builds: nat -> Build)
    requires SceneOk(ready) && PreparedFor(p, plan, ready.fleet, start.fleet, builds) && ready.down == start.down
    requires forall g :: g in start.down ==> g in start.fleet.heap && !Current?(start.fleet, g)
    ensures Standing(start.fleet, ready.fleet, ready.down, Candidates(p))
    ensures forall g :: g in Candidates(p) ==> g !in start.fleet.heap
  {
    var f := ready.fleet;
    forall g | g in Candidates(p)
      ensures g in f.heap && g !in start.fleet.heap && g !in ready.down && !Current?(f, g)
    {
      HeldSets(p, g);
      assert g in f.heap && g !in start.fleet.heap;
      CandidatesFresh(f, p, g);
    }
    forall g | Tracked(start.fleet, f, g) && g !in Candidates(p)
      ensures Current?(f, g) <==> g !in ready.down
    {
      HeldSets(p, g);
      assert g in start.fleet.heap;
    }
  }

  /** The scene at the commit. */
  lemma FoundStanding(
    start: Scene, env: Env, next: Env, builds: nat -> Build, t: Trail, before: seq<Foreign>)
    requires SceneOk(t.ready) && PreparedFor(t.p, t.plan, t.ready.fleet, start.fleet, builds) && t.ready.down == start.down
    requires t.found == MeddleAll(t.ready, before, env)
    requires forall g :: g in start.down ==> g in start.fleet.heap && !Current?(start.fleet, g)
    ensures Leads(t.ready, t.found, Candidates(t.p)) && start.fleet.heap.Keys <= t.found.fleet.heap.Keys
    ensures Standing(start.fleet, t.found.fleet, t.found.down, Candidates(t.p))
    ensures WellPrepared(t.p, t.found.fleet.heap) && AllKnown(t.found.fleet.heap, StepsOf(t.p))
  {
    ReadyStanding(start, t.ready, t.p, t.plan, builds);
    MeddleAllKeeps(t.ready, before, env, start.fleet, Candidates(t.p));
    WellPreparedStays(t.p, t.ready.fleet.heap, t.found.fleet.heap);
  }

  /** A committed reload holds what it retired; one that was not committed still holds its
      candidates. */
  lemma CommitStanding(start: Fleet, found: Scene, p: Prepared, env: Env, fault: int)
    requires SceneOk(found) && WellPrepared(p, found.fleet.heap) && start.heap.Keys <= found.fleet.heap.Keys
    requires Standing(start, found.fleet, found.down, Candidates(p))
    requires forall g :: g in Retired(p) && g in found.fleet.heap ==> Tracked(start, found.fleet, g)
    ensures var c := found.(fleet := CommitRun(found.fleet, p, env, fault).fleet);
      && SceneOk(c) && SameStatics(found.fleet, c.fleet)
      && Standing(start, c.fleet, c.down, if Commits(found.fleet, p, fault) then Retired(p) else Candidates(p))
  {
    var f := found.fleet;
    CommitRegistry(f, p, env, fault);
    CommitScene(found, p, env, fault);
    if Commits(f, p, fault) {
      CommittedStanding(start, f, p, env, found.down);
    } else {
      SameRegistryStanding(start, f, CommitRun(f, p, env, fault).fleet, found.down, Candidates(p));
    }
  }

  lemma CommitScene(found: Scene, p: Prepared, env: Env, fault: int)
    requires SceneOk(found) && WellPrepared(p, found.fleet.heap)
    ensures var c := found.(fleet := CommitRun(found.fleet, p, env, fault).fleet);
      SceneOk(c) && SameStatics(found.fleet, c.fleet)
  {
    CommitRegistry(found.fleet, p, env, fault);
    RunStatics(found.fleet, StepsOf(p), env);
    CommitValid(found.fleet, p, env, fault);
  }

  lemma SameRegistryStanding(start: Fleet, f: Fleet, c: Fleet, down: set<Gen>, held: set<Gen>)
    requires Standing(start, f, down, held) && c.instances == f.instances && SameStatics(f, c)
    ensures Standing(start, c, down, held)
  {
    forall g | Tracked(start, c, g) && g !in held
      ensures Current?(c, g) <==> g !in down
    {
      assert Tracked(start, f, g);
    }
  }

  lemma CommittedStanding(start: Fleet, f: Fleet, p: Prepared, env: Env, down: set<Gen>)
    requires WellPrepared(p, f.heap) && Valid(f) && Validates(f, p) && start.heap.Keys <= f.heap.Keys
    requires Standing(start, f, down, Candidates(p))
    requires forall g :: g in Retired(p) && g in f.heap ==> Tracked(start, f, g)
    ensures Standing(start, DoAll(f, StepsOf(p), env), down, Retired(p))
  {
    var c := DoAll(f, StepsOf(p), env);
    RunStatics(f, StepsOf(p), env);
    forall g | g in Retired(p)
      ensures g in c.heap && !Current?(c, g) && g !in down
    {
      RetiredCurrent(f, p, g);
      OneCommitted(start, f, p, env, down, g);
    }
    forall g | Tracked(start, c, g) && g !in Retired(p)
      ensures Current?(c, g) <==> g !in down
    {
      OneCommitted(start, f, p, env, down, g);
    }
  }

  lemma CommitValid(f: Fleet, p: Prepared, env: Env, fault: int)
    requires WellPrepared(p, f.heap) && Valid(f)
    ensures Valid(CommitRun(f, p, env, fault).fleet)
  {
    CommitRegistry(f, p, env, fault);
    if Validates(f, p) {
      ValidatedIsReady(f, p);
      var steps := StepsOf(p);
      assert steps[..|steps|] == steps;
      PrefixReady(f, steps, |steps|, env);
      if 0 <= fault < |steps| {
        UndoRestoresRegistry(f, steps[..fault], env, env);
      }
    }
  }

  lemma RetiredCurrent(f: Fleet, p: Prepared, g: Gen)
    requires WellPrepared(p, f.heap) && Valid(f) && Validates(f, p) && g in Retired(p)
    ensures g in f.heap && Current?(f, g) && g !in Candidates(p)
  {
    if g in p.removals {
      var i :| 0 <= i < |p.removals| && p.removals[i] == g;
      assert Current?(f, p.removals[i]);
    } else {
      var i :| 0 <= i < |p.candidates| && p.candidates[i].was == Some(g);
      WasPublished(f, p, i);
    }
    HeldSets(p, g);
    CandidatesFresh(f, p, g);
  }

  lemma OneCommitted(start: Fleet, f: Fleet, p: Prepared, env: Env, down: set<Gen>, g: Gen)
    requires Standing(start, f, down, Candidates(p)) && g in f.heap
    requires WellPrepared(p, f.heap) && Valid(f) && Validates(f, p)
    requires start.heap.Keys <= f.heap.Keys
    ensures var c := DoAll(f, StepsOf(p), env);
      && g in c.heap
      && (g in Retired(p) ==> !Current?(c, g) && (Tracked(start, f, g) ==> g !in down))
      && (Tracked(start, f, g) && g !in Retired(p) ==> (Current?(c, g) <==> g !in down))
  {
    HeldSets(p, g);
    if g in Retired(p) {
      RetiredCurrent(f, p, g);
    }
    if Current?(f, g) || IsCandidate(p, g) {
      GenerationsConserved(f, p, env, env, g);
    } else {
      ValidatedIsReady(f, p);
      PublishedAfter(f, StepsOf(p), env, g);
      StepsPublish(f, p, g);
    }
  }

  // ----- what follows for a prepared reload, however it went

  lemma SettleHeld(start: Fleet, f: Fleet, down: set<Gen>, held: set<Gen>)
    requires Standing(start, f, down, held)
    ensures ExactlyOnce(start, f, down + held)
  {
  }

  /** What a reload retires was published when it was prepared, under the name of what replaces it. */
  lemma RetiredTracked(start: Fleet, f: Fleet, p: Prepared, plan: Plan, builds: nat -> Build)
    requires Valid(start) && Valid(f) && PreparedFor(p, plan, f, start, builds)
    ensures forall g :: g in Retired(p) ==> g in start.heap && Current?(start, g)
    ensures WasNamed(p, f.heap)
  {
    forall g | g in Retired(p)
      ensures g in start.heap && Current?(start, g)
    {
      RetiredCurrent(f, p, g);
    }
    forall i: nat | i < |p.candidates| && p.candidates[i].was.Some?
      ensures p.candidates[i].was.value in f.heap && f.heap[p.candidates[i].was.value].name == p.candidates[i].cfg.name
    {
      WasPublished(f, p, i);
      assert CandidateCurrent(f, p.candidates[i]);
    }
  }

  lemma WasNamedStays(p: Prepared, a: map<Gen, Runtime>, b: map<Gen, Runtime>)
    requires WasNamed(p, a) && Keeps(a, b)
    ensures WasNamed(p, b)
  {
  }

  lemma KeepsOn(a: map<Gen, Runtime>, b: map<Gen, Runtime>, c: map<Gen, Runtime>)
    requires Keeps(a, b) && Keeps(b, c)
    ensures Keeps(a, c)
  {
  }

  /** The scene when the reload is drained or rolled back: what it holds then is what it retired, or
      its candidates if it was not committed. */
  lemma LateStanding(
    start: Scene, env: Env, next: Env, builds: nat -> Build, t: Trail, before: seq<Foreign>, fault: int,
    after: seq<Foreign>, otherOwnerFails: bool, ending: Ending, end: Scene)
    requires SceneOk(start) && Went(start, env, next, builds, t, before, fault, after, otherOwnerFails, ending, end)
    requires forall g :: g in start.down ==> !Current?(start.fleet, g)
    ensures SceneOk(t.late) && Keeps(t.ready.fleet.heap, t.late.fleet.heap)
    ensures Standing(start.fleet, t.late.fleet, t.late.down, if ending.NotCommitted? then Candidates(t.p) else Retired(t.p))
    ensures start.fleet.heap.Keys <= t.late.fleet.heap.Keys
  {
    FoundStanding(start, env, next, builds, t, before);
    RetiredTracked(start.fleet, t.ready.fleet, t.p, t.plan, builds);
    CommitStanding(start.fleet, t.found, t.p, env, fault);
    var c := t.found.(fleet := CommitRun(t.found.fleet, t.p, env, fault).fleet);
    var held := if ending.NotCommitted? then Candidates(t.p) else Retired(t.p);
    MeddleAllKeeps(c, after, if ending.NotCommitted? then env else next, start.fleet, held);
    KeepsOn(t.ready.fleet.heap, t.found.fleet.heap, c.fleet.heap);
    KeepsOn(t.ready.fleet.heap, c.fleet.heap, t.late.fleet.heap);
  }

  lemma LateIsOk(
    start: Scene, env: Env, next: Env, builds: nat -> Build, t: Trail, before: seq<Foreign>, fault: int,
    after: seq<Foreign>, otherOwnerFails: bool, ending: Ending, end: Scene)
    requires SceneOk(start) && Went(start, env, next, builds, t, before, fault, after, otherOwnerFails, ending, end)
    requires !ending.NotCommitted? && forall g :: g in start.down ==> !Current?(start.fleet, g)
    ensures LateOk(start.fleet, t.late.fleet, t.late.down, t.p)
  {
    FoundStanding(start, env, next, builds, t, before);
    LateStanding(start, env, next, builds, t, before, fault, after, otherOwnerFails, ending, end);
    RetiredTracked(start.fleet, t.ready.fleet, t.p, t.plan, builds);
    WellPreparedStays(t.p, t.ready.fleet.heap, t.late.fleet.heap);
    WasNamedStays(t.p, t.ready.fleet.heap, t.late.fleet.heap);
    forall g | g in Retired(t.p)
      ensures g !in Candidates(t.p)
    {
      RetiredCurrent(t.found.fleet, t.p, g);
    }
  }

  /** However it went, each generation published at the start or made since is exactly one of
      published and shut down, unless the reload was rolled back after a name it removed or rebuilt
      changed hands: then, and only then, a generation is lost. */
  lemma WentConserves(
    start: Scene, env: Env, next: Env, builds: nat -> Build, t: Trail, before: seq<Foreign>, fault: int,
    after: seq<Foreign>, otherOwnerFails: bool, ending: Ending, end: Scene)
    requires SceneOk(start) && Went(start, env, next, builds, t, before, fault, after, otherOwnerFails, ending, end)
    requires forall g :: g in start.down ==> !Current?(start.fleet, g)
    ensures ExactlyOnce(start.fleet, end.fleet, end.down) <==> (ending.RolledBack? ==> Unmoved(t.p, t.late.fleet))
  {
    LateStanding(start, env, next, builds, t, before, fault, after, otherOwnerFails, ending, end);
    if ending.RolledBack? {
      LateIsOk(start, env, next, builds, t, before, fault, after, otherOwnerFails, ending, end);
      RollbackConserves(start.fleet, t.late.fleet, t.late.down, t.p, next);
    } else {
      SettleHeld(start.fleet, t.late.fleet, t.late.down, if ending.NotCommitted? then Candidates(t.p) else Retired(t.p));
    }
  }

  /** Unless it was applied, every name is as Commit found it, if others left it alone since. */
  lemma WentNames(
    start: Scene, env: Env, next: Env, builds: nat -> Build, t: Trail, before: seq<Foreign>, fault: int,
    otherOwnerFails: bool, ending: Ending, end: Scene)
    requires SceneOk(start) && Went(start, env, next, builds, t, before, fault, [], otherOwnerFails, ending, end)
    requires !ending.Applied? && forall g :: g in start.down ==> !Current?(start.fleet, g)
    ensures end.fleet.instances == t.found.fleet.instances
  {
    FoundStanding(start, env, next, builds, t, before);
    CommitRegistry(t.found.fleet, t.p, env, fault);
    if ending.RolledBack? {
      RollbackRegistry(t.found.fleet, t.p, env, next);
    }
  }

  /** An applied reload has put every name where the two configs say. */
  lemma WentReaches(
    start: Scene, env: Env, next: Env, builds: nat -> Build, t: Trail, before: seq<Foreign>, fault: int,
    after: seq<Foreign>, otherOwnerFails: bool, ending: Ending, end: Scene, active: seq<DatabaseConfig>,
    desired: seq<DatabaseConfig>)
    requires SceneOk(start) && Went(start, env, next, builds, t, before, fault, after, otherOwnerFails, ending, end)
    requires !ending.NotCommitted? && forall g :: g in start.down ==> !Current?(start.fleet, g)
    requires UniqueNames(active) && UniqueNames(desired) && IsPlan(active, desired, t.plan)
    ensures DesiredReached(start.fleet, t.found.fleet, CommitRun(t.found.fleet, t.p, env, fault).fleet, env, active, desired)
  {
    FoundStanding(start, env, next, builds, t, before);
    CommitRegistry(t.found.fleet, t.p, env, fault);
    CarriedOn(start, t, builds);
    AllReached(start.fleet, t.found.fleet, t.p, t.plan, active, desired, env);
  }

  lemma CarriedOn(start: Scene, t: Trail, builds: nat -> Build)
    requires SceneOk(start) && SceneOk(t.ready) && PreparedFor(t.p, t.plan, t.ready.fleet, start.fleet, builds)
    requires Leads(t.ready, t.found, Candidates(t.p)) && WellPrepared(t.p, t.found.fleet.heap) && Validates(t.found.fleet, t.p)
    ensures Carries(start.fleet, t.found.fleet, t.p, t.plan)
  {
    ValidatedIsReady(t.found.fleet, t.p);
    KeepsOn(start.fleet.heap, t.ready.fleet.heap, t.found.fleet.heap);
    forall i | 0 <= i < |t.p.candidates|
      ensures t.p.candidates[i].instance.Some? && t.p.candidates[i].instance.value in t.found.fleet.heap
      ensures t.found.fleet.heap[t.p.candidates[i].instance.value].config == t.p.candidates[i].cfg
    {
      assert CandidateOk(t.p.candidates[i], t.found.fleet.heap);
      assert t.p.candidates[i].instance.value in Candidates(t.p);
    }
  }

  lemma AllReached(
    start: Fleet, f: Fleet, p: Prepared, plan: Plan, active: seq<DatabaseConfig>, desired: seq<DatabaseConfig>, env: Env)
    requires Carries(start, f, p, plan)
    requires UniqueNames(active) && UniqueNames(desired) && IsPlan(active, desired, plan)
    ensures DesiredReached(start, f, DoAll(f, StepsOf(p), env), env, active, desired)
  {
    forall n
      ensures Reached(start, f, DoAll(f, StepsOf(p), env), env, Current(active), Current(desired), n)
    {
      PlanReached(start, f, p, plan, active, desired, env, n);
    }
  }

  // ----- the reload itself

  /** Commit, as the process runs it. */
  method TryCommit(process: Process, reload: PreparedReload, fault: int) returns (ok: bool)
    requires reload.process == process && !reload.committed && reload.Ready?()
    requires WellPrepared(reload.Data(), process.heap)
    modifies process`instances, process`primary, process`heap, process`defaultMode, reload`committed
    ensures reload.Ready?() && reload.committed == ok && process.heap.Keys == old(process.heap.Keys)
    ensures ok <==> Commits(old(process.State()), reload.Data(), fault)
    ensures process.State() == CommitRun(old(process.State()), reload.Data(), old(process.Environment()), fault).fleet
    ensures process.defaultMode == if ok then reload.nextMode else old(process.defaultMode)
  {
    ghost var f, env, p := process.State(), process.Environment(), reload.Data();
    ok := reload.Commit(fault);
    CommitRegistry(f, p, env, fault);
    RunStatics(f, StepsOf(p), env);
    StillKnown(p, f.heap, process.heap);
  }

  lemma StillKnown(p: Prepared, heap: map<Gen, Runtime>, later: map<Gen, Runtime>)
    requires WellPrepared(p, heap) && heap.Keys == later.Keys
    ensures AllKnown(later, StepsOf(p))
  {
    StepsKnown(p, heap);
    forall i | 0 <= i < |StepsOf(p)|
      ensures Known(later, StepsOf(p)[i])
    {
      assert Known(heap, StepsOf(p)[i]);
    }
  }

  /** The end of it: an applied reload is drained, any other rolled back. */
  method Finish(process: Process, reload: PreparedReload, applied: bool)
    requires reload.process == process && reload.Ready?() && (applied ==> reload.committed)
    modifies process, reload
    ensures process.Ok() && process.nextGen == old(process.nextGen)
    ensures process.State() ==
      if applied || !old(reload.committed) then old(process.State())
      else RollbackRun(old(process.State()), reload.Data(), old(process.Environment())).fleet
    ensures process.down == old(process.down) + if applied then Retired(reload.Data()) else Candidates(reload.Data())
  {
    ghost var p := reload.Data();
    if applied {
      reload.Drain();
    } else {
      var _ := reload.Rollback();
    }
    forall g: Gen
      ensures (g in Candidates(p) <==> IsCandidate(p, g)) && (g in Retired(p) <==> IsRetired(p, g))
    {
      HeldSets(p, g);
    }
  }

  lemma KnownLater(p: Prepared, a: map<Gen, Runtime>, b: map<Gen, Runtime>)
    requires Built(p) && AllKnown(a, StepsOf(p)) && a.Keys <= b.Keys
    ensures AllKnown(b, StepsOf(p))
  {
    forall i | 0 <= i < |StepsOf(p)|
      ensures Known(b, StepsOf(p)[i])
    {
      assert Known(a, StepsOf(p)[i]);
    }
  }

  /** From the commit on: it goes through or not, and others act. */
  method CommitAndWait(process: Process, reload: PreparedReload, fault: int, after: seq<Foreign>) returns (ok: bool)
    requires reload.process == process && !reload.committed && reload.Ready?()
    requires WellPrepared(reload.Data(), process.heap)
    modifies process, reload
    ensures reload.Ready?() && reload.committed == ok
    ensures ok <==> Commits(old(process.State()), reload.Data(), fault)
    ensures process.Environment() ==
      if ok then old(process.Environment()).(defaultMode := reload.nextMode) else old(process.Environment())
    ensures SceneOf(process) ==
      MeddleAll(old(SceneOf(process)).(fleet := CommitRun(old(process.State()), reload.Data(), old(process.Environment()), fault).fleet),
                after, process.Environment())
  {
    ok := TryCommit(process, reload, fault);
    ghost var heap := process.heap;
    Interfere(process, after);
    KnownLater(reload.Data(), heap, process.heap);
  }

  /** A prepared reload to its end. */
  method Proceed(
    process: Process, reload: PreparedReload, before: seq<Foreign>, fault: int, after: seq<Foreign>,
    otherOwnerFails: bool, ghost start: Scene, ghost builds: nat -> Build)
    returns (ending: Ending, ghost t: Trail)
    requires process.Ok() && reload.process == process && !reload.committed && SceneOk(SceneOf(process))
    requires PreparedFor(reload.Data(), reload.plan, process.State(), start.fleet, builds) && process.down == start.down
    requires SceneOk(start) && forall g :: g in start.down ==> !Current?(start.fleet, g)
    modifies process, reload
    ensures process.Ok() && t.plan == reload.plan && t.p == reload.Data()
    ensures Went(start, old(process.Environment()), old(process.Environment()).(defaultMode := reload.nextMode), builds, t,
                 before, fault, after, otherOwnerFails, ending, SceneOf(process))
  {
    ghost var p, env, ready := reload.Data(), process.Environment(), SceneOf(process);
    Interfere(process, before);
    ghost var found := SceneOf(process);
    FoundStanding(start, env, env, builds, Trail(p, reload.plan, ready, found, found), before);
    var ok := CommitAndWait(process, reload, fault, after);
    ending := if !ok then NotCommitted else if otherOwnerFails then RolledBack else Applied;
    t := Trail(p, reload.plan, ready, found, SceneOf(process));
    Finish(process, reload, ending.Applied?);
  }

  /** What is promised of a reload that was prepared. */
  ghost predicate Kept(
    start: Scene, env: Env, t: Trail, fault: int, after: seq<Foreign>, ending: Ending, end: Scene,
    active: seq<DatabaseConfig>, desired: seq<DatabaseConfig>)
    requires Built(t.p)
  {
    && (ExactlyOnce(start.fleet, end.fleet, end.down) <==> (ending.RolledBack? ==> Unmoved(t.p, t.late.fleet)))
    && (!ending.Applied? && after == [] ==> end.fleet.instances == t.found.fleet.instances)
    && (ending.Applied? ==>
          DesiredReached(start.fleet, t.found.fleet, CommitRun(t.found.fleet, t.p, env, fault).fleet, env, active, desired))
  }

  lemma WentKept(
    start: Scene, env: Env, next: Env, builds: nat -> Build, t: Trail, before: seq<Foreign>, fault: int,
    after: seq<Foreign>, otherOwnerFails: bool, ending: Ending, end: Scene, active: seq<DatabaseConfig>,
    desired: seq<DatabaseConfig>)
    requires SceneOk(start) && Went(start, env, next, builds, t, before, fault, after, otherOwnerFails, ending, end)
    requires forall g :: g in start.down ==> !Current?(start.fleet, g)
    requires UniqueNames(active) && UniqueNames(desired) && IsPlan(active, desired, t.plan)
    ensures Kept(start, env, t, fault, after, ending, end, active, desired)
  {
    WentConserves(start, env, next, builds, t, before, fault, after, otherOwnerFails, ending, end);
    if ending.Applied? {
      WentReaches(start, env, next, builds, t, before, fault, after, otherOwnerFails, ending, end, active, desired);
    } else if after == [] {
      WentNames(start, env, next, builds, t, before, fault, otherOwnerFails, ending, end);
    }
  }

  lemma UnpreparedOnce(start: Fleet, f: Fleet, down: set<Gen>)
    requires Valid(start) && f.instances == start.instances && Extends(start.heap, f.heap) && Valid(f)
    requires forall g :: g in start.heap && Current?(start, g) ==> g !in down
    requires forall g :: g in f.heap && g !in start.heap ==> g in down
    ensures ExactlyOnce(start, f, down)
  {
    forall g | Tracked(start, f, g)
      ensures Current?(f, g) <==> g !in down
    {
      if Current?(f, g) {
        assert g in start.heap;
      }
    }
  }

  /** One reload: planned, prepared, committed, drained or rolled back, with others acting before the
      commit and after it. It ends unprepared only when the plan is refused or a runtime cannot be
      built; otherwise the trail says exactly what happened (Went): it is uncommitted if and only if an
      observation went stale or a step was stopped, and rolled back if and only if another owner
      failed after the commit. Each generation published at the start or made since ends exactly one
      of published and shut down, except that a rollback loses one if and only if a name the reload
      removed or rebuilt changed hands after the commit; unless the reload is applied, every name is
      as Commit found it; and an applied reload puts every name where the two configs say (Kept). */
  method Reload(
    process: Process, active: seq<DatabaseConfig>, desired: seq<DatabaseConfig>, controlName: string,
    nextMode: string, builds: nat -> Build, cancelled: nat -> bool, before: seq<Foreign>, fault: int,
    after: seq<Foreign>, otherOwnerFails: bool)
    returns (ending: Ending, ghost t: Trail)
    requires process.Ok()
    requires UniqueNames(active) && UniqueNames(desired)
    requires forall db :: db in desired ==> db.name != ""
    requires forall g :: g in process.down ==> g in process.heap && !Current?(process.State(), g)
    modifies process
    ensures process.Ok()
    ensures ending.NotPrepared? ==>
      && (exists plan :: IsPlan(active, desired, plan)
            && NotPreparable(plan, controlName, old(process.State()), builds, cancelled))
      && process.instances == old(process.instances)
      && ExactlyOnce(old(process.State()), process.State(), process.down)
    ensures !ending.NotPrepared? ==>
      && IsPlan(active, desired, t.plan) && !NotPreparable(t.plan, controlName, old(process.State()), builds, cancelled)
      && Went(old(SceneOf(process)), old(process.Environment()), old(process.Environment()).(defaultMode := nextMode), builds,
              t, before, fault, after, otherOwnerFails, ending, SceneOf(process))
      && Kept(old(SceneOf(process)), old(process.Environment()), t, fault, after, ending, SceneOf(process), active, desired)
  {
    ghost var start, env := SceneOf(process), process.Environment();
    t := Trail(Prepared([], [], []), Plan([], [], [], [], map[]), start, start, start);
    var r := Prepare(process, active, desired, controlName, nextMode, builds, cancelled);
    if r.None? {
      UnpreparedOnce(start.fleet, process.State(), process.down);
      return NotPrepared, t;
    }
    assert process.Environment() == env;
    ending, t := Proceed(process, r.value, before, fault, after, otherOwnerFails, start, builds);
    WentKept(start, env, env.(defaultMode := nextMode), builds, t, before, fault, after, otherOwnerFails, ending,
             SceneOf(process), active, desired);
  }

  // ----- a generation that is lost

  /** A reload removes one of two databases, somebody adds a database of that name, and the reload is
      rolled back: the removed generation cannot be registered again and nobody shuts it down. */
  lemma RollbackCanLeak(a: string, b: string, cfg: DatabaseConfig, env: Env)
    requires a != "" && b != "" && a != b
    ensures var f, p := TwoDatabases(a, b, cfg), OneRemoval();
      && WellPrepared(p, f.heap) && Valid(f) && Validates(f, p)
      && var late := Meddle(Scene(DoAll(f, StepsOf(p), env), {}, 2), Create(Running(a, cfg)), env);
         && LateOk(f, late.fleet, late.down, p) && !Unmoved(p, late.fleet)
         && !ExactlyOnce(f, RollbackRun(late.fleet, p, env).fleet, late.down + Candidates(p))
  {
    RemovalsAreFine(a, b, cfg);
    FirstRemoved(a, b, cfg, env);
    var f, p := TwoDatabases(a, b, cfg), OneRemoval();
    LeakFrom(f, Scene(DoAll(f, StepsOf(p), env), {}, 2), a, cfg, env);
  }

  lemma LeakFrom(f: Fleet, c: Scene, a: string, cfg: DatabaseConfig, env: Env)
    requires WellPrepared(OneRemoval(), f.heap) && SceneOk(c) && c.fleet.heap == f.heap && Standing(f, c.fleet, c.down, {0})
    requires 0 in f.heap && Current?(f, 0) && f.heap[0].name == a != "" && a !in c.fleet.instances
    ensures var late := Created(c, Running(a, cfg), env);
      && LateOk(f, late.fleet, late.down, OneRemoval()) && !Unmoved(OneRemoval(), late.fleet)
      && !ExactlyOnce(f, RollbackRun(late.fleet, OneRemoval(), env).fleet, late.down + Candidates(OneRemoval()))
  {
    var p, late := OneRemoval(), Created(c, Running(a, cfg), env);
    assert Retired(p) == {0};
    CreateKeeps(c, Running(a, cfg), env, f, Retired(p));
    TakenName(c, a, cfg, env);
    LateAfter(f, c, late, p);
    assert GenName(late.fleet.heap, p.removals[0]) in late.fleet.instances;
    RollbackConserves(f, late.fleet, late.down, p, env);
  }

  lemma TakenName(c: Scene, a: string, cfg: DatabaseConfig, env: Env)
    requires SceneOk(c) && 0 in c.fleet.heap && c.fleet.heap[0].name == a != "" && a !in c.fleet.instances
    ensures var late := Created(c, Running(a, cfg), env);
      0 in late.fleet.heap && late.fleet.heap[0].name == a && a in late.fleet.instances
  {
    RegisterNew(c.fleet, WithNew(c, Running(a, cfg)), c.next, env);
  }

  lemma LateAfter(f: Fleet, c: Scene, late: Scene, p: Prepared)
    requires WellPrepared(p, f.heap) && p.candidates == [] && c.fleet.heap == f.heap && Leads(c, late, Retired(p))
    requires Standing(f, late.fleet, late.down, Retired(p))
    requires forall g :: g in Retired(p) ==> g in f.heap && Current?(f, g)
    ensures LateOk(f, late.fleet, late.down, p)
  {
    WellPreparedStays(p, f.heap, late.fleet.heap);
    assert Candidates(p) == {};
  }

  lemma FirstRemoved(a: string, b: string, cfg: DatabaseConfig, env: Env)
    requires a != "" && b != "" && a != b
    ensures var f, p := TwoDatabases(a, b, cfg), OneRemoval();
      && WellPrepared(p, f.heap)
      && var c := Scene(DoAll(f, StepsOf(p), env), {}, 2);
         && c.fleet.heap == f.heap && c.fleet.instances == map[b := 1]
         && SceneOk(c) && Standing(f, c.fleet, {}, {0})
  {
    var f, p := TwoDatabases(a, b, cfg), OneRemoval();
    RemovalsAreFine(a, b, cfg);
    StepAt(p, 0);
    assert StepsOf(p) == [DetachStep(0)];
    assert [DetachStep(0)][1..] == [];
    assert DoAll(f, StepsOf(p), env) == Do(f, DetachStep(0), env).fleet;
    assert f.instances - {a} == map[b := 1];
    DoAlwaysValid(f, DetachStep(0), env);
  }
}
