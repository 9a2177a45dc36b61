/** The fleet manager's registry: published generations by name, the primary, and the lifecycle
    mutations a reload performs on them. */
module FleetRegistry {
  import opened Names
  import opened FleetPlan

  /** The identity of one runtime generation (a database instance object). */
  type Gen = nat

  /** The mutable part of one generation. `connected` is "has a pool", `executor` "has an
      executor"; trust, mode and enabled are the executor's policy. */
  datatype Runtime = Runtime(
    name: string, connected: bool, executor: bool, config: DatabaseConfig,
    trust: string, mode: string, enabled: bool,
    overrideKnown: bool, overrideActive: bool, statusTrust: string, stopped: bool)

  datatype Fleet = Fleet(instances: map<string, Gen>, primary: string, heap: map<Gen, Runtime>)

  /** What a mutation reads besides the registry: the process defaults and global trust, and the
      generations whose durable emergency stop is set or cannot be read. */
  datatype Env = Env(defaultMode: string, globalTrust: string, durableStop: Gen -> bool)

  datatype Outcome = Outcome(fleet: Fleet, ok: bool)

  /** Registered generations exist, are filed under their own non-empty name, and the primary is
      one of them (or nobody). */
  ghost predicate Valid(f: Fleet) {
    && "" !in f.instances
    && (forall n :: n in f.instances ==> f.instances[n] in f.heap && f.heap[f.instances[n]].name == n)
    && (f.primary == "" || f.primary in f.instances)
  }

  predicate Current?(f: Fleet, g: Gen)
    requires g in f.heap
  {
    f.heap[g].name in f.instances && f.instances[f.heap[g].name] == g
  }

  predicate ConnectedName(instances: map<string, Gen>, heap: map<Gen, Runtime>, n: string) {
    n in instances && instances[n] in heap && heap[instances[n]].connected
  }

  function ConnectedNames(instances: map<string, Gen>, heap: map<Gen, Runtime>): set<string> {
    set n | n in instances && ConnectedName(instances, heap, n)
  }

  ghost predicate IsLeast(names: set<string>, n: string) {
    n in names && forall m :: m in names ==> AtMost(n, m)
  }

  lemma {:induction false} FindLeast(names: set<string>) returns (least: string)
    requires names != {}
    ensures IsLeast(names, least)
  {
    var n :| n in names;
    LessTrichotomy(n, n);
    var others := names - {n};
    least := n;
    if others == {} {
      assert names == {n};
    } else {
      var rest := FindLeast(others);
      LessTrichotomy(n, rest);
      if Less(n, rest) {
        forall m | m in names
          ensures AtMost(n, m)
        {
          if m != n { AtMostTransitive(n, rest, m); }
        }
      } else {
        least := rest;
        assert forall m :: m in names ==> m == n || m in others;
      }
    }
  }

  lemma LeastExists(names: set<string>)
    requires names != {}
    ensures exists n :: IsLeast(names, n)
  {
    var n := FindLeast(names);
  }

  /** The least name of a set; "" when empty. */
  ghost function Least(names: set<string>): (r: string)
    ensures names == {} ==> r == ""
    ensures names != {} ==> r in names
  {
    if names == {} then ""
    else
      LeastExists(names);
      var n :| IsLeast(names, n);
      n
  }

  lemma LeastIs(names: set<string>, n: string)
    requires IsLeast(names, n)
    ensures Least(names) == n
  {
    LeastExists(names);
    LessTrichotomy(n, Least(names));
  }

  ghost function FirstConnected(instances: map<string, Gen>, heap: map<Gen, Runtime>): string {
    Least(ConnectedNames(instances, heap))
  }

  /** A runtime with the stop latched: the in-memory kill switch closes the executor's gate. */
  function Stopped(r: Runtime): Runtime {
    r.(stopped := true, enabled := r.enabled && !r.executor)
  }

  /** restorePersistedStop: a durable stop latches; it is never released here. */
  function LatchStop(f: Fleet, g: Gen, env: Env): Fleet
    requires g in f.heap
  {
    if f.heap[g].executor && env.durableStop(g)
    then f.(heap := f.heap[g := Stopped(f.heap[g])])
    else f
  }

  ghost function Detach(f: Fleet, g: Gen): Outcome
    requires g in f.heap
  {
    var n := f.heap[g].name;
    if n !in f.instances || f.instances[n] != g then Outcome(f, false)
    else
      var rest := f.instances - {n};
      Outcome(f.(instances := rest,
                 primary := if f.primary == n then FirstConnected(rest, f.heap) else f.primary), true)
  }

  function Register(f: Fleet, g: Gen, env: Env): Outcome
    requires g in f.heap
  {
    var f1 := LatchStop(f, g, env);
    var n := f1.heap[g].name;
    if n in f1.instances then Outcome(f1, false)
    else
      Outcome(f1.(instances := f1.instances[n := g],
                  primary := if f1.primary == "" && f1.heap[g].connected then n else f1.primary), true)
  }

  ghost function Replace(f: Fleet, n: string, was: Gen, cand: Gen, env: Env): Outcome
    requires was in f.heap && cand in f.heap
  {
    var f1 := LatchStop(f, cand, env);
    var m := f1.heap[cand].name;
    if n !in f1.instances || f1.instances[n] != was || (m != n && m in f1.instances) then Outcome(f1, false)
    else
      var instances := (f1.instances - {n})[m := cand];
      var heap := if f1.heap[was].stopped then f1.heap[cand := Stopped(f1.heap[cand])] else f1.heap;
      Outcome(Fleet(instances,
                    if f1.primary != n then f1.primary
                    else if heap[cand].connected then m else FirstConnected(instances, heap),
                    heap), true)
  }

  function ResolveMode(db: DatabaseConfig, defaultMode: string): string {
    var mode := if db.executionMode == "" then defaultMode else db.executionMode;
    if mode in ["auto", "approval", "manual"] then mode else "auto"
  }

  function EffectiveTrust(trust: string, env: Env): string {
    if trust != "" then trust else env.globalTrust
  }

  /** A generation after its policy moved to `to`. */
  function WithPolicy(r: Runtime, to: DatabaseConfig, env: Env): Runtime {
    var r1 := r.(config := to, overrideKnown := true, overrideActive := to.trustExplicit);
    if r.executor then
      r1.(trust := to.trustLevel, mode := ResolveMode(to, env.defaultMode),
          enabled := GateOn(to.executorEnabled), statusTrust := EffectiveTrust(to.trustLevel, env))
    else r1.(statusTrust := to.trustLevel)
  }

  predicate NamedMode(mode: string) {
    mode == "auto" || mode == "approval" || mode == "manual"
  }

  /** An executor's level, mode and gate, and the level its status shows, are what a config says: a
      mode that is named is kept, none stands for the process default, anything else is automatic; an
      unset gate is open; no level stands for the global one. */
  predicate ExecutorRuns(r: Runtime, cfg: DatabaseConfig, env: Env) {
    && r.trust == cfg.trustLevel
    && (NamedMode(cfg.executionMode) ==> r.mode == cfg.executionMode)
    && (cfg.executionMode == "" && NamedMode(env.defaultMode) ==> r.mode == env.defaultMode)
    && (!NamedMode(cfg.executionMode) && (cfg.executionMode != "" || !NamedMode(env.defaultMode)) ==>
          r.mode == "auto")
    && (r.enabled <==> cfg.executorEnabled != Some(false))
    && (cfg.trustLevel != "" ==> r.statusTrust == cfg.trustLevel)
    && (cfg.trustLevel == "" ==> r.statusTrust == env.globalTrust)
  }

  /** A generation `was` has its policy moved to `to` and nothing else. */
  predicate PolicyRuns(was: Runtime, r: Runtime, to: DatabaseConfig, env: Env) {
    && r.name == was.name && r.connected == was.connected && r.executor == was.executor && r.stopped == was.stopped
    && r.config == to && r.overrideKnown && (r.overrideActive <==> to.trustExplicit)
    && (was.executor ==> ExecutorRuns(r, to, env))
    && (!was.executor ==>
          r.trust == was.trust && r.mode == was.mode && r.enabled == was.enabled && r.statusTrust == to.trustLevel)
  }

  /** Moving the policy does exactly that. */
  lemma WithPolicyRuns(was: Runtime, r: Runtime, to: DatabaseConfig, env: Env)
    ensures r == WithPolicy(was, to, env) <==> PolicyRuns(was, r, to, env)
  {
    ModeIsResolved(to, env.defaultMode, r.mode);
  }

  lemma ModeIsResolved(db: DatabaseConfig, defaultMode: string, mode: string)
    ensures mode == ResolveMode(db, defaultMode) <==>
      && (NamedMode(db.executionMode) ==> mode == db.executionMode)
      && (db.executionMode == "" && NamedMode(defaultMode) ==> mode == defaultMode)
      && (!NamedMode(db.executionMode) && (db.executionMode != "" || !NamedMode(defaultMode)) ==> mode == "auto")
  {
  }

  /** An executor takes only a named trust level. */
  predicate Accepts(r: Runtime, to: DatabaseConfig) {
    r.executor ==> ValidTrust(to.trustLevel)
  }

  /** A generation after an attempt to move its policy: the metadata moves before the trust level is
      accepted, so an unnamed level fails after that first effect. */
  function Moved(r: Runtime, to: DatabaseConfig, env: Env): Runtime {
    if Accepts(r, to) then WithPolicy(r, to, env) else r.(config := to)
  }

  /** applyFleetDatabasePolicy. */
  function SetPolicy(f: Fleet, g: Gen, to: DatabaseConfig, env: Env): Outcome
    requires g in f.heap
  {
    if to.name != f.heap[g].name || !Current?(f, g) then Outcome(f, false)
    else Outcome(f.(heap := f.heap[g := Moved(f.heap[g], to, env)]), Accepts(f.heap[g], to))
  }

  /** What a policy change does: the generation must be the one published under the config's name, and
      its executor must know the level. Then its policy is the new one; if only the level is unknown,
      its config alone is; else nothing is. Nobody else is touched. */
  ghost predicate PolicyApplied(f: Fleet, after: Fleet, g: Gen, to: DatabaseConfig, env: Env, ok: bool)
    requires g in f.heap
  {
    var found := to.name == f.heap[g].name && to.name in f.instances && f.instances[to.name] == g;
    && after.instances == f.instances && after.primary == f.primary && after.heap.Keys == f.heap.Keys
    && (forall h :: h in f.heap && h != g ==> after.heap[h] == f.heap[h])
    && (ok <==> found && (f.heap[g].executor ==> NamedLevel(to.trustLevel)))
    && (ok ==> PolicyRuns(f.heap[g], after.heap[g], to, env))
    && (!ok ==> after.heap[g] == if found then f.heap[g].(config := to) else f.heap[g])
  }

  lemma SetPolicyApplies(f: Fleet, g: Gen, to: DatabaseConfig, env: Env)
    requires g in f.heap
    ensures PolicyApplied(f, SetPolicy(f, g, to, env).fleet, g, to, env, SetPolicy(f, g, to, env).ok)
  {
    NamedLevels(to.trustLevel);
    WithPolicyRuns(f.heap[g], WithPolicy(f.heap[g], to, env), to, env);
  }
}
