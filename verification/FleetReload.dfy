/** A prepared fleet reload: commit, roll back, drain, as functions of the fleet. */
module FleetReload {
  import opened Names
  import opened FleetPlan
  import opened FleetRegistry
  import opened FleetSteps
  import opened FleetAtomicity
  import opened FleetPrimary

  /** What will serve an added or rebuilt database: `was` is published under its name now, if
      anything is, and `instance` takes over, once it is built. */
  datatype Candidate = Candidate(cfg: DatabaseConfig, was: Option<Gen>, instance: Option<Gen>)

  datatype HotChange = HotChange(instance: Gen, was: DatabaseConfig, cfg: DatabaseConfig)

  datatype Prepared = Prepared(removals: seq<Gen>, candidates: seq<Candidate>, hot: seq<HotChange>)

  function CandidateStep(c: Candidate): Step
    requires c.instance.Some?
  {
    if c.was.None? then RegisterStep(c.instance.value)
    else ReplaceStep(c.cfg.name, c.was.value, c.instance.value)
  }

  predicate Built(p: Prepared) {
    forall i :: 0 <= i < |p.candidates| ==> p.candidates[i].instance.Some?
  }

  /** Removals first, then candidates, then policy changes. */
  function StepsOf(p: Prepared): (r: seq<Step>)
    requires Built(p)
    ensures |r| == |p.removals| + |p.candidates| + |p.hot|
  {
    seq(|p.removals|, i requires 0 <= i < |p.removals| => DetachStep(p.removals[i]))
    + seq(|p.candidates|, i requires 0 <= i < |p.candidates| => CandidateStep(p.candidates[i]))
    + seq(|p.hot|, i requires 0 <= i < |p.hot| =>
            PolicyStep(p.hot[i].instance, p.hot[i].was, p.hot[i].cfg))
  }

  /** What Prepare guarantees about a reload it returns: every generation exists under the name it
      is for, no name occurs twice, new trust levels are named, and a connected database only gets
      a connected candidate. */
  ghost predicate WellPrepared(p: Prepared, heap: map<Gen, Runtime>) {
    && Built(p)
    && (forall i :: 0 <= i < |p.removals| ==> p.removals[i] in heap && heap[p.removals[i]].name != "")
    && (forall i :: 0 <= i < |p.candidates| ==> CandidateOk(p.candidates[i], heap))
    && (forall i :: 0 <= i < |p.hot| ==> HotOk(p.hot[i], heap))
    && Distinct(ReloadNames(p, heap))
  }

  predicate CandidateOk(c: Candidate, heap: map<Gen, Runtime>) {
    && c.instance.Some?
    && c.instance.value in heap
    && heap[c.instance.value].name == c.cfg.name
    && c.cfg.name != ""
    && (c.was.Some? ==>
          && c.was.value in heap
          && c.was.value != c.instance.value
          && (heap[c.was.value].connected ==> heap[c.instance.value].connected))
  }

  predicate HotOk(h: HotChange, heap: map<Gen, Runtime>) {
    && h.instance in heap
    && h.was.name == h.cfg.name == heap[h.instance].name
    && h.cfg.name != ""
    && ValidTrust(h.cfg.trustLevel)
  }

  function GenName(heap: map<Gen, Runtime>, g: Gen): string {
    if g in heap then heap[g].name else ""
  }

  /** The names a reload concerns, in step order. */
  function ReloadNames(p: Prepared, heap: map<Gen, Runtime>): (r: seq<string>)
    ensures |r| == |p.removals| + |p.candidates| + |p.hot|
  {
    seq(|p.removals|, i requires 0 <= i < |p.removals| => GenName(heap, p.removals[i]))
    + seq(|p.candidates|, i requires 0 <= i < |p.candidates| => p.candidates[i].cfg.name)
    + seq(|p.hot|, i requires 0 <= i < |p.hot| => p.hot[i].cfg.name)
  }

  /** validate: every observed generation is still the published one. */
  ghost predicate Validates(f: Fleet, p: Prepared) {
    && (forall i :: 0 <= i < |p.candidates| ==> CandidateCurrent(f, p.candidates[i]))
    && (forall i :: 0 <= i < |p.removals| ==> p.removals[i] in f.heap && Current?(f, p.removals[i]))
    && (forall i :: 0 <= i < |p.hot| ==> p.hot[i].instance in f.heap && Current?(f, p.hot[i].instance))
  }

  predicate CandidateCurrent(f: Fleet, c: Candidate) {
    match c.was
    case None => c.cfg.name != "" && c.cfg.name !in f.instances
    case Some(w) => c.cfg.name in f.instances && f.instances[c.cfg.name] == w
  }

  /** Commit inside one lifecycle reservation. `fault` is a step stopped from outside before its
      effect, or a number that is no step. */
  ghost function CommitRun(f: Fleet, p: Prepared, env: Env, fault: int): Outcome
    requires Built(p)
  {
    if Validates(f, p) then RunFrom(f, StepsOf(p), 0, env, fault) else Outcome(f, false)
  }

  lemma StepAt(p: Prepared, i: nat)
    requires Built(p) && i < |StepsOf(p)|
    ensures StepsOf(p)[i] ==
      if i < |p.removals| then DetachStep(p.removals[i])
      else if i < |p.removals| + |p.candidates| then CandidateStep(p.candidates[i - |p.removals|])
      else
        var h := p.hot[i - |p.removals| - |p.candidates|];
        PolicyStep(h.instance, h.was, h.cfg)
  {
  }

  lemma NameOfStep(p: Prepared, heap: map<Gen, Runtime>, i: nat)
    requires WellPrepared(p, heap) && i < |StepsOf(p)|
    ensures Known(heap, StepsOf(p)[i]) && NameAt(heap, StepsOf(p)[i]) == ReloadNames(p, heap)[i] != ""
  {
    StepAt(p, i);
    if i < |p.removals| {
      assert p.removals[i] in heap;
    } else if i < |p.removals| + |p.candidates| {
      assert CandidateOk(p.candidates[i - |p.removals|], heap);
    } else {
      assert HotOk(p.hot[i - |p.removals| - |p.candidates|], heap);
    }
  }

  /** Validation covers every step's own check, for the whole list at once. */
  lemma ValidatedIsReady(f: Fleet, p: Prepared)
    requires WellPrepared(p, f.heap) && Valid(f) && Validates(f, p)
    ensures AllReady(f, StepsOf(p))
  {
    var steps := StepsOf(p);
    forall i | 0 <= i < |steps|
      ensures Ready(f, steps[i])
    {
      StepAt(p, i);
      NameOfStep(p, f.heap, i);
      if i < |p.removals| {
        assert Current?(f, p.removals[i]);
      } else if i < |p.removals| + |p.candidates| {
        var c := p.candidates[i - |p.removals|];
        assert CandidateOk(c, f.heap) && CandidateCurrent(f, c);
      } else {
        var h := p.hot[i - |p.removals| - |p.candidates|];
        assert HotOk(h, f.heap) && Current?(f, h.instance);
      }
    }
    forall i, j | 0 <= i < j < |steps|
      ensures NameAt(f.heap, steps[i]) != NameAt(f.heap, steps[j])
    {
      NameOfStep(p, f.heap, i);
      NameOfStep(p, f.heap, j);
    }
  }

  lemma StepsAccepted(p: Prepared, heap: map<Gen, Runtime>)
    requires WellPrepared(p, heap)
    ensures AllAccepted(heap, StepsOf(p))
  {
    forall i | 0 <= i < |StepsOf(p)|
      ensures Accepted(heap, StepsOf(p)[i])
    {
      StepAt(p, i);
      if i >= |p.removals| + |p.candidates| {
        assert HotOk(p.hot[i - |p.removals| - |p.candidates|], heap);
      }
    }
  }

  // ----- commit is all or nothing

  /** A generation runs the policy of a config. */
  predicate Runs(r: Runtime, cfg: DatabaseConfig, env: Env) {
    && (View(r).ownTrust <==> cfg.trustExplicit)
    && (r.executor ==> ExecutorRuns(r, cfg, env))
    && (!r.executor ==> r.statusTrust == cfg.trustLevel)
  }

  /** The runtime policy of a generation is what its config says. */
  predicate Agrees(r: Runtime, cfg: DatabaseConfig, env: Env) {
    r.config == cfg && Runs(r, cfg, env)
  }

  lemma RunsView(r: Runtime, cfg: DatabaseConfig, env: Env)
    ensures Runs(r, cfg, env) <==> View(r) == View(WithPolicy(r, cfg, env)).(config := r.config)
  {
    ModeIsResolved(cfg, env.defaultMode, r.mode);
  }

  /** Commit succeeds exactly when every observed generation is still published and nothing stops
      a step from outside; a Commit that fails leaves every name as it was. */
  lemma CommitRegistry(f: Fleet, p: Prepared, env: Env, fault: int)
    requires WellPrepared(p, f.heap) && Valid(f)
    ensures var o := CommitRun(f, p, env, fault);
      && (o.ok <==> Validates(f, p) && !(0 <= fault < |StepsOf(p)|))
      && (o.ok ==> o.fleet == DoAll(f, StepsOf(p), env))
      && (!o.ok ==> o.fleet.instances == f.instances && SameStatics(f, o.fleet))
      && (!o.ok && Validates(f, p) ==>
            && AllReady(f, StepsOf(p)[..fault])
            && o.fleet == UndoAll(DoAll(f, StepsOf(p)[..fault], env), StepsOf(p)[..fault], env).fleet)
      && (!Validates(f, p) ==> o.fleet == f)
  {
    if Validates(f, p) {
      ValidatedIsReady(f, p);
      StepsAccepted(p, f.heap);
      var steps := StepsOf(p);
      assert steps[..0] == [];
      RunOutcome(f, steps, 0, env, fault);
      if 0 <= fault < |steps| {
        PrefixReady(f, steps, fault, env);
        UndoRestoresRegistry(f, steps[..fault], env, env);
      }
    }
  }

  /** Doing the first n steps and undoing them latches a stop on g. */
  ghost predicate StoppedBy(f: Fleet, p: Prepared, n: nat, env: Env, undoEnv: Env, g: Gen)
    requires WellPrepared(p, f.heap) && n <= |StepsOf(p)| && g in f.heap
  {
    exists i :: 0 <= i < n && Known(f.heap, StepsOf(p)[i]) && UndoLatches(f, StepsOf(p)[i], env, undoEnv, g)
  }

  /** A policy moved to `to` and back to `was` is as it was: the runtime agreed with its old config
      under the defaults of the undo or, if its executor does not take the old level back, it ran the
      new policy already. */
  predicate Returns(r: Runtime, was: DatabaseConfig, to: DatabaseConfig, env: Env, undoEnv: Env) {
    if Accepts(r, was) then Agrees(r, was, undoEnv) else r.config == was && Runs(r, to, env)
  }

  /** Nothing stands in the way of g's policy coming back when the first n steps are undone: if one
      moved it in place, Returns holds of it; if one latched a stop on it, its gate was closed
      before. */
  ghost predicate PolicyReturns(f: Fleet, p: Prepared, n: nat, env: Env, undoEnv: Env, g: Gen)
    requires WellPrepared(p, f.heap) && n <= |StepsOf(p)| && g in f.heap
  {
    && (forall i :: 0 <= i < |p.hot| && HotStep(p, i) < n && p.hot[i].instance == g ==>
          Returns(f.heap[g], p.hot[i].was, p.hot[i].cfg, env, undoEnv))
    && (StoppedBy(f, p, n, env, undoEnv, g) && f.heap[g].executor ==> !f.heap[g].enabled)
  }

  /** The number of a policy change among the steps. */
  function HotStep(p: Prepared, i: nat): nat {
    |p.removals| + |p.candidates| + i
  }

  lemma {:induction false} ConcernedBy(f: Fleet, steps: seq<Step>, i: nat, j: nat, n: string)
    requires AllReady(f, steps) && i < |steps| && j < |steps|
    requires NameAt(f.heap, steps[i]) == n && NameAt(f.heap, steps[j]) == n
    ensures i == j
  {
    assert Ready(f, steps[i]) && Ready(f, steps[j]);
  }

  /** A step that moves or latches a generation is the step about its name. */
  lemma TouchesOwnName(f: Fleet, s: Step, env: Env, undoEnv: Env, g: Gen)
    requires Ready(f, s) && Valid(f) && g in f.heap
    ensures Moves(s, g) || UndoLatches(f, s, env, undoEnv, g) || Latches(f, s, env, g) ==>
      NameAt(f.heap, s) == f.heap[g].name
  {
  }

  /** Undoing the first n steps: exactly who carries a stop afterwards, and whose policy is as it
      was. */
  lemma {:induction false} UndoneGeneration(f: Fleet, p: Prepared, n: nat, env: Env, undoEnv: Env, g: Gen)
    requires WellPrepared(p, f.heap) && Valid(f) && Validates(f, p) && n <= |StepsOf(p)| && g in f.heap
    ensures var steps := StepsOf(p)[..n];
      var back := UndoAll(DoAll(f, steps, env), steps, undoEnv).fleet;
      && g in back.heap
      && back.heap[g].stopped == (f.heap[g].stopped || StoppedBy(f, p, n, env, undoEnv, g))
      && (View(back.heap[g]) == View(f.heap[g]) <==> PolicyReturns(f, p, n, env, undoEnv, g))
  {
    ValidatedIsReady(f, p);
    var steps := StepsOf(p)[..n];
    ReadyTake(f, StepsOf(p), n);
    if Concerns(f, steps, f.heap[g].name) {
      var i :| 0 <= i < |steps| && Known(f.heap, steps[i]) && NameAt(f.heap, steps[i]) == f.heap[g].name;
      RunRuntime(f, steps, env, undoEnv, i, g);
      OnlyStep(f, p, n, env, undoEnv, g, i);
      assert Ready(f, steps[i]);
      if Moves(steps[i], g) {
        MoveAccepted(f, p, i, g);
        ReturnsByStep(f.heap[g], steps[i], env, undoEnv);
      }
      LatchedView(f.heap[g]);
    } else {
      RunSpares(f, steps, env, undoEnv, g);
      NoStep(f, p, n, env, undoEnv, g);
    }
  }

  lemma MoveAccepted(f: Fleet, p: Prepared, i: nat, g: Gen)
    requires WellPrepared(p, f.heap) && i < |StepsOf(p)| && Moves(StepsOf(p)[i], g) && g in f.heap
    ensures Accepts(f.heap[g], StepsOf(p)[i].to)
  {
    StepsAccepted(p, f.heap);
    assert Accepted(f.heap, StepsOf(p)[i]);
  }

  lemma ReturnsByStep(r: Runtime, s: Step, env: Env, undoEnv: Env)
    requires s.PolicyStep? ==> Accepts(r, s.to)
    ensures s.PolicyStep? ==>
      var back := Moved(Moved(r, s.to, env), s.from, undoEnv);
      back.stopped == r.stopped && (View(back) == View(r) <==> Returns(r, s.from, s.to, env, undoEnv))
  {
    if s.PolicyStep? {
      RunsView(r, s.to, env);
      RunsView(r, s.from, undoEnv);
      if Accepts(r, s.from) {
        RewriteTwice(r, s.to, s.from, env, undoEnv);
      }
    }
  }

  lemma RewriteTwice(r: Runtime, to: DatabaseConfig, from: DatabaseConfig, env: Env, undoEnv: Env)
    ensures View(WithPolicy(WithPolicy(r, to, env), from, undoEnv)) == View(WithPolicy(r, from, undoEnv))
  {
  }

  lemma LatchedView(r: Runtime)
    ensures View(Stopped(r)) == View(r) <==> (r.executor ==> !r.enabled)
  {
  }

  /** If step i is about g's name, it alone decides about g. */
  lemma {:induction false} OnlyStep(f: Fleet, p: Prepared, n: nat, env: Env, undoEnv: Env, g: Gen, i: nat)
    requires WellPrepared(p, f.heap) && Valid(f) && Validates(f, p) && i < n <= |StepsOf(p)| && g in f.heap
    requires AllReady(f, StepsOf(p)) && NameAt(f.heap, StepsOf(p)[i]) == f.heap[g].name
    ensures Known(f.heap, StepsOf(p)[i])
    ensures StoppedBy(f, p, n, env, undoEnv, g) <==> UndoLatches(f, StepsOf(p)[i], env, undoEnv, g)
    ensures PolicyReturns(f, p, n, env, undoEnv, g) <==>
      if Moves(StepsOf(p)[i], g) then Returns(f.heap[g], StepsOf(p)[i].from, StepsOf(p)[i].to, env, undoEnv)
      else UndoLatches(f, StepsOf(p)[i], env, undoEnv, g) && f.heap[g].executor ==> !f.heap[g].enabled
  {
    var steps := StepsOf(p);
    assert Ready(f, steps[i]);
    forall j: nat | j < n && Known(f.heap, steps[j]) && UndoLatches(f, steps[j], env, undoEnv, g)
      ensures j == i
    {
      assert Ready(f, steps[j]);
      TouchesOwnName(f, steps[j], env, undoEnv, g);
      ConcernedBy(f, steps, i, j, f.heap[g].name);
    }
    forall j: nat | j < |p.hot| && HotStep(p, j) < n && p.hot[j].instance == g
      ensures HotStep(p, j) == i && steps[i] == PolicyStep(g, p.hot[j].was, p.hot[j].cfg)
    {
      StepAt(p, HotStep(p, j));
      assert Ready(f, steps[HotStep(p, j)]);
      TouchesOwnName(f, steps[HotStep(p, j)], env, undoEnv, g);
      ConcernedBy(f, steps, i, HotStep(p, j), f.heap[g].name);
    }
    if Moves(steps[i], g) {
      StepAt(p, i);
      var j := i - |p.removals| - |p.candidates|;
      assert HotStep(p, j) == i && p.hot[j].instance == g;
    }
  }

  lemma {:induction false} NoStep(f: Fleet, p: Prepared, n: nat, env: Env, undoEnv: Env, g: Gen)
    requires WellPrepared(p, f.heap) && Valid(f) && n <= |StepsOf(p)| && g in f.heap
    requires AllReady(f, StepsOf(p)) && !Concerns(f, StepsOf(p)[..n], f.heap[g].name)
    ensures !StoppedBy(f, p, n, env, undoEnv, g) && PolicyReturns(f, p, n, env, undoEnv, g)
  {
    var steps := StepsOf(p);
    forall j: nat | j < n && Known(f.heap, steps[j])
      ensures !UndoLatches(f, steps[j], env, undoEnv, g) && !Moves(steps[j], g)
    {
      assert Ready(f, steps[j]) && steps[..n][j] == steps[j];
      TouchesOwnName(f, steps[j], env, undoEnv, g);
    }
    forall j: nat | j < |p.hot| && HotStep(p, j) < n
      ensures p.hot[j].instance != g
    {
      StepAt(p, HotStep(p, j));
      assert Ready(f, steps[HotStep(p, j)]);
    }
  }

  /** How many steps a Commit that fails has done. */
  ghost function StepsDone(f: Fleet, p: Prepared, fault: int): nat
    requires Built(p)
  {
    if Validates(f, p) && 0 <= fault < |StepsOf(p)| then fault else 0
  }

  /** A Commit that fails leaves a generation's config, trust, mode, gate and status as they were if
      and only if PolicyReturns: above all, its runtime agreed with its old config where it had been
      moved, and its gate was closed where a stop was latched on the way. It releases no stop and
      latches exactly those. */
  lemma CommitAllOrNothing(f: Fleet, p: Prepared, env: Env, fault: int, g: Gen)
    requires WellPrepared(p, f.heap) && Valid(f) && g in f.heap
    ensures var o := CommitRun(f, p, env, fault);
      var n := StepsDone(f, p, fault);
      !o.ok ==>
        && g in o.fleet.heap
        && o.fleet.heap[g].stopped == (f.heap[g].stopped || StoppedBy(f, p, n, env, env, g))
        && (View(o.fleet.heap[g]) == View(f.heap[g]) <==> PolicyReturns(f, p, n, env, env, g))
  {
    CommitRegistry(f, p, env, fault);
    if Validates(f, p) && 0 <= fault < |StepsOf(p)| {
      UndoneGeneration(f, p, fault, env, env, g);
    }
  }

  // ----- rollback after a commit

  ghost function RollbackRun(f: Fleet, p: Prepared, env: Env): Outcome
    requires Built(p)
  {
    UndoAll(f, StepsOf(p), env)
  }

  lemma RollbackRegistry(f: Fleet, p: Prepared, env: Env, rollbackEnv: Env)
    requires WellPrepared(p, f.heap) && Valid(f) && Validates(f, p)
    ensures RollbackRun(DoAll(f, StepsOf(p), env), p, rollbackEnv).fleet.instances == f.instances
    ensures SameStatics(f, RollbackRun(DoAll(f, StepsOf(p), env), p, rollbackEnv).fleet)
    ensures SameStatics(f, DoAll(f, StepsOf(p), env))
  {
    ValidatedIsReady(f, p);
    UndoRestoresRegistry(f, StepsOf(p), env, rollbackEnv);
    RunStatics(f, StepsOf(p), env);
  }

  /** Rolling a committed reload back restores every published name, and fails a step exactly when an
      executor does not take the level of its old config. Stops come back as they were plus exactly the
      ones latched on the way; a generation's policy comes back if and only if PolicyReturns, with the
      defaults in force at rollback. */
  lemma RollbackRestores(f: Fleet, p: Prepared, env: Env, rollbackEnv: Env, g: Gen)
    requires WellPrepared(p, f.heap) && Valid(f) && Validates(f, p) && g in f.heap
    ensures var back := RollbackRun(DoAll(f, StepsOf(p), env), p, rollbackEnv);
      var n := |StepsOf(p)|;
      && (back.ok <==> forall i :: 0 <= i < |p.hot| ==> Accepts(f.heap[p.hot[i].instance], p.hot[i].was))
      && back.fleet.instances == f.instances
      && SameStatics(f, back.fleet)
      && back.fleet.heap[g].stopped == (f.heap[g].stopped || StoppedBy(f, p, n, env, rollbackEnv, g))
      && (View(back.fleet.heap[g]) == View(f.heap[g]) <==> PolicyReturns(f, p, n, env, rollbackEnv, g))
  {
    ValidatedIsReady(f, p);
    var steps := StepsOf(p);
    assert steps[..|steps|] == steps;
    UndoRestoresRegistry(f, steps, env, rollbackEnv);
    UndoableIsHot(f, p);
    UndoneGeneration(f, p, |steps|, env, rollbackEnv, g);
  }

  lemma UndoableIsHot(f: Fleet, p: Prepared)
    requires WellPrepared(p, f.heap)
    ensures AllUndoable(f.heap, StepsOf(p)) <==>
      forall i :: 0 <= i < |p.hot| ==> Accepts(f.heap[p.hot[i].instance], p.hot[i].was)
  {
    forall i: nat | i < |p.hot|
      ensures p.hot[i].instance in f.heap
      ensures StepsOf(p)[HotStep(p, i)] == PolicyStep(p.hot[i].instance, p.hot[i].was, p.hot[i].cfg)
    {
      StepAt(p, HotStep(p, i));
      assert HotOk(p.hot[i], f.heap);
    }
    if AllUndoable(f.heap, StepsOf(p)) {
      forall i: nat | i < |p.hot|
        ensures Accepts(f.heap[p.hot[i].instance], p.hot[i].was)
      {
        assert Accepted(f.heap, Inverse(StepsOf(p)[HotStep(p, i)]));
      }
    }
    if forall i :: 0 <= i < |p.hot| ==> Accepts(f.heap[p.hot[i].instance], p.hot[i].was) {
      forall k | 0 <= k < |StepsOf(p)|
        ensures Accepted(f.heap, Inverse(StepsOf(p)[k]))
      {
        StepAt(p, k);
        if k >= |p.removals| + |p.candidates| {
          assert Accepts(f.heap[p.hot[k - |p.removals| - |p.candidates|].instance], p.hot[k - |p.removals| - |p.candidates|].was);
        }
      }
    }
  }

  /** Undo runs before the previous process defaults are published again, so a database whose old
      config names no execution mode is resolved with the new defaults. A generation that agreed
      with its config before the reload comes back exactly when that makes no difference. */
  lemma RollbackUnderNewDefaults(r: Runtime, was: DatabaseConfig, env: Env, next: Env)
    requires Agrees(r, was, env) && env.globalTrust == next.globalTrust
    ensures Agrees(r, was, next) <==>
      || !r.executor || was.executionMode != "" || env.defaultMode == next.defaultMode
      || (env.defaultMode !in ["approval", "manual"] && next.defaultMode !in ["approval", "manual"])
  {
  }

  // ----- a stop holds the executor's gate

  predicate GateHeld(r: Runtime) {
    r.executor && r.stopped ==> !r.enabled
  }

  ghost predicate GatesHeld(f: Fleet) {
    forall g :: g in f.heap ==> GateHeld(f.heap[g])
  }

  /** Moving the generation to the config opens the gate of a stopped executor. */
  predicate Reopens(r: Runtime, to: DatabaseConfig) {
    r.executor && r.stopped && GateOn(to.executorEnabled)
  }

  /** Moving it there and back leaves that gate open: the old config says so or, if its level is not
      taken back, the new one does. */
  predicate ReopensBack(r: Runtime, was: DatabaseConfig, to: DatabaseConfig) {
    if Accepts(r, was) then Reopens(r, was) else Reopens(r, to)
  }

  /** A committed reload keeps every stopped executor's gate closed if and only if no database it
      changes in place is stopped and enabled in its new config. */
  lemma {:induction false} CommitKeepsGates(f: Fleet, p: Prepared, env: Env)
    requires WellPrepared(p, f.heap) && Valid(f) && Validates(f, p) && GatesHeld(f)
    ensures GatesHeld(DoAll(f, StepsOf(p), env)) <==>
      forall i :: 0 <= i < |p.hot| ==> !Reopens(f.heap[p.hot[i].instance], p.hot[i].cfg)
  {
    ValidatedIsReady(f, p);
    var steps, after := StepsOf(p), DoAll(f, StepsOf(p), env);
    RunStatics(f, steps, env);
    if forall i :: 0 <= i < |p.hot| ==> !Reopens(f.heap[p.hot[i].instance], p.hot[i].cfg) {
      forall g | g in after.heap
        ensures GateHeld(after.heap[g])
      {
        DoneGate(f, p, env, env, g);
      }
    }
    if GatesHeld(after) {
      forall i: nat | i < |p.hot|
        ensures !Reopens(f.heap[p.hot[i].instance], p.hot[i].cfg)
      {
        HotDone(f, p, |steps|, env, env, i);
        assert steps[..|steps|] == steps;
        assert GateHeld(after.heap[p.hot[i].instance]);
      }
    }
  }

  /** Undoing the first n steps keeps the gates closed if and only if none of the databases they
      changed in place is stopped and enabled in the config that stays in force. */
  lemma {:induction false} UndoKeepsGates(f: Fleet, p: Prepared, n: nat, env: Env, undoEnv: Env)
    requires WellPrepared(p, f.heap) && Valid(f) && Validates(f, p) && GatesHeld(f) && n <= |StepsOf(p)|
    ensures var steps := StepsOf(p)[..n];
      GatesHeld(UndoAll(DoAll(f, steps, env), steps, undoEnv).fleet) <==>
      forall i :: 0 <= i < |p.hot| && HotStep(p, i) < n ==>
        !ReopensBack(f.heap[p.hot[i].instance], p.hot[i].was, p.hot[i].cfg)
  {
    ValidatedIsReady(f, p);
    var steps := StepsOf(p)[..n];
    ReadyTake(f, StepsOf(p), n);
    UndoRestoresRegistry(f, steps, env, undoEnv);
    var back := UndoAll(DoAll(f, steps, env), steps, undoEnv).fleet;
    if forall i :: 0 <= i < |p.hot| && HotStep(p, i) < n ==>
        !ReopensBack(f.heap[p.hot[i].instance], p.hot[i].was, p.hot[i].cfg) {
      forall g | g in back.heap
        ensures GateHeld(back.heap[g])
      {
        UndoneGate(f, p, n, env, undoEnv, g);
      }
    }
    if GatesHeld(back) {
      forall i: nat | i < |p.hot| && HotStep(p, i) < n
        ensures !ReopensBack(f.heap[p.hot[i].instance], p.hot[i].was, p.hot[i].cfg)
      {
        HotDone(f, p, n, env, undoEnv, i);
        assert GateHeld(back.heap[p.hot[i].instance]) && HotOk(p.hot[i], f.heap);
        MovedGate(f.heap[p.hot[i].instance], p.hot[i].cfg, p.hot[i].was, env, undoEnv);
      }
    }
  }

  lemma {:induction false} HotDone(f: Fleet, p: Prepared, n: nat, env: Env, undoEnv: Env, i: nat)
    requires WellPrepared(p, f.heap) && Valid(f) && Validates(f, p) && AllReady(f, StepsOf(p))
    requires n <= |StepsOf(p)| && i < |p.hot| && HotStep(p, i) < n
    ensures var g, steps := p.hot[i].instance, StepsOf(p)[..n];
      var done, back := DoAll(f, steps, env), UndoAll(DoAll(f, steps, env), steps, undoEnv).fleet;
      && g in f.heap && g in done.heap && g in back.heap
      && done.heap[g] == WithPolicy(f.heap[g], p.hot[i].cfg, env)
      && back.heap[g] == Moved(WithPolicy(f.heap[g], p.hot[i].cfg, env), p.hot[i].was, undoEnv)
  {
    var steps := StepsOf(p)[..n];
    ReadyTake(f, StepsOf(p), n);
    StepAt(p, HotStep(p, i));
    assert steps[HotStep(p, i)] == PolicyStep(p.hot[i].instance, p.hot[i].was, p.hot[i].cfg);
    assert Ready(f, steps[HotStep(p, i)]) && HotOk(p.hot[i], f.heap);
    RunRuntime(f, steps, env, undoEnv, HotStep(p, i), p.hot[i].instance);
  }

  lemma MovedGate(r: Runtime, to: DatabaseConfig, from: DatabaseConfig, env: Env, undoEnv: Env)
    ensures Accepts(r, to) && !Reopens(r, to) ==> GateHeld(Moved(r, to, env))
    ensures Accepts(r, to) ==> (GateHeld(Moved(Moved(r, to, env), from, undoEnv)) <==> !ReopensBack(r, from, to))
    ensures GateHeld(Stopped(r))
  {
  }

  lemma {:induction false} RunGate(f: Fleet, steps: seq<Step>, env: Env, undoEnv: Env, g: Gen)
    requires AllReady(f, steps) && AllAccepted(f.heap, steps) && Valid(f) && g in f.heap && GateHeld(f.heap[g])
    ensures g in DoAll(f, steps, env).heap && g in UndoAll(DoAll(f, steps, env), steps, undoEnv).fleet.heap
    ensures (forall i :: 0 <= i < |steps| && Moves(steps[i], g) ==> !Reopens(f.heap[g], steps[i].to)) ==>
      GateHeld(DoAll(f, steps, env).heap[g])
    ensures (forall i :: 0 <= i < |steps| && Moves(steps[i], g) ==>
        !ReopensBack(f.heap[g], steps[i].from, steps[i].to)) ==>
      GateHeld(UndoAll(DoAll(f, steps, env), steps, undoEnv).fleet.heap[g])
  {
    if Concerns(f, steps, f.heap[g].name) {
      var i :| 0 <= i < |steps| && Known(f.heap, steps[i]) && NameAt(f.heap, steps[i]) == f.heap[g].name;
      RunRuntime(f, steps, env, undoEnv, i, g);
      if Moves(steps[i], g) {
        assert Accepted(f.heap, steps[i]);
        MovedGate(f.heap[g], steps[i].to, steps[i].from, env, undoEnv);
      } else {
        MovedGate(f.heap[g], f.heap[g].config, f.heap[g].config, env, undoEnv);
      }
    } else {
      RunSpares(f, steps, env, undoEnv, g);
    }
  }

  lemma {:induction false} DoneGate(f: Fleet, p: Prepared, env: Env, undoEnv: Env, g: Gen)
    requires WellPrepared(p, f.heap) && Valid(f) && AllReady(f, StepsOf(p)) && g in f.heap && GateHeld(f.heap[g])
    requires forall i :: 0 <= i < |p.hot| ==> !Reopens(f.heap[p.hot[i].instance], p.hot[i].cfg)
    ensures g in DoAll(f, StepsOf(p), env).heap && GateHeld(DoAll(f, StepsOf(p), env).heap[g])
  {
    StepsAccepted(p, f.heap);
    RunGate(f, StepsOf(p), env, undoEnv, g);
    forall i: nat | i < |StepsOf(p)| && Moves(StepsOf(p)[i], g)
      ensures !Reopens(f.heap[g], StepsOf(p)[i].to)
    {
      var j := HotNumber(p, i, g);
      assert !Reopens(f.heap[g], p.hot[j].cfg);
    }
  }

  lemma HotNumber(p: Prepared, i: nat, g: Gen) returns (j: nat)
    requires Built(p) && i < |StepsOf(p)| && Moves(StepsOf(p)[i], g)
    ensures j < |p.hot| && HotStep(p, j) == i && p.hot[j].instance == g
    ensures StepsOf(p)[i].from == p.hot[j].was && StepsOf(p)[i].to == p.hot[j].cfg
  {
    StepAt(p, i);
    j := i - |p.removals| - |p.candidates|;
  }

  lemma {:induction false} UndoneGate(f: Fleet, p: Prepared, n: nat, env: Env, undoEnv: Env, g: Gen)
    requires WellPrepared(p, f.heap) && Valid(f) && AllReady(f, StepsOf(p)) && g in f.heap && GateHeld(f.heap[g])
    requires n <= |StepsOf(p)|
    requires forall i :: 0 <= i < |p.hot| && HotStep(p, i) < n ==>
        !ReopensBack(f.heap[p.hot[i].instance], p.hot[i].was, p.hot[i].cfg)
    ensures var back := UndoAll(DoAll(f, StepsOf(p)[..n], env), StepsOf(p)[..n], undoEnv).fleet;
      g in back.heap && GateHeld(back.heap[g])
  {
    ReadyTake(f, StepsOf(p), n);
    var steps := StepsOf(p)[..n];
    forall i: nat | i < |steps| && Moves(steps[i], g)
      ensures !ReopensBack(f.heap[g], steps[i].from, steps[i].to)
    {
      assert steps[i] == StepsOf(p)[i];
      var j := HotNumber(p, i, g);
      assert !ReopensBack(f.heap[g], p.hot[j].was, p.hot[j].cfg);
    }
    StepsAccepted(p, f.heap);
    forall i: nat | i < |steps|
      ensures Accepted(f.heap, steps[i])
    {
      assert Accepted(f.heap, StepsOf(p)[i]) && steps[i] == StepsOf(p)[i];
    }
    RunGate(f, steps, env, undoEnv, g);
  }

  // ----- two reloads that show it

  function PlainConfig(trust: string, mode: string): DatabaseConfig {
    DatabaseConfig("a", "", None, trust, true, mode, None, [])
  }

  /** One running database whose runtime is what its config says. */
  function OneDatabase(was: DatabaseConfig, env: Env): Fleet {
    var bare := Runtime("a", true, true, was, "", "", true, false, false, "", false);
    Fleet(map["a" := 0], "a", map[0 := WithPolicy(bare, was, env)])
  }

  function OneHotChange(was: DatabaseConfig, cfg: DatabaseConfig): Prepared {
    Prepared([], [], [HotChange(0, was, cfg)])
  }

  lemma OneHotIsFine(f: Fleet, was: DatabaseConfig, cfg: DatabaseConfig)
    requires was.name == cfg.name == "a" && ValidTrust(cfg.trustLevel)
    requires f.instances == map["a" := 0] && f.primary == "a" && f.heap.Keys == {0} && f.heap[0].name == "a"
    ensures var p := OneHotChange(was, cfg);
      WellPrepared(p, f.heap) && Valid(f) && Validates(f, p) && |StepsOf(p)| == 1 && p.hot[0].instance == 0
  {
    var p := OneHotChange(was, cfg);
    assert 0 in f.heap;
    assert forall i :: 0 <= i < |p.hot| ==> p.hot[i] == HotChange(0, was, cfg);
  }

  /** A reload that only changes the trust level of a database under an emergency stop opens its
      executor's gate, and rolling it back does not close it. */
  lemma HotReloadReopensTheGate()
    ensures exists f: Fleet, p: Prepared, env: Env ::
      && WellPrepared(p, f.heap) && Valid(f) && Validates(f, p) && GatesHeld(f)
      && CommitRun(f, p, env, -1).ok
      && !GatesHeld(CommitRun(f, p, env, -1).fleet)
      && !GatesHeld(RollbackRun(CommitRun(f, p, env, -1).fleet, p, env).fleet)
  {
    var env := Env("auto", "advisory", g => false);
    var was, cfg := PlainConfig("advisory", "auto"), PlainConfig("observation", "auto");
    var running := OneDatabase(was, env);
    var f := running.(heap := map[0 := Stopped(running.heap[0])]);
    var p := OneHotChange(was, cfg);
    OneHotIsFine(f, was, cfg);
    assert Reopens(f.heap[p.hot[0].instance], p.hot[0].cfg) && Reopens(f.heap[p.hot[0].instance], p.hot[0].was);
    CommitRegistry(f, p, env, -1);
    CommitKeepsGates(f, p, env);
    UndoKeepsGates(f, p, 1, env, env);
    assert StepsOf(p)[..1] == StepsOf(p);
    assert GatesHeld(f);
  }

  /** A reload that changes the default mode, committed and rolled back, leaves a database whose old
      config names no mode in the new default mode. */
  lemma RollbackCanKeepTheNewMode()
    ensures exists f: Fleet, p: Prepared, env: Env, next: Env ::
      && WellPrepared(p, f.heap) && Valid(f) && Validates(f, p) && Unmoded(p)
      && KeepsNewMode(f, p.hot[0].was, env, RollbackRun(DoAll(f, StepsOf(p), env), p, next).fleet)
  {
    var was, cfg := PlainConfig("advisory", ""), PlainConfig("observation", "");
    var env, next := Env("auto", "advisory", g => false), Env("manual", "advisory", g => false);
    var f, p := OneDatabase(was, env), OneHotChange(was, cfg);
    OneHotIsFine(f, was, cfg);
    ValidatedIsReady(f, p);
    HotDone(f, p, 1, env, next, 0);
    assert StepsOf(p)[..1] == StepsOf(p);
    var back := RollbackRun(DoAll(f, StepsOf(p), env), p, next).fleet;
    assert back.heap[0] == Moved(WithPolicy(f.heap[0], cfg, env), was, next);
    assert KeepsNewMode(f, was, env, back);
    assert Unmoded(p) && p.hot[0].was == was;
  }

  /** Generation 0 agreed with its config in the automatic mode and is in the manual mode now. */
  predicate KeepsNewMode(f: Fleet, was: DatabaseConfig, env: Env, back: Fleet) {
    && 0 in f.heap && Agrees(f.heap[0], was, env) && f.heap[0].mode == "auto"
    && 0 in back.heap && back.heap[0].mode == "manual"
  }

  /** A database whose old config names no known trust level cannot be moved back: the step fails
      after its metadata moved, and the new level stays. */
  lemma {:induction false} RollbackCanFail(was: DatabaseConfig, cfg: DatabaseConfig, env: Env, rollbackEnv: Env)
    requires was.name == cfg.name == "a" && !ValidTrust(was.trustLevel) && ValidTrust(cfg.trustLevel)
    ensures var f, p := OneDatabase(was, env), OneHotChange(was, cfg);
      && WellPrepared(p, f.heap) && Valid(f) && Validates(f, p)
      && !RollbackRun(DoAll(f, StepsOf(p), env), p, rollbackEnv).ok
      && HalfBack(HotChange(0, was, cfg), RollbackRun(DoAll(f, StepsOf(p), env), p, rollbackEnv).fleet)
  {
    var f, p := OneDatabase(was, env), OneHotChange(was, cfg);
    OneHotIsFine(f, was, cfg);
    ValidatedIsReady(f, p);
    assert p.hot[0] == HotChange(0, was, cfg);
    assert !Accepts(f.heap[p.hot[0].instance], p.hot[0].was);
    RollbackRestores(f, p, env, rollbackEnv, 0);
    HotDone(f, p, 1, env, rollbackEnv, 0);
    assert StepsOf(p)[..1] == StepsOf(p);
  }

  /** The generation has its old config and its new trust level. */
  predicate HalfBack(h: HotChange, back: Fleet) {
    h.instance in back.heap && back.heap[h.instance].config == h.was
    && back.heap[h.instance].trust == h.cfg.trustLevel != h.was.trustLevel
  }

  predicate Unmoded(p: Prepared) {
    |p.hot| > 0 && p.hot[0].was.executionMode == ""
  }

  // ----- the primary

  /** The removals among the first n steps, and the other steps among them. */
  function Removals(p: Prepared, n: nat): seq<Step>
    requires Built(p) && n <= |StepsOf(p)|
  {
    StepsOf(p)[..if n < |p.removals| then n else |p.removals|]
  }

  function Others(p: Prepared, n: nat): seq<Step>
    requires Built(p) && n <= |StepsOf(p)|
  {
    StepsOf(p)[if n < |p.removals| then n else |p.removals|..n]
  }

  lemma Phases(f: Fleet, p: Prepared, n: nat)
    requires WellPrepared(p, f.heap) && n <= |StepsOf(p)|
    ensures Removals(p, n) + Others(p, n) == StepsOf(p)[..n]
    ensures AllDetach(Removals(p, n)) && NoDetach(Others(p, n)) && CandidatesConnected(f, StepsOf(p)[..n])
  {
    var steps := StepsOf(p);
    forall i | 0 <= i < |steps|
      ensures i < |p.removals| <==> steps[i].DetachStep?
      ensures steps[i].ReplaceStep? && Known(f.heap, steps[i]) && f.heap[steps[i].was].connected ==>
        f.heap[steps[i].cand].connected
    {
      StepAt(p, i);
      if |p.removals| <= i < |p.removals| + |p.candidates| {
        assert CandidateOk(p.candidates[i - |p.removals|], f.heap);
      }
    }
  }

  /** Undoing the first n steps gives the primary back if and only if it was not removed, or
      everything connected was and it was the last of them. */
  lemma {:induction false} UndonePrimary(f: Fleet, p: Prepared, env: Env, undoEnv: Env, n: nat)
    requires WellPrepared(p, f.heap) && Valid(f) && Validates(f, p) && PrimaryOk(f) && n <= |StepsOf(p)|
    ensures UndoAll(DoAll(f, StepsOf(p)[..n], env), StepsOf(p)[..n], undoEnv).fleet.primary == f.primary
      <==> PrimaryReturns(f, Removals(p, n), Others(p, n))
  {
    ValidatedIsReady(f, p);
    ReadyTake(f, StepsOf(p), n);
    Phases(f, p, n);
    PrimaryAfterUndo(f, Removals(p, n), Others(p, n), env, undoEnv);
  }

  /** The same for a committed reload that is rolled back. */
  lemma RollbackPrimary(f: Fleet, p: Prepared, env: Env, rollbackEnv: Env)
    requires WellPrepared(p, f.heap) && Valid(f) && Validates(f, p) && PrimaryOk(f)
    ensures var n := |StepsOf(p)|;
      RollbackRun(DoAll(f, StepsOf(p), env), p, rollbackEnv).fleet.primary == f.primary
      <==> PrimaryReturns(f, Removals(p, n), Others(p, n))
  {
    var n := |StepsOf(p)|;
    assert StepsOf(p)[..n] == StepsOf(p);
    UndonePrimary(f, p, env, rollbackEnv, n);
  }

  /** The same for a Commit stopped at step `fault`. */
  lemma CommitPrimary(f: Fleet, p: Prepared, env: Env, fault: nat)
    requires WellPrepared(p, f.heap) && Valid(f) && Validates(f, p) && PrimaryOk(f) && fault < |StepsOf(p)|
    ensures !CommitRun(f, p, env, fault).ok
    ensures CommitRun(f, p, env, fault).fleet.primary == f.primary
      <==> PrimaryReturns(f, Removals(p, fault), Others(p, fault))
  {
    CommitRegistry(f, p, env, fault);
    UndonePrimary(f, p, env, env, fault);
  }

  // ----- two databases, one of them removed

  function Running(name: string, was: DatabaseConfig): Runtime {
    Runtime(name, true, true, was, "", "auto", true, false, false, "", false)
  }

  /** Two connected databases of which the first is primary. */
  function TwoDatabases(a: string, b: string, cfg: DatabaseConfig): Fleet {
    Fleet(map[a := 0, b := 1], a, map[0 := Running(a, cfg), 1 := Running(b, cfg)])
  }

  function TwoRemovals(): Prepared {
    Prepared([0, 1], [], [])
  }

  function OneRemoval(): Prepared {
    Prepared([0], [], [])
  }

  lemma RemovalsAreFine(a: string, b: string, cfg: DatabaseConfig)
    requires a != "" && b != "" && a != b
    ensures var f := TwoDatabases(a, b, cfg);
      && Valid(f) && f.instances[a] == 0 && f.instances[b] == 1
      && WellPrepared(OneRemoval(), f.heap) && Validates(f, OneRemoval()) && |StepsOf(OneRemoval())| == 1
      && WellPrepared(TwoRemovals(), f.heap) && Validates(f, TwoRemovals()) && |StepsOf(TwoRemovals())| == 2
  {
    var f := TwoDatabases(a, b, cfg);
    assert ReloadNames(OneRemoval(), f.heap) == [a];
    assert ReloadNames(TwoRemovals(), f.heap) == [a, b];
  }

  /** A Commit that removes a running database and is stopped at its next step registers it again
      with its durable stop latched: its gate, open before, is closed. */
  lemma FailedCommitCanCloseTheGate(a: string, b: string, cfg: DatabaseConfig)
    requires a != "" && b != "" && a != b
    ensures var f, p := TwoDatabases(a, b, cfg), TwoRemovals();
      var env := Env("auto", "advisory", g => g == 0);
      && WellPrepared(p, f.heap) && Valid(f) && Validates(f, p) && !CommitRun(f, p, env, 1).ok
      && f.heap[0].enabled && 0 in CommitRun(f, p, env, 1).fleet.heap
      && View(CommitRun(f, p, env, 1).fleet.heap[0]) != View(f.heap[0])
  {
    var f, p := TwoDatabases(a, b, cfg), TwoRemovals();
    var env := Env("auto", "advisory", g => g == 0);
    RemovalsAreFine(a, b, cfg);
    CommitRegistry(f, p, env, 1);
    CommitAllOrNothing(f, p, env, 1, 0);
    StepAt(p, 0);
    assert Known(f.heap, StepsOf(p)[0]) && UndoLatches(f, StepsOf(p)[0], env, env, 0);
    assert StoppedBy(f, p, 1, env, env, 0);
  }

  /** Removing the primary of two connected databases and rolling back hands the primary over for
      good. */
  lemma RollbackCanLoseThePrimary(a: string, b: string, cfg: DatabaseConfig, env: Env, rollbackEnv: Env)
    requires a != "" && b != "" && a != b
    ensures var f := TwoDatabases(a, b, cfg);
      && WellPrepared(OneRemoval(), f.heap) && Valid(f) && Validates(f, OneRemoval())
      && RollbackRun(DoAll(f, StepsOf(OneRemoval()), env), OneRemoval(), rollbackEnv).fleet.primary != a
  {
    var f, p := TwoDatabases(a, b, cfg), OneRemoval();
    RemovalsAreFine(a, b, cfg);
    RollbackPrimary(f, p, env, rollbackEnv);
    StepAt(p, 0);
    assert Removals(p, 1) == [DetachStep(0)];
    assert RemovedNames(f.heap, [DetachStep(0)]) == {a};
    assert b in Connected(f);
  }

  // ----- no generation is lost or owned twice

  predicate IsInstance(cs: seq<Candidate>, g: Gen) {
    exists i :: 0 <= i < |cs| && cs[i].instance == Some(g)
  }

  predicate IsCandidate(p: Prepared, g: Gen) {
    IsInstance(p.candidates, g)
  }

  /** The generations Drain shuts down. */
  predicate IsRetired(p: Prepared, g: Gen) {
    g in p.removals || exists i :: 0 <= i < |p.candidates| && p.candidates[i].was == Some(g)
  }

  /** After Commit and Drain every generation that was published or built is exactly one of
      published and shut down; after Rollback, or a Commit that failed, so it is with the
      candidates shut down instead. */
  lemma GenerationsConserved(f: Fleet, p: Prepared, env: Env, rollbackEnv: Env, g: Gen)
    requires WellPrepared(p, f.heap) && Valid(f) && Validates(f, p) && g in f.heap
    requires Current?(f, g) || IsCandidate(p, g)
    ensures g in DoAll(f, StepsOf(p), env).heap
      && (Current?(DoAll(f, StepsOf(p), env), g) <==> !IsRetired(p, g))
    ensures var back := RollbackRun(DoAll(f, StepsOf(p), env), p, rollbackEnv).fleet;
      g in back.heap && (Current?(back, g) <==> !IsCandidate(p, g))
    ensures Current?(f, g) <==> !IsCandidate(p, g)
  {
    ValidatedIsReady(f, p);
    var steps := StepsOf(p);
    PublishedAfter(f, steps, env, g);
    StepsPublish(f, p, g);
    StepsRetire(p, g);
    UndoRestoresRegistry(f, steps, env, rollbackEnv);
    CandidatesFresh(f, p, g);
  }

  lemma StepsPublish(f: Fleet, p: Prepared, g: Gen)
    requires Built(p)
    ensures (exists i :: 0 <= i < |StepsOf(p)| && Publishes(StepsOf(p)[i], g)) <==> IsCandidate(p, g)
  {
    var steps := StepsOf(p);
    if i :| 0 <= i < |steps| && Publishes(steps[i], g) {
      StepAt(p, i);
      assert p.candidates[i - |p.removals|].instance == Some(g);
    }
    if IsCandidate(p, g) {
      var i :| 0 <= i < |p.candidates| && p.candidates[i].instance == Some(g);
      StepAt(p, |p.removals| + i);
      assert Publishes(steps[|p.removals| + i], g);
    }
  }

  lemma StepsRetire(p: Prepared, g: Gen)
    requires Built(p)
    ensures (exists i :: 0 <= i < |StepsOf(p)| && Retires(StepsOf(p)[i], g)) <==> IsRetired(p, g)
  {
    var steps := StepsOf(p);
    if i :| 0 <= i < |steps| && Retires(steps[i], g) {
      StepAt(p, i);
      if i >= |p.removals| {
        assert p.candidates[i - |p.removals|].was == Some(g);
      }
    }
    if g in p.removals {
      var i :| 0 <= i < |p.removals| && p.removals[i] == g;
      StepAt(p, i);
      assert Retires(steps[i], g);
    } else if IsRetired(p, g) {
      var i :| 0 <= i < |p.candidates| && p.candidates[i].was == Some(g);
      StepAt(p, |p.removals| + i);
      assert Retires(steps[|p.removals| + i], g);
    }
  }

  lemma CandidatesFresh(f: Fleet, p: Prepared, g: Gen)
    requires WellPrepared(p, f.heap) && Valid(f) && Validates(f, p) && g in f.heap
    ensures IsCandidate(p, g) ==> !Current?(f, g)
    ensures IsCandidate(p, g) ==> !IsRetired(p, g)
  {
    if IsCandidate(p, g) {
      var i :| 0 <= i < |p.candidates| && p.candidates[i].instance == Some(g);
      CandidateUnpublished(f, p, i);
      forall j | 0 <= j < |p.removals|
        ensures p.removals[j] != g
      {
        assert Current?(f, p.removals[j]);
      }
      forall j | 0 <= j < |p.candidates|
        ensures p.candidates[j].was != Some(g)
      {
        WasPublished(f, p, j);
      }
    }
  }

  lemma CandidateUnpublished(f: Fleet, p: Prepared, i: nat)
    requires WellPrepared(p, f.heap) && Validates(f, p) && i < |p.candidates|
    ensures p.candidates[i].instance.value in f.heap && !Current?(f, p.candidates[i].instance.value)
  {
    assert CandidateOk(p.candidates[i], f.heap) && CandidateCurrent(f, p.candidates[i]);
  }

  lemma WasPublished(f: Fleet, p: Prepared, j: nat)
    requires WellPrepared(p, f.heap) && Valid(f) && Validates(f, p) && j < |p.candidates|
    ensures p.candidates[j].was.Some? ==>
      p.candidates[j].was.value in f.heap && Current?(f, p.candidates[j].was.value)
  {
    assert CandidateOk(p.candidates[j], f.heap) && CandidateCurrent(f, p.candidates[j]);
  }
}
