/** The fleet reload owner in its own imperative form: the manager's registry and the prepared
    reload that is committed, rolled back or drained. */
module FleetOwner {
  import opened Names
  import opened FleetPlan
  import opened FleetRegistry
  import opened FleetSteps
  import opened FleetReload

  /** The process state a reload touches: registry, instances, retired instances, defaults. */
  class Process {
    var instances: map<string, Gen>
    var primary: string
    var heap: map<Gen, Runtime>
    var nextGen: nat
    var down: set<Gen>
    var defaultMode: string
    const globalTrust: string
    const durableStop: Gen -> bool

    ghost function State(): Fleet
      reads this
    {
      Fleet(instances, primary, heap)
    }

    function Environment(): Env
      reads this
    {
      Env(defaultMode, globalTrust, durableStop)
    }

    ghost predicate Ok()
      reads this
    {
      Valid(State()) && forall g :: g in heap ==> g < nextGen && heap[g].name != ""
    }

    constructor (globalTrust: string, durableStop: Gen -> bool)
      ensures Ok() && instances == map[] && heap == map[] && down == {}
    {
      this.globalTrust, this.durableStop := globalTrust, durableStop;
      instances, primary, heap, nextGen, down, defaultMode := map[], "", map[], 0, {}, "";
    }

    method FirstConnectedName() returns (first: string)
      requires "" !in instances && forall n :: n in instances ==> instances[n] in heap
      ensures first == FirstConnected(instances, heap)
      ensures first == "" ==> forall n :: n in instances ==> !heap[instances[n]].connected
      ensures first != "" ==> first in instances && heap[instances[first]].connected
      ensures first != "" ==> forall n :: n in instances && heap[instances[n]].connected ==> AtMost(first, n)
    {
      first := "";
      var todo := instances.Keys;
      ghost var seen: set<string> := {};
      while todo != {}
        invariant todo !! seen && todo + seen == instances.Keys
        invariant first == "" ==> forall m :: m in seen ==> !ConnectedName(instances, heap, m)
        invariant first != "" ==> first in seen && ConnectedName(instances, heap, first)
        invariant first != "" ==>
          forall m :: m in seen && ConnectedName(instances, heap, m) ==> AtMost(first, m)
        decreases todo
      {
        var n :| n in todo;
        todo, seen := todo - {n}, seen + {n};
        if heap[instances[n]].connected {
          LessTrichotomy(n, n);
          if first == "" {
            first := n;
          } else if Less(n, first) {
            forall m | m in seen && m != n && ConnectedName(instances, heap, m)
              ensures AtMost(n, m)
            {
              LessTrichotomy(n, first);
              AtMostTransitive(n, first, m);
            }
            first := n;
          }
        }
      }
      var names := ConnectedNames(instances, heap);
      if first == "" {
        assert names == {};
      } else {
        LeastIs(names, first);
      }
    }

    method Latch(g: Gen)
      requires g in heap
      modifies this`heap
      ensures State() == LatchStop(old(State()), g, Environment())
    {
      if heap[g].executor && durableStop(g) {
        heap := heap[g := heap[g].(stopped := true, enabled := false)];
      }
    }

    method DetachInstance(g: Gen) returns (ok: bool)
      requires Ok() && g in heap
      modifies this`instances, this`primary
      ensures State() == Detach(old(State()), g).fleet && ok == Detach(old(State()), g).ok
    {
      var todo := instances.Keys;
      ok := false;
      while todo != {}
        invariant !ok && instances == old(instances) && primary == old(primary)
        invariant todo <= instances.Keys
        invariant forall n :: n in instances && n !in todo ==> instances[n] != g
        decreases todo
      {
        var n :| n in todo;
        todo := todo - {n};
        if instances[n] == g {
          instances := instances - {n};
          if primary == n {
            primary := FirstConnectedName();
          }
          return true;
        }
      }
    }

    method PublishRegistration(g: Gen) returns (ok: bool)
      requires g in heap
      modifies this`instances, this`primary, this`heap
      ensures State() == Register(old(State()), g, Environment()).fleet
      ensures ok == Register(old(State()), g, Environment()).ok
    {
      Latch(g);
      var n := heap[g].name;
      if n in instances {
        return false;
      }
      if primary == "" && heap[g].connected {
        primary := n;
      }
      instances := instances[n := g];
      return true;
    }

    method PublishReplacement(n: string, was: Gen, cand: Gen) returns (ok: bool)
      requires Ok() && was in heap && cand in heap
      modifies this`instances, this`primary, this`heap
      ensures State() == Replace(old(State()), n, was, cand, Environment()).fleet
      ensures ok == Replace(old(State()), n, was, cand, Environment()).ok
    {
      Latch(cand);
      if n !in instances || instances[n] != was {
        return false;
      }
      var m := heap[cand].name;
      if m != n && m in instances {
        return false;
      }
      instances := (instances - {n})[m := cand];
      if heap[was].stopped {
        heap := heap[cand := heap[cand].(stopped := true, enabled := heap[cand].enabled && !heap[cand].executor)];
      }
      if primary == n {
        if heap[cand].connected {
          primary := m;
        } else {
          primary := FirstConnectedName();
        }
      }
      return true;
    }

    method ApplyPolicy(g: Gen, to: DatabaseConfig) returns (ok: bool)
      requires g in heap
      modifies this`heap
      ensures State() == SetPolicy(old(State()), g, to, Environment()).fleet
      ensures ok == SetPolicy(old(State()), g, to, Environment()).ok
      ensures PolicyApplied(old(State()), State(), g, to, Environment(), ok)
    {
      SetPolicyApplies(State(), g, to, Environment());
      if to.name != heap[g].name || to.name !in instances || instances[to.name] != g {
        return false;
      }
      ok := MovePolicy(g, to);
    }

    /** The metadata moves first, and stays moved when the executor refuses the level. */
    method MovePolicy(g: Gen, to: DatabaseConfig) returns (ok: bool)
      requires g in heap
      modifies this`heap
      ensures ok == Accepts(old(heap)[g], to)
      ensures heap == old(heap)[g := Moved(old(heap)[g], to, Environment())]
    {
      ghost var before := heap;
      heap := heap[g := heap[g].(config := to)];
      var ok', r, level := Retune(heap[g], to);
      if !ok' {
        return false;
      }
      r := r.(overrideKnown := true, overrideActive := to.trustExplicit, statusTrust := level);
      heap := heap[g := r];
      assert heap == before[g := r];
      return true;
    }

    /** The executor's part: trust, mode and gate, and the level its status shows. */
    method Retune(r: Runtime, to: DatabaseConfig) returns (ok: bool, tuned: Runtime, level: string)
      ensures ok == Accepts(r, to)
      ensures ok ==>
        WithPolicy(r, to, Environment()).(config := r.config)
        == tuned.(overrideKnown := true, overrideActive := to.trustExplicit, statusTrust := level)
    {
      tuned, level := r, to.trustLevel;
      if r.executor {
        if !ValidTrust(to.trustLevel) {
          return false, r, level;
        }
        tuned := r.(trust := to.trustLevel, mode := ResolveMode(to, defaultMode), enabled := GateOn(to.executorEnabled));
        level := EffectiveTrust(to.trustLevel, Environment());
      }
      ok := true;
    }

    method Perform(s: Step) returns (ok: bool)
      requires Ok() && Known(heap, s)
      modifies this`instances, this`primary, this`heap
      ensures Ok() && heap.Keys == old(heap.Keys)
      ensures State() == Do(old(State()), s, Environment()).fleet
      ensures ok == Do(old(State()), s, Environment()).ok
    {
      DoStatics(State(), s, Environment());
      DoAlwaysValid(State(), s, Environment());
      match s {
        case DetachStep(g) => ok := DetachInstance(g);
        case RegisterStep(g) => ok := PublishRegistration(g);
        case ReplaceStep(n, was, cand) => ok := PublishReplacement(n, was, cand);
        case PolicyStep(g, _, to) => ok := ApplyPolicy(g, to);
      }
    }
  }

  ghost predicate AllKnown(heap: map<Gen, Runtime>, steps: seq<Step>) {
    forall i :: 0 <= i < |steps| ==> Known(heap, steps[i])
  }

  /** undoLifecycleSteps: the last step done goes first, and an error does not end the loop. */
  method UndoLifecycleSteps(process: Process, steps: seq<Step>, done: nat) returns (ok: bool)
    requires process.Ok() && done <= |steps| && AllKnown(process.heap, steps)
    modifies process`instances, process`primary, process`heap
    ensures process.Ok() && process.heap.Keys == old(process.heap.Keys)
    ensures process.State() == UndoAll(old(process.State()), steps[..done], process.Environment()).fleet
    ensures ok == UndoAll(old(process.State()), steps[..done], process.Environment()).ok
  {
    ok := true;
    ghost var first := steps[..done];
    var i := done;
    while i > 0
      invariant 0 <= i <= done && process.Ok() && process.heap.Keys == old(process.heap.Keys)
      invariant process.State() == UndoAll(old(process.State()), first[i..], process.Environment()).fleet
      invariant ok == UndoAll(old(process.State()), first[i..], process.Environment()).ok
    {
      i := i - 1;
      assert first[i..][1..] == first[i + 1..];
      assert Known(process.heap, steps[i]);
      var undone := process.Perform(Inverse(steps[i]));
      ok := ok && undone;
    }
    assert first[0..] == first;
  }

  /** runLifecycleSteps, with the step numbered `fault` stopped before its effect. */
  method RunLifecycleSteps(process: Process, steps: seq<Step>, fault: int) returns (ok: bool)
    requires process.Ok() && AllKnown(process.heap, steps)
    modifies process`instances, process`primary, process`heap
    ensures process.Ok() && process.heap.Keys == old(process.heap.Keys)
    ensures process.State() == RunFrom(old(process.State()), steps, 0, process.Environment(), fault).fleet
    ensures ok == RunFrom(old(process.State()), steps, 0, process.Environment(), fault).ok
  {
    for i := 0 to |steps|
      invariant process.Ok() && process.heap.Keys == old(process.heap.Keys)
      invariant RunFrom(process.State(), steps, i, process.Environment(), fault)
        == RunFrom(old(process.State()), steps, 0, process.Environment(), fault)
    {
      assert Known(process.heap, steps[i]);
      var done := false;
      if i != fault {
        done := process.Perform(steps[i]);
      }
      if !done {
        var _ := UndoLifecycleSteps(process, steps, i);
        return false;
      }
    }
    return true;
  }

  /** discardCandidates: every runtime that was built is shut down. */
  method DiscardCandidates(process: Process, candidates: seq<Candidate>)
    modifies process`down
    ensures forall g :: g in process.down <==> g in old(process.down) || IsInstance(candidates, g)
  {
    for i := 0 to |candidates|
      invariant forall g :: g in process.down <==>
        g in old(process.down) || exists k :: 0 <= k < i && candidates[k].instance == Some(g)
    {
      if candidates[i].instance.Some? {
        process.down := process.down + {candidates[i].instance.value};
      }
    }
  }

  /** preparedFleetReload. */
  class PreparedReload {
    const process: Process
    const candidates: seq<Candidate>
    const removals: seq<Gen>
    const hot: seq<HotChange>
    const plan: Plan
    const nextMode: string
    const previousMode: string
    var committed: bool

    function Data(): Prepared {
      Prepared(removals, candidates, hot)
    }

    constructor (process: Process, plan: Plan, data: Prepared, nextMode: string, previousMode: string)
      ensures this.process == process && this.plan == plan && Data() == data && !committed
      ensures this.nextMode == nextMode && this.previousMode == previousMode
    {
      this.process, this.plan, this.nextMode, this.previousMode := process, plan, nextMode, previousMode;
      candidates, removals, hot, committed := data.candidates, data.removals, data.hot, false;
    }

    ghost predicate Ready?()
      reads this, process
    {
      process.Ok() && Built(Data()) && AllKnown(process.heap, StepsOf(Data()))
    }

    method Validate() returns (ok: bool)
      requires Ready?()
      ensures ok == Validates(process.State(), Data())
    {
      for i := 0 to |candidates|
        invariant forall k :: 0 <= k < i ==> CandidateCurrent(process.State(), candidates[k])
      {
        var c := candidates[i];
        var name := c.cfg.name;
        if c.was.None? {
          if name == "" || name in process.instances { return false; }
        } else if name !in process.instances || process.instances[name] != c.was.value {
          return false;
        }
      }
      for i := 0 to |removals|
        invariant forall k :: 0 <= k < i ==>
          removals[k] in process.heap && Current?(process.State(), removals[k])
      {
        StepAt(Data(), i);
        assert Known(process.heap, StepsOf(Data())[i]);
        var name := process.heap[removals[i]].name;
        if name !in process.instances || process.instances[name] != removals[i] { return false; }
      }
      for i := 0 to |hot|
        invariant forall k :: 0 <= k < i ==>
          hot[k].instance in process.heap && Current?(process.State(), hot[k].instance)
      {
        StepAt(Data(), |removals| + |candidates| + i);
        assert Known(process.heap, StepsOf(Data())[|removals| + |candidates| + i]);
        var name := process.heap[hot[i].instance].name;
        if name !in process.instances || process.instances[name] != hot[i].instance { return false; }
      }
      return true;
    }

    /** Commit: validate, then run the whole plan in one reservation; only a full run publishes the
        new defaults. */
    method Commit(fault: int) returns (ok: bool)
      requires Ready?()
      modifies this`committed, process`instances, process`primary, process`heap, process`defaultMode
      ensures process.Ok()
      ensures process.State() == CommitRun(old(process.State()), Data(), old(process.Environment()), fault).fleet
      ensures ok == CommitRun(old(process.State()), Data(), old(process.Environment()), fault).ok
      ensures committed == (ok || old(committed))
      ensures process.defaultMode == if ok then nextMode else old(process.defaultMode)
    {
      var current := Validate();
      if !current {
        return false;
      }
      ok := RunLifecycleSteps(process, StepsOf(Data()), fault);
      if ok {
        committed := true;
        process.defaultMode := nextMode;
      }
    }

    /** Rollback: a committed reload is undone under the defaults in force, then the previous
        defaults return and the candidates stop. A second call changes no registration. */
    method Rollback() returns (ok: bool)
      requires Ready?()
      modifies this`committed, process`instances, process`primary, process`heap, process`defaultMode,
               process`down
      ensures process.Ok() && !committed
      ensures old(committed) ==>
        process.State() == RollbackRun(old(process.State()), Data(), old(process.Environment())).fleet
      ensures !old(committed) ==>
        process.State() == old(process.State()) && process.defaultMode == old(process.defaultMode)
      ensures old(committed) ==> process.defaultMode == previousMode
      ensures forall g :: g in process.down <==> g in old(process.down) || IsCandidate(Data(), g)
      ensures ok == (old(committed) ==>
        RollbackRun(old(process.State()), Data(), old(process.Environment())).ok)
    {
      ok := true;
      if committed {
        var steps := StepsOf(Data());
        assert steps[..|steps|] == steps;
        ok := UndoLifecycleSteps(process, steps, |steps|);
        committed := false;
        process.defaultMode := previousMode;
      }
      DiscardCandidates(process, candidates);
    }

    /** Drain: every removed or replaced generation is shut down. */
    method Drain()
      requires Ready?()
      modifies process`down
      ensures forall g :: g in process.down <==> g in old(process.down) || IsRetired(Data(), g)
    {
      process.down := process.down + (set g | g in removals);
      for i := 0 to |candidates|
        invariant forall g :: g in process.down <==>
          g in old(process.down) || g in removals || exists k :: 0 <= k < i && candidates[k].was == Some(g)
      {
        if candidates[i].was.Some? {
          process.down := process.down + {candidates[i].was.value};
        }
      }
    }
  }
}
