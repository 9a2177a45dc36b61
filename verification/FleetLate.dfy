/** Rolling a reload back after others changed the fleet: what each undo step finds, and which
    generations are lost. */
module FleetLate {
  import opened Names
  import opened FleetRegistry
  import opened FleetSteps
  import opened FleetReload
  import opened FleetOthers

  // ----- the registry after undoing in any fleet

  function At(instances: map<string, Gen>, n: string): Option<Gen> {
    if n in instances then Some(instances[n]) else None
  }

  /** The step concerns generations of one name. */
  ghost predicate OneName(heap: map<Gen, Runtime>, s: Step) {
    && Known(heap, s)
    && (s.ReplaceStep? ==> heap[s.was].name == s.name && heap[s.cand].name == s.name)
  }

  /** What undoing the step makes of its name, whatever is published there. */
  function UndoneAt(s: Step, now: Option<Gen>): Option<Gen> {
    match s
    case DetachStep(g) => if now.None? then Some(g) else now
    case RegisterStep(g) => if now == Some(g) then None else now
    case ReplaceStep(_, was, cand) => if now == Some(cand) then Some(was) else now
    case PolicyStep(_, _, _) => now
  }

  lemma UndoOneAt(h: Fleet, s: Step, env: Env, n: string)
    requires OneName(h.heap, s) && Valid(h)
    ensures At(Do(h, Inverse(s), env).fleet.instances, n) ==
      if NameAt(h.heap, s) == n then UndoneAt(s, At(h.instances, n)) else At(h.instances, n)
  {
    match s {
      case DetachStep(g) =>
      case RegisterStep(g) =>
      case ReplaceStep(m, was, cand) =>
        var o := Replace(h, m, cand, was, env);
        if o.ok {
          assert o.fleet.instances == (h.instances - {m})[m := was];
        }
      case PolicyStep(g, from, to) =>
    }
  }

  ghost predicate OneNameEach(heap: map<Gen, Runtime>, steps: seq<Step>) {
    && (forall i :: 0 <= i < |steps| ==> OneName(heap, steps[i]))
    && (forall i, j :: 0 <= i < j < |steps| ==> NameAt(heap, steps[i]) != NameAt(heap, steps[j]))
  }

  lemma StillOneName(a: Fleet, b: Fleet, steps: seq<Step>)
    requires SameStatics(a, b) && OneNameEach(a.heap, steps)
    ensures OneNameEach(b.heap, steps)
    ensures forall i :: 0 <= i < |steps| ==> NameAt(a.heap, steps[i]) == NameAt(b.heap, steps[i])
  {
    forall i | 0 <= i < |steps|
      ensures OneName(b.heap, steps[i]) && NameAt(a.heap, steps[i]) == NameAt(b.heap, steps[i])
    {
      assert OneName(a.heap, steps[i]);
    }
  }

  ghost predicate NamesFilled(f: Fleet) {
    forall g :: g in f.heap ==> f.heap[g].name != ""
  }

  /** Undoing in any fleet: each name is as its own step's undo makes it, or untouched. */
  lemma {:induction false} UndoAllAt(m: Fleet, steps: seq<Step>, env: Env, n: string)
    requires OneNameEach(m.heap, steps) && Valid(m) && NamesFilled(m)
    ensures var back := UndoAll(m, steps, env).fleet;
      && SameStatics(m, back) && Valid(back)
      && (forall i :: 0 <= i < |steps| && NameAt(m.heap, steps[i]) == n ==>
            At(back.instances, n) == UndoneAt(steps[i], At(m.instances, n)))
      && ((forall i :: 0 <= i < |steps| ==> NameAt(m.heap, steps[i]) != n) ==>
            At(back.instances, n) == At(m.instances, n))
    decreases steps
  {
    if steps != [] {
      var s, rest := steps[0], steps[1..];
      assert OneName(m.heap, s);
      forall i | 0 <= i < |rest|
        ensures rest[i] == steps[i + 1] && OneName(m.heap, rest[i])
        ensures NameAt(m.heap, rest[i]) != NameAt(m.heap, s)
      {
        assert OneName(m.heap, steps[i + 1]);
      }
      UndoAllAt(m, rest, env, n);
      var h := UndoAll(m, rest, env).fleet;
      assert OneName(h.heap, s) && NameAt(h.heap, s) == NameAt(m.heap, s);
      UndoOneAt(h, s, env, n);
      DoStatics(h, Inverse(s), env);
      DoAlwaysValid(h, Inverse(s), env);
      UndoHeadAt(m, steps, h, Do(h, Inverse(s), env).fleet, n);
    }
  }

  lemma UndoHeadAt(m: Fleet, steps: seq<Step>, h: Fleet, back: Fleet, n: string)
    requires steps != [] && OneNameEach(m.heap, steps)
    requires var rest := steps[1..];
      && (forall i :: 0 <= i < |rest| ==> Known(m.heap, rest[i]))
      && (forall i :: 0 <= i < |rest| && NameAt(m.heap, rest[i]) == n ==>
            At(h.instances, n) == UndoneAt(rest[i], At(m.instances, n)))
      && ((forall i :: 0 <= i < |rest| ==> NameAt(m.heap, rest[i]) != n) ==> At(h.instances, n) == At(m.instances, n))
    requires OneName(m.heap, steps[0])
    requires At(back.instances, n) ==
      if NameAt(m.heap, steps[0]) == n then UndoneAt(steps[0], At(h.instances, n)) else At(h.instances, n)
    ensures forall i :: 0 <= i < |steps| && NameAt(m.heap, steps[i]) == n ==>
      At(back.instances, n) == UndoneAt(steps[i], At(m.instances, n))
    ensures (forall i :: 0 <= i < |steps| ==> NameAt(m.heap, steps[i]) != n) ==>
      At(back.instances, n) == At(m.instances, n)
  {
    var rest := steps[1..];
    assert forall i :: 0 <= i < |rest| ==> rest[i] == steps[i + 1];
    forall i | 0 <= i < |steps| && NameAt(m.heap, steps[i]) == n
      ensures At(back.instances, n) == UndoneAt(steps[i], At(m.instances, n))
    {
      if i == 0 {
        forall k | 0 <= k < |rest|
          ensures NameAt(m.heap, rest[k]) != n
        {
          assert rest[k] == steps[k + 1];
        }
      } else {
        assert rest[i - 1] == steps[i];
      }
    }
    if forall i :: 0 <= i < |steps| ==> NameAt(m.heap, steps[i]) != n {
      forall k | 0 <= k < |rest|
        ensures NameAt(m.heap, rest[k]) != n
      {
        assert rest[k] == steps[k + 1];
      }
    }
  }

  // ----- generations a rollback loses

  function Candidates(p: Prepared): set<Gen> {
    set i | 0 <= i < |p.candidates| && p.candidates[i].instance.Some? :: p.candidates[i].instance.value
  }

  function Retired(p: Prepared): set<Gen> {
    (set g | g in p.removals)
    + set i | 0 <= i < |p.candidates| && p.candidates[i].was.Some? :: p.candidates[i].was.value
  }

  /** A replaced generation has the name of its candidate. */
  ghost predicate WasNamed(p: Prepared, heap: map<Gen, Runtime>) {
    forall i :: 0 <= i < |p.candidates| && p.candidates[i].was.Some? ==>
      p.candidates[i].was.value in heap && heap[p.candidates[i].was.value].name == p.candidates[i].cfg.name
  }

  /** Nobody published anything under a name the reload removed, nor replaced or removed what it
      published in place of another generation. */
  ghost predicate Unmoved(p: Prepared, f: Fleet) {
    && (forall i :: 0 <= i < |p.removals| ==> GenName(f.heap, p.removals[i]) !in f.instances)
    && (forall i :: 0 <= i < |p.candidates| && p.candidates[i].was.Some? ==>
          At(f.instances, p.candidates[i].cfg.name) == p.candidates[i].instance)
  }

  lemma StepsOneName(p: Prepared, heap: map<Gen, Runtime>)
    requires WellPrepared(p, heap) && WasNamed(p, heap)
    ensures OneNameEach(heap, StepsOf(p))
  {
    var steps := StepsOf(p);
    forall i | 0 <= i < |steps|
      ensures OneName(heap, steps[i])
    {
      StepAt(p, i);
      NameOfStep(p, heap, i);
      if |p.removals| <= i < |p.removals| + |p.candidates| {
        assert CandidateOk(p.candidates[i - |p.removals|], heap);
      }
    }
    forall i, j | 0 <= i < j < |steps|
      ensures NameAt(heap, steps[i]) != NameAt(heap, steps[j])
    {
      NameOfStep(p, heap, i);
      NameOfStep(p, heap, j);
    }
  }

  /** The reload's generations, as the rollback finds them. */
  ghost predicate LateOk(start: Fleet, m: Fleet, down: set<Gen>, p: Prepared) {
    && Valid(m) && NamesFilled(m) && WellPrepared(p, m.heap) && WasNamed(p, m.heap)
    && Standing(start, m, down, Retired(p)) && Candidates(p) !! Retired(p)
    && (forall g :: g in Retired(p) ==> Tracked(start, m, g))
  }

  lemma RemovalBack(start: Fleet, m: Fleet, down: set<Gen>, p: Prepared, env: Env, i: nat)
    requires LateOk(start, m, down, p) && i < |p.removals|
    ensures var g, back := p.removals[i], RollbackRun(m, p, env).fleet;
      && g in back.heap && (Current?(back, g) <==> GenName(m.heap, g) !in m.instances)
  {
    var g := p.removals[i];
    StepsOneName(p, m.heap);
    StepAt(p, i);
    NameOfStep(p, m.heap, i);
    UndoAllAt(m, StepsOf(p), env, m.heap[g].name);
    assert g in Retired(p);
  }

  lemma ReplacedBack(start: Fleet, m: Fleet, down: set<Gen>, p: Prepared, env: Env, i: nat)
    requires LateOk(start, m, down, p) && i < |p.candidates| && p.candidates[i].was.Some?
    ensures var c, back := p.candidates[i], RollbackRun(m, p, env).fleet;
      && c.was.value in back.heap && (Current?(back, c.was.value) <==> At(m.instances, c.cfg.name) == c.instance)
  {
    var c := p.candidates[i];
    StepsOneName(p, m.heap);
    StepAt(p, |p.removals| + i);
    NameOfStep(p, m.heap, |p.removals| + i);
    UndoAllAt(m, StepsOf(p), env, c.cfg.name);
    assert c.was.value in Retired(p) && CandidateOk(c, m.heap);
  }

  lemma CandidateOut(start: Fleet, m: Fleet, down: set<Gen>, p: Prepared, env: Env, i: nat)
    requires LateOk(start, m, down, p) && i < |p.candidates|
    ensures var g, back := p.candidates[i].instance.value, RollbackRun(m, p, env).fleet;
      g in back.heap && !Current?(back, g)
  {
    var c := p.candidates[i];
    StepsOneName(p, m.heap);
    StepAt(p, |p.removals| + i);
    NameOfStep(p, m.heap, |p.removals| + i);
    assert CandidateOk(c, m.heap);
    UndoAllAt(m, StepsOf(p), env, c.cfg.name);
  }

  /** A generation the reload neither built nor retired is published after the rollback exactly if it
      was before. */
  lemma BystanderStays(start: Fleet, m: Fleet, down: set<Gen>, p: Prepared, env: Env, g: Gen)
    requires LateOk(start, m, down, p) && g in m.heap && g !in Candidates(p) && g !in Retired(p)
    ensures var back := RollbackRun(m, p, env).fleet;
      g in back.heap && (Current?(back, g) <==> Current?(m, g))
  {
    var steps, n := StepsOf(p), m.heap[g].name;
    StepsOneName(p, m.heap);
    UndoAllAt(m, steps, env, n);
    if i :| 0 <= i < |steps| && NameAt(m.heap, steps[i]) == n {
      StepAt(p, i);
      StepsGens(p, i);
    }
  }

  /** The generations a step publishes are the reload's. */
  lemma StepsGens(p: Prepared, i: nat)
    requires Built(p) && i < |StepsOf(p)|
    ensures var s := StepsOf(p)[i];
      match s
      case DetachStep(g) => g in Retired(p)
      case RegisterStep(g) => g in Candidates(p)
      case ReplaceStep(_, was, cand) => was in Retired(p) && cand in Candidates(p)
      case PolicyStep(_, _, _) => true
  {
    StepAt(p, i);
    if |p.removals| <= i < |p.removals| + |p.candidates| {
      var c := p.candidates[i - |p.removals|];
      assert c.instance.value in Candidates(p);
      assert c.was.Some? ==> c.was.value in Retired(p);
    }
  }

  /** Rolling back in a fleet others changed since the Commit accounts for every generation if and
      only if none of the names the reload removed or rebuilt changed hands: otherwise the generation
      that should have come back is neither published nor shut down. */
  lemma RollbackConserves(start: Fleet, m: Fleet, down: set<Gen>, p: Prepared, env: Env)
    requires LateOk(start, m, down, p)
    ensures ExactlyOnce(start, RollbackRun(m, p, env).fleet, down + Candidates(p)) <==> Unmoved(p, m)
  {
    var back := RollbackRun(m, p, env).fleet;
    StepsOneName(p, m.heap);
    UndoAllAt(m, StepsOf(p), env, "");
    if Unmoved(p, m) {
      forall g | Tracked(start, back, g)
        ensures Current?(back, g) <==> g !in down + Candidates(p)
      {
        OneBack(start, m, down, p, env, g);
      }
    }
    if ExactlyOnce(start, back, down + Candidates(p)) {
      LostIfMoved(start, m, down, p, env);
    }
  }

  lemma LostIfMoved(start: Fleet, m: Fleet, down: set<Gen>, p: Prepared, env: Env)
    requires LateOk(start, m, down, p) && ExactlyOnce(start, RollbackRun(m, p, env).fleet, down + Candidates(p))
    ensures Unmoved(p, m)
  {
    var back := RollbackRun(m, p, env).fleet;
    forall i: nat | i < |p.removals|
      ensures GenName(m.heap, p.removals[i]) !in m.instances
    {
      assert p.removals[i] in Retired(p);
      RemovalBack(start, m, down, p, env, i);
      assert Tracked(start, back, p.removals[i]);
    }
    forall i: nat | i < |p.candidates| && p.candidates[i].was.Some?
      ensures At(m.instances, p.candidates[i].cfg.name) == p.candidates[i].instance
    {
      assert p.candidates[i].was.value in Retired(p);
      ReplacedBack(start, m, down, p, env, i);
      assert Tracked(start, back, p.candidates[i].was.value);
    }
  }

  lemma OneBack(start: Fleet, m: Fleet, down: set<Gen>, p: Prepared, env: Env, g: Gen)
    requires LateOk(start, m, down, p) && Unmoved(p, m) && Tracked(start, m, g)
    ensures var back := RollbackRun(m, p, env).fleet;
      g in back.heap && (Current?(back, g) <==> g !in down + Candidates(p))
  {
    if g in Candidates(p) {
      var i :| 0 <= i < |p.candidates| && p.candidates[i].instance == Some(g);
      CandidateOut(start, m, down, p, env, i);
    } else if g in p.removals {
      var i :| 0 <= i < |p.removals| && p.removals[i] == g;
      RemovalBack(start, m, down, p, env, i);
      assert g in Retired(p);
    } else if g in Retired(p) {
      var i :| 0 <= i < |p.candidates| && p.candidates[i].was == Some(g);
      ReplacedBack(start, m, down, p, env, i);
    } else {
      BystanderStays(start, m, down, p, env, g);
    }
  }
}
