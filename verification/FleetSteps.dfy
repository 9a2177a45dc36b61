/** Reversible publication steps, run in order and undone newest first. */
module FleetSteps {
  import opened FleetPlan
  import opened FleetRegistry

  datatype Step =
    | DetachStep(gen: Gen)
    | RegisterStep(gen: Gen)
    | ReplaceStep(name: string, was: Gen, cand: Gen)
    | PolicyStep(gen: Gen, from: DatabaseConfig, to: DatabaseConfig)

  function Inverse(s: Step): Step {
    match s
    case DetachStep(g) => RegisterStep(g)
    case RegisterStep(g) => DetachStep(g)
    case ReplaceStep(n, was, cand) => ReplaceStep(n, cand, was)
    case PolicyStep(g, from, to) => PolicyStep(g, to, from)
  }

  predicate Known(heap: map<Gen, Runtime>, s: Step) {
    match s
    case ReplaceStep(_, was, cand) => was in heap && cand in heap
    case _ => s.gen in heap
  }

  ghost function Do(f: Fleet, s: Step, env: Env): Outcome {
    if !Known(f.heap, s) then Outcome(f, false)
    else match s
      case DetachStep(g) => Detach(f, g)
      case RegisterStep(g) => Register(f, g, env)
      case ReplaceStep(n, was, cand) => Replace(f, n, was, cand, env)
      case PolicyStep(g, _, to) => SetPolicy(f, g, to, env)
  }

  /** All steps in order, each assumed to succeed. */
  ghost function DoAll(f: Fleet, steps: seq<Step>, env: Env): Fleet
    decreases steps
  {
    if steps == [] then f else DoAll(Do(f, steps[0], env).fleet, steps[1..], env)
  }

  /** undoLifecycleSteps: newest first, going on after an error. */
  ghost function UndoAll(f: Fleet, steps: seq<Step>, env: Env): Outcome
    decreases steps
  {
    if steps == [] then Outcome(f, true)
    else
      var newer := UndoAll(f, steps[1..], env);
      var last := Do(newer.fleet, Inverse(steps[0]), env);
      Outcome(last.fleet, newer.ok && last.ok)
  }

  /** runLifecycleSteps from step i, the first i being done. The step numbered `fault` fails
      before its effect; a step that fails is not itself undone. */
  ghost function RunFrom(f: Fleet, steps: seq<Step>, i: nat, env: Env, fault: int): Outcome
    requires i <= |steps|
    decreases |steps| - i
  {
    if i == |steps| then Outcome(f, true)
    else if i == fault then Outcome(UndoAll(f, steps[..i], env).fleet, false)
    else
      var o := Do(f, steps[i], env);
      if o.ok then RunFrom(o.fleet, steps, i + 1, env, fault)
      else Outcome(UndoAll(o.fleet, steps[..i], env).fleet, false)
  }

  // ----- when a step's own check holds

  function NameAt(heap: map<Gen, Runtime>, s: Step): string
    requires Known(heap, s)
  {
    match s
    case ReplaceStep(n, _, _) => n
    case _ => heap[s.gen].name
  }

  ghost predicate Ready(f: Fleet, s: Step) {
    && Known(f.heap, s)
    && NameAt(f.heap, s) != ""
    && match s
       case DetachStep(g) => Current?(f, g)
       case RegisterStep(g) => f.heap[g].name !in f.instances
       case ReplaceStep(n, was, cand) =>
         n in f.instances && f.instances[n] == was && was != cand && f.heap[cand].name == n
       case PolicyStep(g, from, to) =>
         && Current?(f, g)
         && from.name == to.name == f.heap[g].name
  }

  /** A policy step's executor takes the level it is moved to. */
  predicate Accepted(heap: map<Gen, Runtime>, s: Step) {
    s.PolicyStep? && s.gen in heap ==> Accepts(heap[s.gen], s.to)
  }

  ghost predicate AllAccepted(heap: map<Gen, Runtime>, steps: seq<Step>) {
    forall i :: 0 <= i < |steps| ==> Accepted(heap, steps[i])
  }

  /** Every undo step would be accepted. */
  ghost predicate AllUndoable(heap: map<Gen, Runtime>, steps: seq<Step>) {
    forall i :: 0 <= i < |steps| ==> Accepted(heap, Inverse(steps[i]))
  }

  /** Every step's check holds now, and no two steps concern the same name. */
  ghost predicate AllReady(f: Fleet, steps: seq<Step>) {
    && (forall i :: 0 <= i < |steps| ==> Ready(f, steps[i]))
    && (forall i, j :: 0 <= i < j < |steps| ==>
          NameAt(f.heap, steps[i]) != NameAt(f.heap, steps[j]))
  }

  /** Names, pools and executors never change. */
  ghost predicate SameStatics(a: Fleet, b: Fleet) {
    && a.heap.Keys == b.heap.Keys
    && forall g :: g in a.heap ==>
         && a.heap[g].name == b.heap[g].name
         && a.heap[g].connected == b.heap[g].connected
         && a.heap[g].executor == b.heap[g].executor
  }

  /** The published names after a step that succeeds. */
  function Published(f: Fleet, s: Step): map<string, Gen>
    requires Known(f.heap, s)
  {
    match s
    case DetachStep(g) => f.instances - {f.heap[g].name}
    case RegisterStep(g) => f.instances[f.heap[g].name := g]
    case ReplaceStep(n, _, cand) => f.instances[n := cand]
    case PolicyStep(_, _, _) => f.instances
  }

  lemma DoSucceeds(f: Fleet, s: Step, env: Env)
    requires Ready(f, s) && Valid(f)
    ensures Do(f, s, env).ok <==> Accepted(f.heap, s)
    ensures Do(f, s, env).fleet.instances == Published(f, s)
  {
    match s
    case DetachStep(g) =>
    case RegisterStep(g) =>
    case ReplaceStep(n, was, cand) =>
      assert (f.instances - {n})[n := cand] == f.instances[n := cand];
    case PolicyStep(g, from, to) =>
  }

  lemma DoStatics(f: Fleet, s: Step, env: Env)
    ensures SameStatics(f, Do(f, s, env).fleet)
  {
    if Known(f.heap, s) {
      match s {
        case DetachStep(g) =>
        case RegisterStep(g) => RegisterStatics(f, g, env);
        case ReplaceStep(n, was, cand) => ReplaceStatics(f, n, was, cand, env);
        case PolicyStep(g, from, to) => PolicyStatics(f, g, to, env);
      }
    }
  }

  lemma LatchStatics(f: Fleet, g: Gen, env: Env)
    requires g in f.heap
    ensures SameStatics(f, LatchStop(f, g, env))
  {
  }

  lemma RegisterStatics(f: Fleet, g: Gen, env: Env)
    requires g in f.heap
    ensures SameStatics(f, Register(f, g, env).fleet)
  {
    LatchStatics(f, g, env);
  }

  lemma ReplaceStatics(f: Fleet, n: string, was: Gen, cand: Gen, env: Env)
    requires was in f.heap && cand in f.heap
    ensures SameStatics(f, Replace(f, n, was, cand, env).fleet)
  {
    LatchStatics(f, cand, env);
    var f1 := LatchStop(f, cand, env);
    var latched := f1.heap[cand := Stopped(f1.heap[cand])];
    assert SameStatics(f1, f1.(heap := latched));
    assert Replace(f, n, was, cand, env).fleet.heap in [f1.heap, latched];
  }

  lemma PolicyStatics(f: Fleet, g: Gen, to: DatabaseConfig, env: Env)
    requires g in f.heap
    ensures SameStatics(f, SetPolicy(f, g, to, env).fleet)
  {
  }

  lemma DoFrame(f: Fleet, s: Step, env: Env)
    requires Ready(f, s) && Valid(f)
    ensures Do(f, s, env).ok <==> Accepted(f.heap, s)
    ensures SameStatics(f, Do(f, s, env).fleet)
    ensures Ready(Do(f, s, env).fleet, Inverse(s))
    ensures NameAt(Do(f, s, env).fleet.heap, Inverse(s)) == NameAt(f.heap, s)
    ensures Do(f, s, env).fleet.instances == Published(f, s)
  {
    DoSucceeds(f, s, env);
    DoStatics(f, s, env);
    InverseReady(f, s, Do(f, s, env).fleet);
  }

  lemma InverseReady(f: Fleet, s: Step, f1: Fleet)
    requires Ready(f, s) && Valid(f) && SameStatics(f, f1) && f1.instances == Published(f, s)
    ensures Ready(f1, Inverse(s)) && NameAt(f1.heap, Inverse(s)) == NameAt(f.heap, s)
  {
  }

  lemma DoKeepsValid(f: Fleet, s: Step, env: Env)
    requires Ready(f, s) && Valid(f)
    ensures Valid(Do(f, s, env).fleet)
  {
    DoFrame(f, s, env);
  }

  lemma DoKeepsReady(f: Fleet, s: Step, t: Step, env: Env)
    requires Ready(f, s) && Valid(f) && Ready(f, t) && NameAt(f.heap, s) != NameAt(f.heap, t)
    ensures Ready(Do(f, s, env).fleet, t)
    ensures NameAt(Do(f, s, env).fleet.heap, t) == NameAt(f.heap, t)
  {
    DoFrame(f, s, env);
  }

  /** Doing the first step leaves every other step's check intact. */
  lemma NextReady(f: Fleet, steps: seq<Step>, env: Env)
    requires steps != [] && AllReady(f, steps) && Valid(f)
    ensures Do(f, steps[0], env).ok <==> Accepted(f.heap, steps[0])
    ensures Valid(Do(f, steps[0], env).fleet)
    ensures AllReady(Do(f, steps[0], env).fleet, steps[1..])
  {
    var f1 := Do(f, steps[0], env).fleet;
    var rest := steps[1..];
    DoFrame(f, steps[0], env);
    DoKeepsValid(f, steps[0], env);
    forall i | 0 <= i < |rest|
      ensures Ready(f1, rest[i]) && NameAt(f1.heap, rest[i]) == NameAt(f.heap, steps[i + 1])
    {
      DoKeepsReady(f, steps[0], steps[i + 1], env);
    }
  }

  // ----- undoing after doing

  /** Undoing what was done restores every published name; an undo step fails exactly when an
      executor does not take back the level it had. */
  lemma {:induction false} UndoRestoresRegistry(f: Fleet, steps: seq<Step>, env: Env, undoEnv: Env)
    requires AllReady(f, steps) && Valid(f)
    ensures var back := UndoAll(DoAll(f, steps, env), steps, undoEnv);
      && (back.ok <==> AllUndoable(f.heap, steps))
      && back.fleet.instances == f.instances
      && SameStatics(f, back.fleet)
      && Valid(back.fleet)
    decreases steps
  {
    if steps != [] {
      NextReady(f, steps, env);
      DoStatics(f, steps[0], env);
      var f1 := Do(f, steps[0], env).fleet;
      UndoRestoresRegistry(f1, steps[1..], env, undoEnv);
      var h := UndoAll(DoAll(f, steps, env), steps[1..], undoEnv).fleet;
      UndoOne(f, steps[0], env, undoEnv, h);
      UndoableFirstOrRest(f, f1, steps);
    }
  }

  lemma UndoableFirstOrRest(f: Fleet, f1: Fleet, steps: seq<Step>)
    requires steps != [] && SameStatics(f, f1)
    ensures AllUndoable(f.heap, steps) <==> Accepted(f.heap, Inverse(steps[0])) && AllUndoable(f1.heap, steps[1..])
  {
    var rest := steps[1..];
    forall i | 0 <= i < |rest|
      ensures rest[i] == steps[i + 1]
      ensures Accepted(f1.heap, Inverse(rest[i])) <==> Accepted(f.heap, Inverse(steps[i + 1]))
    {
    }
    if AllUndoable(f1.heap, rest) && Accepted(f.heap, Inverse(steps[0])) {
      forall i | 0 <= i < |steps|
        ensures Accepted(f.heap, Inverse(steps[i]))
      {
        if i > 0 {
          assert Accepted(f1.heap, Inverse(rest[i - 1]));
        }
      }
    }
  }

  lemma UndoOne(f: Fleet, s: Step, env: Env, undoEnv: Env, h: Fleet)
    requires Ready(f, s) && Valid(f) && Valid(h)
    requires h.instances == Do(f, s, env).fleet.instances && SameStatics(Do(f, s, env).fleet, h)
    ensures Ready(h, Inverse(s))
    ensures Do(h, Inverse(s), undoEnv).ok <==> Accepted(f.heap, Inverse(s))
    ensures Do(h, Inverse(s), undoEnv).fleet.instances == f.instances
    ensures SameStatics(f, Do(h, Inverse(s), undoEnv).fleet)
    ensures Valid(Do(h, Inverse(s), undoEnv).fleet)
  {
    DoSucceeds(f, s, env);
    DoStatics(f, s, env);
    InverseReady(f, s, h);
    DoSucceeds(h, Inverse(s), undoEnv);
    DoStatics(h, Inverse(s), undoEnv);
    DoKeepsValid(h, Inverse(s), undoEnv);
    InversePublished(f, s, h);
  }

  lemma InversePublished(f: Fleet, s: Step, h: Fleet)
    requires Ready(f, s) && Valid(f) && SameStatics(f, h) && h.instances == Published(f, s)
    ensures Known(h.heap, Inverse(s)) && Published(h, Inverse(s)) == f.instances
  {
    match s
    case DetachStep(g) =>
      assert (f.instances - {f.heap[g].name})[f.heap[g].name := g] == f.instances;
    case RegisterStep(g) =>
      assert f.instances[f.heap[g].name := g] - {f.heap[g].name} == f.instances;
    case ReplaceStep(n, was, cand) =>
      assert f.instances[n := cand][n := was] == f.instances;
    case PolicyStep(g, from, to) =>
  }

  /** Even a step that fails leaves the registry well formed. */
  lemma DoAlwaysValid(f: Fleet, s: Step, env: Env)
    requires Valid(f) && forall g :: g in f.heap ==> f.heap[g].name != ""
    ensures Valid(Do(f, s, env).fleet)
  {
    DoStatics(f, s, env);
    if Known(f.heap, s) {
      match s
      case DetachStep(g) =>
      case RegisterStep(g) =>
      case ReplaceStep(n, was, cand) => ReplaceAlwaysValid(f, n, was, cand, env);
      case PolicyStep(g, from, to) =>
    }
  }

  lemma ReplaceAlwaysValid(f: Fleet, n: string, was: Gen, cand: Gen, env: Env)
    requires Valid(f) && was in f.heap && cand in f.heap && f.heap[cand].name != ""
    requires SameStatics(f, Replace(f, n, was, cand, env).fleet)
    ensures Valid(Replace(f, n, was, cand, env).fleet)
  {
    var o := Replace(f, n, was, cand, env);
    if o.ok {
      var m := f.heap[cand].name;
      assert o.fleet.instances == (f.instances - {n})[m := cand];
      forall k | k in o.fleet.instances
        ensures o.fleet.instances[k] in f.heap && f.heap[o.fleet.instances[k]].name == k
      {
        if k != m { assert k in f.instances; }
      }
    } else {
      assert o.fleet.instances == f.instances && o.fleet.primary == f.primary;
    }
  }
}
