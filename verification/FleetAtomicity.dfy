/** What a run of publication steps, stopped anywhere or undone later, leaves behind. */
module FleetAtomicity {
  import opened FleetPlan
  import opened FleetRegistry
  import opened FleetSteps

  // ----- runs

  lemma {:induction false} PrefixReady(f: Fleet, steps: seq<Step>, i: nat, env: Env)
    requires AllReady(f, steps) && Valid(f) && i <= |steps|
    ensures AllReady(f, steps[..i])
    ensures Valid(DoAll(f, steps[..i], env)) && AllReady(DoAll(f, steps[..i], env), steps[i..])
    ensures i < |steps| ==>
      DoAll(f, steps[..i + 1], env) == Do(DoAll(f, steps[..i], env), steps[i], env).fleet
  {
    ReadyTake(f, steps, i);
    SuffixReady(f, steps, i, env);
    if i < |steps| {
      DoOneMore(f, steps, i, env);
    }
  }

  lemma ReadyTake(f: Fleet, steps: seq<Step>, i: nat)
    requires AllReady(f, steps) && i <= |steps|
    ensures AllReady(f, steps[..i])
  {
    var taken := steps[..i];
    forall j | 0 <= j < |taken|
      ensures Ready(f, taken[j]) && taken[j] == steps[j]
    {
      assert Ready(f, steps[j]);
    }
  }

  lemma {:induction false} SuffixReady(f: Fleet, steps: seq<Step>, i: nat, env: Env)
    requires AllReady(f, steps) && Valid(f) && i <= |steps|
    ensures Valid(DoAll(f, steps[..i], env)) && AllReady(DoAll(f, steps[..i], env), steps[i..])
    decreases i
  {
    if i == 0 {
      assert steps[..0] == [] && steps[0..] == steps;
    } else {
      NextReady(f, steps, env);
      SuffixReady(Do(f, steps[0], env).fleet, steps[1..], i - 1, env);
      assert steps[..i][1..] == steps[1..][..i - 1];
      assert steps[1..][i - 1..] == steps[i..];
    }
  }

  lemma {:induction false} DoOneMore(f: Fleet, steps: seq<Step>, i: nat, env: Env)
    requires i < |steps|
    ensures DoAll(f, steps[..i + 1], env) == Do(DoAll(f, steps[..i], env), steps[i], env).fleet
    decreases i
  {
    var f1 := Do(f, steps[0], env).fleet;
    assert steps[..i + 1][1..] == steps[1..][..i];
    assert DoAll(f, steps[..i + 1], env) == DoAll(f1, steps[1..][..i], env);
    if i > 0 {
      DoOneMore(f1, steps[1..], i - 1, env);
      assert steps[..i][1..] == steps[1..][..i - 1];
    }
  }

  /** Once the plan validates, no step's own generation check fails when its turn comes; a run
      that an outside fault stops at step k leaves what undoing the first k steps leaves. */
  lemma {:induction false} RunOutcome(f: Fleet, steps: seq<Step>, i: nat, env: Env, fault: int)
    requires AllReady(f, steps) && AllAccepted(f.heap, steps) && Valid(f) && i <= |steps| && !(0 <= fault < i)
    ensures RunFrom(DoAll(f, steps[..i], env), steps, i, env, fault) ==
      if 0 <= fault < |steps|
      then Outcome(UndoAll(DoAll(f, steps[..fault], env), steps[..fault], env).fleet, false)
      else Outcome(DoAll(f, steps, env), true)
    decreases |steps| - i
  {
    PrefixReady(f, steps, i, env);
    assert i == |steps| ==> steps[..i] == steps;
    if i < |steps| && i != fault {
      var fi := DoAll(f, steps[..i], env);
      assert steps[i..][0] == steps[i];
      RunStatics(f, steps[..i], env);
      NextReady(fi, steps[i..], env);
      assert Accepted(f.heap, steps[i]);
      RunOutcome(f, steps, i + 1, env, fault);
    }
  }

  // ----- each step concerns one name

  /** The two fleets have the same registration and the same runtimes under a name. */
  ghost predicate SameAt(a: Fleet, b: Fleet, n: string) {
    && (n in a.instances <==> n in b.instances)
    && (n in a.instances ==> a.instances[n] == b.instances[n])
    && forall g :: g in a.heap && g in b.heap && a.heap[g].name == n ==> b.heap[g] == a.heap[g]
  }

  lemma LatchElsewhere(f: Fleet, g: Gen, env: Env, n: string)
    requires g in f.heap && f.heap[g].name != n
    ensures SameAt(f, LatchStop(f, g, env), n)
  {
  }

  lemma DoElsewhere(f: Fleet, s: Step, env: Env, n: string)
    requires Ready(f, s) && Valid(f) && NameAt(f.heap, s) != n
    ensures SameAt(f, Do(f, s, env).fleet, n)
  {
    DoSucceeds(f, s, env);
    match s {
      case DetachStep(g) =>
      case RegisterStep(g) => LatchElsewhere(f, g, env, n);
      case ReplaceStep(m, was, cand) => LatchElsewhere(f, cand, env, n);
      case PolicyStep(g, from, to) =>
    }
  }

  lemma ReadyThere(f: Fleet, h: Fleet, s: Step)
    requires Ready(f, s) && Valid(f) && SameStatics(f, h) && SameAt(f, h, NameAt(f.heap, s))
    ensures Ready(h, s)
  {
  }

  /** One generation under the name a step concerns, after the step. */
  lemma RuntimeThere(f: Fleet, h: Fleet, s: Step, env: Env, g: Gen)
    requires Ready(f, s) && Valid(f) && Ready(h, s) && Valid(h) && SameStatics(f, h)
    requires SameAt(f, h, NameAt(f.heap, s)) && g in f.heap && f.heap[g].name == NameAt(f.heap, s)
    ensures g in Do(f, s, env).fleet.heap && g in Do(h, s, env).fleet.heap
    ensures Do(f, s, env).fleet.heap[g] == Do(h, s, env).fleet.heap[g]
  {
    DoRuntime(f, s, env, g);
    DoRuntime(h, s, env, g);
  }

  /** A step does the same to its own name in two fleets that agree there. */
  lemma DoThere(f: Fleet, h: Fleet, s: Step, env: Env)
    requires Ready(f, s) && Valid(f) && Valid(h) && SameStatics(f, h) && SameAt(f, h, NameAt(f.heap, s))
    ensures Ready(h, s)
    ensures SameAt(Do(f, s, env).fleet, Do(h, s, env).fleet, NameAt(f.heap, s))
  {
    ReadyThere(f, h, s);
    DoSucceeds(f, s, env);
    DoSucceeds(h, s, env);
    DoStatics(f, s, env);
    var n := NameAt(f.heap, s);
    forall g | g in f.heap && f.heap[g].name == n
      ensures g in Do(h, s, env).fleet.heap && Do(f, s, env).fleet.heap[g] == Do(h, s, env).fleet.heap[g]
    {
      RuntimeThere(f, h, s, env, g);
    }
    PublishedThere(f, h, s);
  }

  lemma PublishedThere(f: Fleet, h: Fleet, s: Step)
    requires Ready(f, s) && Ready(h, s) && SameStatics(f, h) && SameAt(f, h, NameAt(f.heap, s))
    ensures var n := NameAt(f.heap, s);
      && (n in Published(f, s) <==> n in Published(h, s))
      && (n in Published(f, s) ==> Published(f, s)[n] == Published(h, s)[n])
  {
  }

  ghost predicate Concerns(f: Fleet, steps: seq<Step>, n: string) {
    exists i :: 0 <= i < |steps| && Known(f.heap, steps[i]) && NameAt(f.heap, steps[i]) == n
  }

  lemma ConcernsRest(f: Fleet, f1: Fleet, steps: seq<Step>, n: string)
    requires steps != [] && SameStatics(f, f1) && !Concerns(f, steps, n)
    ensures !Concerns(f1, steps[1..], n)
  {
    forall i | 0 <= i < |steps[1..]|
      ensures !(Known(f1.heap, steps[1..][i]) && NameAt(f1.heap, steps[1..][i]) == n)
    {
      assert steps[1..][i] == steps[i + 1];
    }
  }

  /** A run leaves every name alone that none of its steps concerns, done or undone. */
  lemma {:induction false} RunElsewhere(f: Fleet, steps: seq<Step>, env: Env, undoEnv: Env, n: string)
    requires AllReady(f, steps) && Valid(f) && !Concerns(f, steps, n)
    ensures SameStatics(f, DoAll(f, steps, env)) && SameAt(f, DoAll(f, steps, env), n)
    ensures SameAt(f, UndoAll(DoAll(f, steps, env), steps, undoEnv).fleet, n)
    decreases steps
  {
    if steps != [] {
      var s, rest := steps[0], steps[1..];
      NextReady(f, steps, env);
      DoStatics(f, s, env);
      assert Ready(f, s) && NameAt(f.heap, steps[0]) != n;
      DoElsewhere(f, s, env, n);
      var f1 := Do(f, s, env).fleet;
      ConcernsRest(f, f1, steps, n);
      RunElsewhere(f1, rest, env, undoEnv, n);
      var h := UndoAll(DoAll(f1, rest, env), rest, undoEnv).fleet;
      UndoRestoresRegistry(f1, rest, env, undoEnv);
      UndoOne(f, s, env, undoEnv, h);
      InverseName(f, s, h);
      DoElsewhere(h, Inverse(s), undoEnv, n);
      Chain(f, f1, h, n);
      Chain(f, h, Do(h, Inverse(s), undoEnv).fleet, n);
      Chain(f, f1, DoAll(f1, rest, env), n);
    }
  }

  lemma InverseName(f: Fleet, s: Step, h: Fleet)
    requires Ready(f, s) && SameStatics(f, h)
    ensures Known(h.heap, Inverse(s)) && NameAt(h.heap, Inverse(s)) == NameAt(f.heap, s)
  {
  }

  /** What a step leaves under its own name, done alone and then undone, is there in `done` and in
      `back`. */
  ghost predicate There(f: Fleet, t: Step, env: Env, undoEnv: Env, done: Fleet, back: Fleet)
    requires Known(f.heap, t)
  {
    && SameAt(Do(f, t, env).fleet, done, NameAt(f.heap, t))
    && SameAt(Do(Do(f, t, env).fleet, Inverse(t), undoEnv).fleet, back, NameAt(f.heap, t))
  }

  /** A run does to a name what the one step that concerns it would do alone, and undoing the run
      undoes that. */
  lemma {:induction false} RunThere(f: Fleet, steps: seq<Step>, env: Env, undoEnv: Env, i: nat)
    requires AllReady(f, steps) && Valid(f) && i < |steps|
    ensures There(f, steps[i], env, undoEnv, DoAll(f, steps, env), UndoAll(DoAll(f, steps, env), steps, undoEnv).fleet)
    decreases steps
  {
    if i == 0 {
      FirstThere(f, steps, env, undoEnv);
    } else {
      var s, rest := steps[0], steps[1..];
      assert rest[i - 1] == steps[i] && NameAt(f.heap, steps[0]) != NameAt(f.heap, steps[i]);
      NextReady(f, steps, env);
      RunThere(Do(f, s, env).fleet, rest, env, undoEnv, i - 1);
      NotFirst(f, steps, env, undoEnv, i);
    }
  }

  lemma {:induction false} NotFirst(f: Fleet, steps: seq<Step>, env: Env, undoEnv: Env, i: nat)
    requires AllReady(f, steps) && Valid(f) && 0 < i < |steps|
    requires var f1, rest := Do(f, steps[0], env).fleet, steps[1..];
      && Known(f1.heap, steps[i])
      && There(f1, steps[i], env, undoEnv, DoAll(f1, rest, env), UndoAll(DoAll(f1, rest, env), rest, undoEnv).fleet)
    ensures There(f, steps[i], env, undoEnv, DoAll(f, steps, env), UndoAll(DoAll(f, steps, env), steps, undoEnv).fleet)
  {
    var s, t, rest := steps[0], steps[i], steps[1..];
    assert Ready(f, s) && Ready(f, t) && NameAt(f.heap, steps[0]) != NameAt(f.heap, steps[i]);
    NextReady(f, steps, env);
    var f1 := Do(f, s, env).fleet;
    DoStatics(f, s, env);
    DoElsewhere(f, s, env, NameAt(f.heap, t));
    RunStatics(f1, rest, env);
    UndoRestoresRegistry(f1, rest, env, undoEnv);
    var done, h := DoAll(f1, rest, env), UndoAll(DoAll(f1, rest, env), rest, undoEnv).fleet;
    UndoOne(f, s, env, undoEnv, h);
    InverseName(f, s, h);
    DoElsewhere(h, Inverse(s), undoEnv, NameAt(f.heap, t));
    DoStatics(h, Inverse(s), undoEnv);
    LaterThere(f, f1, t, env, undoEnv, done, h, Do(h, Inverse(s), undoEnv).fleet);
  }

  lemma {:induction false} FirstThere(f: Fleet, steps: seq<Step>, env: Env, undoEnv: Env)
    requires AllReady(f, steps) && Valid(f) && steps != []
    ensures There(f, steps[0], env, undoEnv, DoAll(f, steps, env), UndoAll(DoAll(f, steps, env), steps, undoEnv).fleet)
  {
    var s, rest := steps[0], steps[1..];
    var n := NameAt(f.heap, s);
    NextReady(f, steps, env);
    DoFrame(f, s, env);
    var f1 := Do(f, s, env).fleet;
    forall i | 0 <= i < |rest|
      ensures !(Known(f1.heap, rest[i]) && NameAt(f1.heap, rest[i]) == n)
    {
      assert rest[i] == steps[i + 1] && Ready(f, steps[i + 1]);
      assert NameAt(f.heap, steps[0]) != NameAt(f.heap, steps[i + 1]);
    }
    RunElsewhere(f1, rest, env, undoEnv, n);
    var h := UndoAll(DoAll(f1, rest, env), rest, undoEnv).fleet;
    UndoRestoresRegistry(f1, rest, env, undoEnv);
    DoThere(f1, h, Inverse(s), undoEnv);
  }

  /** Another step, done before and undone after, is nothing to the name of t. */
  lemma {:induction false} LaterThere(
    f: Fleet, f1: Fleet, t: Step, env: Env, undoEnv: Env, done: Fleet, h: Fleet, back: Fleet)
    requires Ready(f, t) && Valid(f) && Valid(f1) && SameStatics(f, f1) && SameAt(f, f1, NameAt(f.heap, t))
    requires SameStatics(f1, done) && SameStatics(f1, h) && SameStatics(h, back) && There(f1, t, env, undoEnv, done, h)
    requires SameAt(h, back, NameAt(f.heap, t))
    ensures There(f, t, env, undoEnv, done, back)
  {
    var n := NameAt(f.heap, t);
    AloneAgrees(f, f1, t, env, undoEnv);
    var alone, alone1 := Do(f, t, env).fleet, Do(f1, t, env).fleet;
    Chain(alone, alone1, done, n);
    var undone, undone1 := Do(alone, Inverse(t), undoEnv).fleet, Do(alone1, Inverse(t), undoEnv).fleet;
    Chain(undone, undone1, h, n);
    Chain(undone, h, back, n);
  }

  lemma Chain(a: Fleet, b: Fleet, c: Fleet, n: string)
    requires a.heap.Keys == b.heap.Keys == c.heap.Keys && SameAt(a, b, n) && SameAt(b, c, n)
    ensures SameAt(a, c, n)
  {
    forall g | g in a.heap && a.heap[g].name == n
      ensures a.heap[g] == c.heap[g]
    {
      assert a.heap[g] == b.heap[g];
    }
  }

  lemma {:induction false} RunStatics(f: Fleet, steps: seq<Step>, env: Env)
    ensures SameStatics(f, DoAll(f, steps, env))
    decreases steps
  {
    if steps != [] {
      DoStatics(f, steps[0], env);
      RunStatics(Do(f, steps[0], env).fleet, steps[1..], env);
    }
  }

  /** Done and undone alone in two fleets that agree on its name, a step leaves them agreeing. */
  lemma AloneAgrees(f: Fleet, h: Fleet, t: Step, env: Env, undoEnv: Env)
    requires Ready(f, t) && Valid(f) && Valid(h) && SameStatics(f, h) && SameAt(f, h, NameAt(f.heap, t))
    ensures var a, b := Do(f, t, env).fleet, Do(h, t, env).fleet;
      var n := NameAt(f.heap, t);
      && SameStatics(f, a) && SameStatics(a, b) && SameAt(a, b, n)
      && SameStatics(a, Do(a, Inverse(t), undoEnv).fleet)
      && SameStatics(b, Do(b, Inverse(t), undoEnv).fleet)
      && SameAt(Do(a, Inverse(t), undoEnv).fleet, Do(b, Inverse(t), undoEnv).fleet, n)
  {
    var a, b := Do(f, t, env).fleet, Do(h, t, env).fleet;
    DoThere(f, h, t, env);
    DoFrame(f, t, env);
    DoFrame(h, t, env);
    DoKeepsValid(f, t, env);
    DoKeepsValid(h, t, env);
    DoThere(a, b, Inverse(t), undoEnv);
    DoStatics(a, Inverse(t), undoEnv);
    DoStatics(b, Inverse(t), undoEnv);
  }

  // ----- what one step does to a generation

  datatype PolicyView = PolicyView(
    config: DatabaseConfig, trust: string, mode: string, enabled: bool, ownTrust: bool, status: string)

  /** A generation's policy as the rest of the process reads it. */
  function View(r: Runtime): PolicyView {
    PolicyView(r.config, r.trust, r.mode, r.enabled,
               if r.overrideKnown then r.overrideActive else r.config.trustExplicit, r.statusTrust)
  }

  predicate Moves(s: Step, g: Gen) {
    s.PolicyStep? && s.gen == g
  }

  /** The step latches a stop on g: its durable stop is restored when it is published, or it
      inherits the stop of the generation it replaces. */
  ghost predicate Latches(f: Fleet, s: Step, env: Env, g: Gen)
    requires Known(f.heap, s) && g in f.heap
  {
    match s
    case RegisterStep(r) => r == g && f.heap[g].executor && env.durableStop(g)
    case ReplaceStep(_, was, cand) =>
      cand == g && ((f.heap[g].executor && env.durableStop(g)) || f.heap[was].stopped)
    case _ => false
  }

  lemma DoRuntime(f: Fleet, s: Step, env: Env, g: Gen)
    requires Ready(f, s) && Valid(f) && g in f.heap
    ensures g in Do(f, s, env).fleet.heap
    ensures Do(f, s, env).fleet.heap[g] ==
      if Moves(s, g) then Moved(f.heap[g], s.to, env)
      else if Latches(f, s, env, g) then Stopped(f.heap[g])
      else f.heap[g]
  {
    match s {
      case DetachStep(d) =>
      case RegisterStep(r) =>
      case ReplaceStep(n, was, cand) => ReplaceRuntime(f, n, was, cand, env, g);
      case PolicyStep(p, from, to) =>
    }
  }

  lemma ReplaceRuntime(f: Fleet, n: string, was: Gen, cand: Gen, env: Env, g: Gen)
    requires Ready(f, ReplaceStep(n, was, cand)) && Valid(f) && g in f.heap
    ensures g in Replace(f, n, was, cand, env).fleet.heap
    ensures Replace(f, n, was, cand, env).fleet.heap[g] ==
      if g == cand && ((f.heap[g].executor && env.durableStop(g)) || f.heap[was].stopped) then Stopped(f.heap[g])
      else f.heap[g]
  {
    var f1 := LatchStop(f, cand, env);
    assert f1.heap[was] == f.heap[was];
    assert Stopped(Stopped(f.heap[cand])) == Stopped(f.heap[cand]);
  }

  /** Doing the step and undoing it latches a stop on g: what the step published carries its own
      stop, what undoing it publishes again carries its durable stop or inherits one. */
  ghost predicate UndoLatches(f: Fleet, s: Step, env: Env, undoEnv: Env, g: Gen)
    requires Known(f.heap, s) && g in f.heap
  {
    match s
    case DetachStep(d) => d == g && f.heap[g].executor && undoEnv.durableStop(g)
    case RegisterStep(_) => Latches(f, s, env, g)
    case ReplaceStep(_, was, cand) =>
      || Latches(f, s, env, g)
      || (g == was
          && ((f.heap[g].executor && undoEnv.durableStop(g)) || f.heap[cand].stopped || Latches(f, s, env, cand)))
    case PolicyStep(_, _, _) => false
  }

  lemma UndoRuntime(f: Fleet, s: Step, env: Env, undoEnv: Env, g: Gen)
    requires Ready(f, s) && Valid(f) && g in f.heap
    ensures var back := Do(Do(f, s, env).fleet, Inverse(s), undoEnv).fleet;
      && g in back.heap
      && back.heap[g] ==
         if Moves(s, g) then Moved(Moved(f.heap[g], s.to, env), s.from, undoEnv)
         else if UndoLatches(f, s, env, undoEnv, g) then Stopped(f.heap[g])
         else f.heap[g]
  {
    var f1 := Do(f, s, env).fleet;
    DoFrame(f, s, env);
    DoKeepsValid(f, s, env);
    DoRuntime(f, s, env, g);
    DoRuntime(f1, Inverse(s), undoEnv, g);
    if s.ReplaceStep? {
      DoRuntime(f, s, env, s.cand);
      DoRuntime(f, s, env, s.was);
    }
    assert Stopped(Stopped(f.heap[g])) == Stopped(f.heap[g]);
  }

  // ----- what a run leaves of a generation

  /** A generation after a run, and after the run is undone: untouched, or as the one step that
      concerns its name leaves it. */
  lemma {:induction false} RunRuntime(f: Fleet, steps: seq<Step>, env: Env, undoEnv: Env, i: nat, g: Gen)
    requires AllReady(f, steps) && Valid(f) && g in f.heap
    requires i < |steps| && NameAt(f.heap, steps[i]) == f.heap[g].name
    ensures var done, back := DoAll(f, steps, env), UndoAll(DoAll(f, steps, env), steps, undoEnv).fleet;
      && g in done.heap && g in back.heap
      && done.heap[g] == (if Moves(steps[i], g) then Moved(f.heap[g], steps[i].to, env)
                          else if Latches(f, steps[i], env, g) then Stopped(f.heap[g]) else f.heap[g])
      && back.heap[g] == (if Moves(steps[i], g) then Moved(Moved(f.heap[g], steps[i].to, env), steps[i].from, undoEnv)
                          else if UndoLatches(f, steps[i], env, undoEnv, g) then Stopped(f.heap[g]) else f.heap[g])
  {
    var s := steps[i];
    assert Ready(f, s);
    RunThere(f, steps, env, undoEnv, i);
    RunStatics(f, steps, env);
    UndoRestoresRegistry(f, steps, env, undoEnv);
    DoStatics(f, s, env);
    DoStatics(Do(f, s, env).fleet, Inverse(s), undoEnv);
    DoRuntime(f, s, env, g);
    UndoRuntime(f, s, env, undoEnv, g);
  }

  lemma {:induction false} RunSpares(f: Fleet, steps: seq<Step>, env: Env, undoEnv: Env, g: Gen)
    requires AllReady(f, steps) && Valid(f) && g in f.heap && !Concerns(f, steps, f.heap[g].name)
    ensures var done, back := DoAll(f, steps, env), UndoAll(DoAll(f, steps, env), steps, undoEnv).fleet;
      g in done.heap && g in back.heap && done.heap[g] == f.heap[g] && back.heap[g] == f.heap[g]
  {
    RunElsewhere(f, steps, env, undoEnv, f.heap[g].name);
    UndoRestoresRegistry(f, steps, env, undoEnv);
  }

  predicate Publishes(s: Step, g: Gen) {
    (s.RegisterStep? && s.gen == g) || (s.ReplaceStep? && s.cand == g)
  }

  predicate Retires(s: Step, g: Gen) {
    (s.DetachStep? && s.gen == g) || (s.ReplaceStep? && s.was == g)
  }

  // ----- generations

  /** Which generations are published after a run: those it published, and those published before
      that it did not retire. */
  lemma {:induction false} PublishedAfter(f: Fleet, steps: seq<Step>, env: Env, g: Gen)
    requires AllReady(f, steps) && Valid(f) && g in f.heap
    ensures var after := DoAll(f, steps, env);
      && g in after.heap
      && (Current?(after, g) <==> SomePublishes(steps, g) || (Current?(f, g) && !SomeRetires(steps, g)))
    decreases steps
  {
    if steps != [] {
      var s, rest := steps[0], steps[1..];
      NextReady(f, steps, env);
      DoStatics(f, s, env);
      DoSucceeds(f, s, env);
      var f1 := Do(f, s, env).fleet;
      PublishedAfter(f1, rest, env, g);
      assert Ready(f, s);
      NoConflict(f, steps, g);
      FirstOrRest(steps, g);
      OneStepPublished(f, s, g, f1);
    }
  }

  lemma NoConflict(f: Fleet, steps: seq<Step>, g: Gen)
    requires AllReady(f, steps) && Valid(f) && g in f.heap && steps != []
    ensures Publishes(steps[0], g) ==> !SomeRetires(steps[1..], g)
    ensures Retires(steps[0], g) ==> !SomePublishes(steps[1..], g)
  {
    forall i | 0 <= i < |steps[1..]|
      ensures Publishes(steps[0], g) ==> !Retires(steps[1..][i], g)
      ensures Retires(steps[0], g) ==> !Publishes(steps[1..][i], g)
    {
      assert Ready(f, steps[0]) && Ready(f, steps[i + 1]);
      assert NameAt(f.heap, steps[0]) != NameAt(f.heap, steps[i + 1]);
    }
  }

  lemma FirstOrRest(steps: seq<Step>, g: Gen)
    requires steps != []
    ensures SomePublishes(steps, g) <==> Publishes(steps[0], g) || SomePublishes(steps[1..], g)
    ensures SomeRetires(steps, g) <==> Retires(steps[0], g) || SomeRetires(steps[1..], g)
  {
    var rest := steps[1..];
    assert forall i :: 0 <= i < |rest| ==> rest[i] == steps[i + 1];
    if i :| 0 < i < |steps| && Publishes(steps[i], g) {
      assert rest[i - 1] == steps[i];
    }
    if i :| 0 < i < |steps| && Retires(steps[i], g) {
      assert rest[i - 1] == steps[i];
    }
  }

  ghost predicate SomePublishes(steps: seq<Step>, g: Gen) {
    exists i :: 0 <= i < |steps| && Publishes(steps[i], g)
  }

  ghost predicate SomeRetires(steps: seq<Step>, g: Gen) {
    exists i :: 0 <= i < |steps| && Retires(steps[i], g)
  }

  lemma OneStepPublished(f: Fleet, s: Step, g: Gen, f1: Fleet)
    requires Ready(f, s) && Valid(f) && g in f.heap && SameStatics(f, f1) && f1.instances == Published(f, s)
    ensures Current?(f1, g) <==> Publishes(s, g) || (Current?(f, g) && !Retires(s, g))
    ensures Publishes(s, g) ==> !Current?(f, g)
    ensures Retires(s, g) ==> Current?(f, g)
  {
  }

}
