/** Which database is the primary after a reload is undone. */
module FleetPrimary {
  import opened FleetRegistry
  import opened FleetSteps
  import opened FleetAtomicity

  // ----- the primary is connected, or there is none

  ghost predicate PrimaryOk(f: Fleet) {
    f.primary == "" || ConnectedName(f.instances, f.heap, f.primary)
  }

  lemma {:induction false} DoPrimaryOk(f: Fleet, s: Step, env: Env)
    requires Ready(f, s) && Valid(f) && PrimaryOk(f)
    ensures PrimaryOk(Do(f, s, env).fleet)
  {
    DoSucceeds(f, s, env);
    DoStatics(f, s, env);
    if s.ReplaceStep? {
      ReplacePrimaryOk(f, s.name, s.was, s.cand, env);
    }
  }

  lemma ReplacePrimaryOk(f: Fleet, n: string, was: Gen, cand: Gen, env: Env)
    requires Ready(f, ReplaceStep(n, was, cand)) && Valid(f) && PrimaryOk(f)
    requires SameStatics(f, Replace(f, n, was, cand, env).fleet)
    requires Replace(f, n, was, cand, env).fleet.instances == f.instances[n := cand]
    ensures PrimaryOk(Replace(f, n, was, cand, env).fleet)
  {
  }

  /** Every run and every undone run keeps it so. */
  lemma {:induction false} RunPrimaryOk(f: Fleet, steps: seq<Step>, env: Env, undoEnv: Env)
    requires AllReady(f, steps) && Valid(f) && PrimaryOk(f)
    ensures PrimaryOk(DoAll(f, steps, env)) && PrimaryOk(UndoAll(DoAll(f, steps, env), steps, undoEnv).fleet)
    decreases steps
  {
    if steps != [] {
      var s, rest := steps[0], steps[1..];
      NextReady(f, steps, env);
      DoPrimaryOk(f, s, env);
      var f1 := Do(f, s, env).fleet;
      RunPrimaryOk(f1, rest, env, undoEnv);
      var h := UndoAll(DoAll(f1, rest, env), rest, undoEnv).fleet;
      UndoRestoresRegistry(f1, rest, env, undoEnv);
      UndoOne(f, s, env, undoEnv, h);
      DoPrimaryOk(h, Inverse(s), undoEnv);
    }
  }

  function Connected(f: Fleet): set<string> {
    ConnectedNames(f.instances, f.heap)
  }

  lemma SameConnected(f: Fleet, h: Fleet)
    requires f.instances == h.instances && SameStatics(f, h)
    ensures Connected(f) == Connected(h)
  {
    forall n
      ensures n in Connected(f) <==> n in Connected(h)
    {
    }
  }

  // ----- runs that do not remove the primary

  /** A candidate for a connected generation is connected: Prepare rejects the reload otherwise. */
  ghost predicate CandidatesConnected(f: Fleet, steps: seq<Step>) {
    forall i :: 0 <= i < |steps| && steps[i].ReplaceStep? && Known(f.heap, steps[i]) ==>
      (f.heap[steps[i].was].connected ==> f.heap[steps[i].cand].connected)
  }

  predicate Removes(heap: map<Gen, Runtime>, s: Step, name: string) {
    s.DetachStep? && s.gen in heap && heap[s.gen].name == name
  }

  lemma DoPrimary(f: Fleet, s: Step, env: Env)
    requires Ready(f, s) && Valid(f) && ConnectedName(f.instances, f.heap, f.primary)
    requires !Removes(f.heap, s, f.primary)
    requires s.ReplaceStep? && f.heap[s.was].connected ==> f.heap[s.cand].connected
    ensures Do(f, s, env).fleet.primary == f.primary
    ensures ConnectedName(Do(f, s, env).fleet.instances, Do(f, s, env).fleet.heap, f.primary)
  {
    DoSucceeds(f, s, env);
    DoStatics(f, s, env);
  }

  lemma {:induction false} UndoPrimary(f: Fleet, s: Step, h: Fleet, undoEnv: Env)
    requires Ready(f, s) && Valid(f) && ConnectedName(f.instances, f.heap, f.primary)
    requires Ready(h, Inverse(s)) && SameStatics(f, h) && h.primary == f.primary
    requires s.RegisterStep? ==> f.heap[s.gen].name != f.primary
    ensures Do(h, Inverse(s), undoEnv).fleet.primary == f.primary
  {
  }

  /** A run that does not remove the connected primary keeps it, done or undone. */
  lemma {:induction false} UndoKeepsPrimary(f: Fleet, steps: seq<Step>, env: Env, undoEnv: Env)
    requires AllReady(f, steps) && Valid(f) && ConnectedName(f.instances, f.heap, f.primary)
    requires CandidatesConnected(f, steps)
    requires forall i :: 0 <= i < |steps| ==> !Removes(f.heap, steps[i], f.primary)
    ensures DoAll(f, steps, env).primary == f.primary
    ensures UndoAll(DoAll(f, steps, env), steps, undoEnv).fleet.primary == f.primary
    decreases steps
  {
    if steps != [] {
      var s, rest := steps[0], steps[1..];
      NextReady(f, steps, env);
      DoStatics(f, s, env);
      assert Ready(f, s) && !Removes(f.heap, steps[0], f.primary);
      DoPrimary(f, s, env);
      var f1 := Do(f, s, env).fleet;
      forall i | 0 <= i < |rest|
        ensures rest[i] == steps[i + 1] && !Removes(f1.heap, rest[i], f1.primary)
      {
        assert !Removes(f.heap, steps[i + 1], f.primary);
      }
      UndoKeepsPrimary(f1, rest, env, undoEnv);
      var h := UndoAll(DoAll(f1, rest, env), rest, undoEnv).fleet;
      UndoRestoresRegistry(f1, rest, env, undoEnv);
      UndoOne(f, s, env, undoEnv, h);
      UndoPrimary(f, s, h, undoEnv);
    }
  }

  // ----- the removals

  predicate AllDetach(steps: seq<Step>) {
    forall i :: 0 <= i < |steps| ==> steps[i].DetachStep?
  }

  /** The names the removals take out. */
  function RemovedNames(heap: map<Gen, Runtime>, removals: seq<Step>): set<string> {
    set i | 0 <= i < |removals| && removals[i].DetachStep? && removals[i].gen in heap :: heap[removals[i].gen].name
  }

  lemma RemovedFirst(heap: map<Gen, Runtime>, d: seq<Step>)
    requires d != [] && AllDetach(d) && d[0].gen in heap
    ensures RemovedNames(heap, d) == {heap[d[0].gen].name} + RemovedNames(heap, d[1..])
  {
    var rest := d[1..];
    assert forall i :: 0 <= i < |rest| ==> rest[i] == d[i + 1];
    forall n | n in RemovedNames(heap, d)
      ensures n == heap[d[0].gen].name || n in RemovedNames(heap, rest)
    {
      var i :| 0 <= i < |d| && d[i].DetachStep? && d[i].gen in heap && heap[d[i].gen].name == n;
      if i > 0 {
        assert rest[i - 1] == d[i];
      }
    }
  }

  /** No primary means there is nothing connected to elect. */
  ghost predicate Elected(f: Fleet) {
    f.primary == "" ==> Connected(f) == {}
  }

  lemma DetachOne(f: Fleet, s: Step, env: Env)
    requires Ready(f, s) && Valid(f) && s.DetachStep?
    ensures var f1 := Do(f, s, env).fleet;
      && f1.heap == f.heap && f1.instances == f.instances - {f.heap[s.gen].name}
      && (Elected(f) ==> Elected(f1)) && (f.primary == "" ==> f1.primary == "")
  {
    var f1 := Do(f, s, env).fleet;
    assert Connected(f1) <= Connected(f);
  }

  lemma {:induction false} DetachPhase(f: Fleet, d: seq<Step>, env: Env)
    requires AllReady(f, d) && Valid(f) && AllDetach(d)
    ensures var f1 := DoAll(f, d, env);
      && f1.heap == f.heap && f1.instances == f.instances - RemovedNames(f.heap, d)
      && (Elected(f) ==> Elected(f1)) && (f.primary == "" ==> f1.primary == "")
    decreases d
  {
    if d != [] {
      assert Ready(f, d[0]);
      NextReady(f, d, env);
      DetachOne(f, d[0], env);
      DetachPhase(Do(f, d[0], env).fleet, d[1..], env);
      RemovedFirst(f.heap, d);
    } else {
      assert RemovedNames(f.heap, d) == {};
    }
  }

  /** The connected name that was removed last, if any. */
  function LastConnected(heap: map<Gen, Runtime>, d: seq<Step>): string {
    if d == [] then ""
    else
      var later := LastConnected(heap, d[1..]);
      if later != "" then later
      else if d[0].DetachStep? && d[0].gen in heap && heap[d[0].gen].connected then heap[d[0].gen].name
      else ""
  }

  /** Removed generations that can be registered again. */
  ghost predicate Absent(h: Fleet, d: seq<Step>) {
    && AllDetach(d)
    && (forall i :: 0 <= i < |d| ==>
          d[i].gen in h.heap && h.heap[d[i].gen].name != "" && h.heap[d[i].gen].name !in h.instances)
    && (forall i, j :: 0 <= i < j < |d| ==> h.heap[d[i].gen].name != h.heap[d[j].gen].name)
  }

  lemma LastConnectedStatics(a: Fleet, b: Fleet, d: seq<Step>)
    requires SameStatics(a, b)
    ensures LastConnected(a.heap, d) == LastConnected(b.heap, d)
    ensures RemovedNames(a.heap, d) == RemovedNames(b.heap, d)
  {
    if d != [] {
      LastConnectedStatics(a, b, d[1..]);
    }
  }

  lemma RegisterAgain(h: Fleet, g: Gen, env: Env)
    requires g in h.heap && h.heap[g].name != "" && h.heap[g].name !in h.instances
    ensures var o := Register(h, g, env).fleet;
      && SameStatics(h, o) && o.instances.Keys == h.instances.Keys + {h.heap[g].name}
      && o.primary == if h.primary == "" && h.heap[g].connected then h.heap[g].name else h.primary
  {
    RegisterStatics(h, g, env);
  }

  /** Registering the removed generations again, newest first, elects the last connected one, and
      only when there is no primary. */
  lemma {:induction false} UndoDetachPhase(h: Fleet, d: seq<Step>, env: Env)
    requires Absent(h, d)
    ensures var back := UndoAll(h, d, env).fleet;
      && SameStatics(h, back) && back.instances.Keys == h.instances.Keys + RemovedNames(h.heap, d)
      && back.primary == if h.primary != "" then h.primary else LastConnected(h.heap, d)
    decreases d
  {
    if d != [] {
      var rest := d[1..];
      forall i | 0 <= i < |rest|
        ensures rest[i] == d[i + 1] && h.heap[rest[i].gen].name != h.heap[d[0].gen].name
      {
      }
      UndoDetachPhase(h, rest, env);
      var inner := UndoAll(h, rest, env).fleet;
      var n := h.heap[d[0].gen].name;
      assert n !in RemovedNames(h.heap, rest);
      RegisterAgain(inner, d[0].gen, env);
      assert Do(inner, Inverse(d[0]), env) == Register(inner, d[0].gen, env);
      RemovedFirst(h.heap, d);
    } else {
      assert RemovedNames(h.heap, d) == {};
    }
  }

  // ----- the candidates and policy changes

  predicate NoDetach(steps: seq<Step>) {
    forall i :: 0 <= i < |steps| ==> !steps[i].DetachStep?
  }

  /** The step registers a connected database under a new name. */
  predicate AddsConnected(heap: map<Gen, Runtime>, s: Step) {
    s.RegisterStep? && s.gen in heap && heap[s.gen].connected
  }

  ghost predicate SomeAddsConnected(f: Fleet, steps: seq<Step>) {
    exists i :: 0 <= i < |steps| && AddsConnected(f.heap, steps[i])
  }

  lemma AddsFirstOrRest(f: Fleet, f1: Fleet, steps: seq<Step>)
    requires steps != [] && SameStatics(f, f1)
    ensures SomeAddsConnected(f, steps) <==> AddsConnected(f.heap, steps[0]) || SomeAddsConnected(f1, steps[1..])
  {
    var rest := steps[1..];
    assert forall i :: 0 <= i < |rest| ==> rest[i] == steps[i + 1];
    if i :| 0 < i < |steps| && AddsConnected(f.heap, steps[i]) {
      assert AddsConnected(f1.heap, rest[i - 1]);
    }
    if i :| 0 <= i < |rest| && AddsConnected(f1.heap, rest[i]) {
      assert AddsConnected(f.heap, steps[i + 1]);
    }
  }

  /** With nothing connected registered there is no primary afterwards. */
  lemma {:induction false} NothingToElect(f: Fleet, steps: seq<Step>, env: Env, undoEnv: Env)
    requires AllReady(f, steps) && Valid(f) && f.primary == "" && Connected(f) == {}
    ensures UndoAll(DoAll(f, steps, env), steps, undoEnv).fleet.primary == ""
  {
    RunPrimaryOk(f, steps, env, undoEnv);
    UndoRestoresRegistry(f, steps, env, undoEnv);
    var back := UndoAll(DoAll(f, steps, env), steps, undoEnv).fleet;
    SameConnected(f, back);
    assert back.primary != "" ==> back.primary in Connected(back);
  }

  lemma NoElectionStep(f: Fleet, s: Step, env: Env)
    requires Ready(f, s) && Valid(f) && f.primary == "" && !AddsConnected(f.heap, s)
    ensures Do(f, s, env).fleet.primary == ""
  {
  }

  /** Without a primary, only registering a connected database elects one. */
  lemma {:induction false} NoElection(f: Fleet, steps: seq<Step>, env: Env, undoEnv: Env)
    requires AllReady(f, steps) && Valid(f) && f.primary == "" && NoDetach(steps) && !SomeAddsConnected(f, steps)
    ensures UndoAll(DoAll(f, steps, env), steps, undoEnv).fleet.primary == ""
    decreases steps
  {
    if steps != [] {
      var s, rest := steps[0], steps[1..];
      assert Ready(f, s);
      NextReady(f, steps, env);
      DoStatics(f, s, env);
      var f1 := Do(f, s, env).fleet;
      AddsFirstOrRest(f, f1, steps);
      NoElectionStep(f, s, env);
      NoElection(f1, rest, env, undoEnv);
      var h := UndoAll(DoAll(f1, rest, env), rest, undoEnv).fleet;
      UndoRestoresRegistry(f1, rest, env, undoEnv);
      UndoOne(f, s, env, undoEnv, h);
      NoElectionStep(h, Inverse(s), undoEnv);
    }
  }

  /** A primary is only given up when there is nothing connected to take over. */
  lemma SomePrimaryStays(h: Fleet, t: Step, env: Env)
    requires Ready(h, t) && Valid(h) && h.primary != "" && Connected(Do(h, t, env).fleet) != {}
    ensures Do(h, t, env).fleet.primary != ""
  {
    DoSucceeds(h, t, env);
    DoStatics(h, t, env);
    DoKeepsValid(h, t, env);
    NotEmptyName(h, t, env);
  }

  lemma NotEmptyName(h: Fleet, t: Step, env: Env)
    requires Ready(h, t) && Valid(h) && Valid(Do(h, t, env).fleet)
    ensures "" !in Connected(Do(h, t, env).fleet)
  {
  }

  lemma StaysConnected(f: Fleet, s: Step, env: Env)
    requires Ready(f, s) && Valid(f) && !s.DetachStep?
    requires s.ReplaceStep? && f.heap[s.was].connected ==> f.heap[s.cand].connected
    ensures Connected(f) <= Connected(Do(f, s, env).fleet)
  {
    DoSucceeds(f, s, env);
    DoStatics(f, s, env);
    forall n | n in Connected(f)
      ensures n in Connected(Do(f, s, env).fleet)
    {
    }
  }

  /** Without a primary but with something connected, registering a connected database elects one
      for good. */
  lemma {:induction false} Election(f: Fleet, steps: seq<Step>, env: Env, undoEnv: Env)
    requires AllReady(f, steps) && Valid(f) && f.primary == "" && NoDetach(steps) && SomeAddsConnected(f, steps)
    requires CandidatesConnected(f, steps) && Connected(f) != {}
    ensures UndoAll(DoAll(f, steps, env), steps, undoEnv).fleet.primary != ""
    decreases steps
  {
    var s, rest := steps[0], steps[1..];
    assert Ready(f, s) && !steps[0].DetachStep?;
    NextReady(f, steps, env);
    DoStatics(f, s, env);
    var f1 := Do(f, s, env).fleet;
    var h := UndoAll(DoAll(f1, rest, env), rest, undoEnv).fleet;
    AddsFirstOrRest(f, f1, steps);
    RestConnected(f, f1, steps);
    if AddsConnected(f.heap, s) {
      forall i | 0 <= i < |rest|
        ensures !Removes(f1.heap, rest[i], f1.primary)
      {
        assert rest[i] == steps[i + 1];
      }
      UndoKeepsPrimary(f1, rest, env, undoEnv);
    } else {
      NoElectionStep(f, s, env);
      StaysConnected(f, s, env);
      Election(f1, rest, env, undoEnv);
    }
    UndoRestoresRegistry(f1, rest, env, undoEnv);
    UndoOne(f, s, env, undoEnv, h);
    SameConnected(f, Do(h, Inverse(s), undoEnv).fleet);
    SomePrimaryStays(h, Inverse(s), undoEnv);
  }

  lemma RestConnected(f: Fleet, f1: Fleet, steps: seq<Step>)
    requires steps != [] && SameStatics(f, f1) && CandidatesConnected(f, steps)
    ensures CandidatesConnected(f1, steps[1..])
  {
    var rest := steps[1..];
    forall i | 0 <= i < |rest| && rest[i].ReplaceStep? && Known(f1.heap, rest[i])
      ensures f1.heap[rest[i].was].connected ==> f1.heap[rest[i].cand].connected
    {
      assert rest[i] == steps[i + 1];
    }
  }

  // ----- the whole run

  lemma {:induction false} DoAllConcat(f: Fleet, a: seq<Step>, b: seq<Step>, env: Env)
    ensures DoAll(f, a + b, env) == DoAll(DoAll(f, a, env), b, env)
    decreases a
  {
    if a == [] {
      assert a + b == b;
    } else {
      assert (a + b)[1..] == a[1..] + b;
      DoAllConcat(Do(f, a[0], env).fleet, a[1..], b, env);
    }
  }

  lemma {:induction false} UndoAllConcat(f: Fleet, a: seq<Step>, b: seq<Step>, env: Env)
    ensures UndoAll(f, a + b, env).fleet == UndoAll(UndoAll(f, b, env).fleet, a, env).fleet
    decreases a
  {
    if a == [] {
      assert a + b == b;
    } else {
      assert (a + b)[1..] == a[1..] + b;
      UndoAllConcat(f, a[1..], b, env);
    }
  }

  /** When undoing the run gives the primary back: it was not among the removals, or everything
      connected was and it was the last of them; and without a primary, when the run neither
      removed nor added anything connected that is elected on the way back. */
  ghost predicate PrimaryReturns(f: Fleet, d: seq<Step>, k: seq<Step>) {
    var removed := RemovedNames(f.heap, d);
    if f.primary != "" then
      f.primary !in removed || (Connected(f) <= removed && LastConnected(f.heap, d) == f.primary)
    else
      LastConnected(f.heap, d) == "" && (!SomeAddsConnected(f, k) || Connected(f) == {})
  }

  /** Undoing a run of removals d followed by other steps k gives the primary back if and only if
      PrimaryReturns. */
  lemma {:induction false} PrimaryAfterUndo(f: Fleet, d: seq<Step>, k: seq<Step>, env: Env, undoEnv: Env)
    requires AllReady(f, d + k) && Valid(f) && PrimaryOk(f)
    requires AllDetach(d) && NoDetach(k) && CandidatesConnected(f, d + k)
    ensures UndoAll(DoAll(f, d + k, env), d + k, undoEnv).fleet.primary == f.primary <==> PrimaryReturns(f, d, k)
  {
    if f.primary != "" && f.primary !in RemovedNames(f.heap, d) {
      NotRemoved(f, d, k);
      UndoKeepsPrimary(f, d + k, env, undoEnv);
    } else {
      RemovalCase(f, d, k, env, undoEnv);
    }
  }

  lemma NotRemoved(f: Fleet, d: seq<Step>, k: seq<Step>)
    requires AllDetach(d) && NoDetach(k) && f.primary !in RemovedNames(f.heap, d)
    ensures forall i :: 0 <= i < |d + k| ==> !Removes(f.heap, (d + k)[i], f.primary)
  {
    forall i | 0 <= i < |d + k|
      ensures !Removes(f.heap, (d + k)[i], f.primary)
    {
      if i < |d| {
        assert (d + k)[i] == d[i];
      }
    }
  }

  lemma {:induction false} RemovalCase(f: Fleet, d: seq<Step>, k: seq<Step>, env: Env, undoEnv: Env)
    requires AllReady(f, d + k) && Valid(f) && PrimaryOk(f)
    requires AllDetach(d) && NoDetach(k) && CandidatesConnected(f, d + k)
    requires f.primary == "" || f.primary in RemovedNames(f.heap, d)
    ensures UndoAll(DoAll(f, d + k, env), d + k, undoEnv).fleet.primary == f.primary <==> PrimaryReturns(f, d, k)
  {
    var steps := d + k;
    assert steps[..|d|] == d && steps[|d|..] == k;
    PrefixReady(f, steps, |d|, env);
    var f1 := DoAll(f, d, env);
    DetachPhase(f, d, env);
    RunPrimaryOk(f, d, env, env);
    KConnected(f, f1, d, k);
    DoAllConcat(f, d, k, env);
    var run := DoAll(f1, k, env);
    var h := UndoAll(run, k, undoEnv).fleet;
    UndoRestoresRegistry(f1, k, env, undoEnv);
    UndoAllConcat(run, d, k, undoEnv);
    AbsentAfter(f, d, f1, h);
    UndoDetachPhase(h, d, undoEnv);
    LastConnectedStatics(f, h, d);
    AfterCandidates(f1, k, env, undoEnv);
    ReadyTake(f, steps, |d|);
    RemovedConnected(f, d);
    Verdict(f, d, k, f1, h.primary);
  }

  /** The three phases together. */
  lemma Verdict(f: Fleet, d: seq<Step>, k: seq<Step>, f1: Fleet, undone: string)
    requires PrimaryOk(f) && PrimaryOk(f1) && (f.primary == "" || f.primary in RemovedNames(f.heap, d))
    requires f1.heap == f.heap && f1.instances == f.instances - RemovedNames(f.heap, d)
    requires (Elected(f) ==> Elected(f1)) && (f.primary == "" ==> f1.primary == "")
    requires f1.primary != "" ==> undone == f1.primary
    requires f1.primary == "" ==> (undone == "" <==> !SomeAddsConnected(f1, k) || Connected(f1) == {})
    requires LastConnected(f.heap, d) == "" ==> Connected(f) !! RemovedNames(f.heap, d)
    ensures (if undone != "" then undone else LastConnected(f.heap, d)) == f.primary <==> PrimaryReturns(f, d, k)
  {
    ConnectedAfter(f, d, f1);
    assert SomeAddsConnected(f1, k) <==> SomeAddsConnected(f, k);
    var removed := RemovedNames(f.heap, d);
    assert Connected(f1) == {} <==> Connected(f) <= removed by {
      forall n | n in Connected(f) && n !in removed
        ensures n in Connected(f1)
      {
      }
    }
    if f.primary != "" && f1.primary != "" {
      assert f1.primary in Connected(f1) && f1.primary !in removed;
    } else if f.primary != "" {
      assert Connected(f1) == {};
    }
  }

  lemma KConnected(f: Fleet, f1: Fleet, d: seq<Step>, k: seq<Step>)
    requires CandidatesConnected(f, d + k) && f1.heap == f.heap
    ensures CandidatesConnected(f1, k)
  {
    forall i | 0 <= i < |k| && k[i].ReplaceStep? && Known(f1.heap, k[i])
      ensures f1.heap[k[i].was].connected ==> f1.heap[k[i].cand].connected
    {
      assert (d + k)[|d| + i] == k[i];
    }
  }

  lemma AbsentAfter(f: Fleet, d: seq<Step>, f1: Fleet, h: Fleet)
    requires AllReady(f, d) && Valid(f) && AllDetach(d)
    requires f1.heap == f.heap && f1.instances == f.instances - RemovedNames(f.heap, d)
    requires h.instances == f1.instances && SameStatics(f1, h)
    ensures Absent(h, d)
  {
    forall i | 0 <= i < |d|
      ensures d[i].gen in h.heap && h.heap[d[i].gen].name != "" && h.heap[d[i].gen].name !in h.instances
    {
      assert Ready(f, d[i]);
      assert f.heap[d[i].gen].name in RemovedNames(f.heap, d);
    }
    forall i, j | 0 <= i < j < |d|
      ensures h.heap[d[i].gen].name != h.heap[d[j].gen].name
    {
      assert Ready(f, d[i]) && Ready(f, d[j]);
      assert NameAt(f.heap, d[i]) != NameAt(f.heap, d[j]);
    }
  }

  /** The primary once the candidates are undone. */
  lemma {:induction false} AfterCandidates(f1: Fleet, k: seq<Step>, env: Env, undoEnv: Env)
    requires AllReady(f1, k) && Valid(f1) && PrimaryOk(f1) && NoDetach(k) && CandidatesConnected(f1, k)
    ensures var h := UndoAll(DoAll(f1, k, env), k, undoEnv).fleet;
      && (f1.primary != "" ==> h.primary == f1.primary)
      && (f1.primary == "" ==> (h.primary == "" <==> !SomeAddsConnected(f1, k) || Connected(f1) == {}))
  {
    if f1.primary != "" {
      assert forall i :: 0 <= i < |k| ==> !Removes(f1.heap, k[i], f1.primary);
      UndoKeepsPrimary(f1, k, env, undoEnv);
    } else if Connected(f1) == {} {
      NothingToElect(f1, k, env, undoEnv);
    } else if SomeAddsConnected(f1, k) {
      Election(f1, k, env, undoEnv);
    } else {
      NoElection(f1, k, env, undoEnv);
    }
  }

  lemma ConnectedAfter(f: Fleet, d: seq<Step>, f1: Fleet)
    requires f1.heap == f.heap && f1.instances == f.instances - RemovedNames(f.heap, d)
    ensures Connected(f1) == Connected(f) - RemovedNames(f.heap, d)
  {
    forall n
      ensures n in Connected(f1) <==> n in Connected(f) && n !in RemovedNames(f.heap, d)
    {
    }
  }

  /** Nothing connected was removed last exactly when nothing connected was removed. */
  lemma {:induction false} LastConnectedIsSome(heap: map<Gen, Runtime>, d: seq<Step>)
    requires AllDetach(d) && forall i :: 0 <= i < |d| ==> d[i].gen in heap && heap[d[i].gen].name != ""
    ensures LastConnected(heap, d) == "" <==> forall i :: 0 <= i < |d| ==> !heap[d[i].gen].connected
  {
    if d != [] {
      var rest := d[1..];
      assert forall i :: 0 <= i < |rest| ==> rest[i] == d[i + 1];
      LastConnectedIsSome(heap, rest);
      if LastConnected(heap, d) == "" {
        forall i | 0 <= i < |d|
          ensures !heap[d[i].gen].connected
        {
          if i > 0 {
            assert rest[i - 1] == d[i];
          }
        }
      }
    }
  }

  lemma RemovedConnected(f: Fleet, d: seq<Step>)
    requires AllReady(f, d) && Valid(f) && AllDetach(d)
    ensures LastConnected(f.heap, d) == "" ==> Connected(f) !! RemovedNames(f.heap, d)
  {
    forall i | 0 <= i < |d|
      ensures d[i].gen in f.heap && f.heap[d[i].gen].name != "" && Current?(f, d[i].gen)
    {
      assert Ready(f, d[i]);
    }
    LastConnectedIsSome(f.heap, d);
    if LastConnected(f.heap, d) == "" {
      forall n | n in RemovedNames(f.heap, d)
        ensures n !in Connected(f)
      {
        var i :| 0 <= i < |d| && f.heap[d[i].gen].name == n;
        assert f.instances[n] == d[i].gen;
      }
    }
  }
}
