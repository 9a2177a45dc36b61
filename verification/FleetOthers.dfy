/** What others do to the fleet while a reload is under way, and the accounts of generations. */
module FleetOthers {
  import opened FleetRegistry
  import opened FleetSteps

  /** The fleet, the generations that were shut down, and the next generation's number. */
  datatype Scene = Scene(fleet: Fleet, down: set<Gen>, next: Gen)

  ghost predicate SceneOk(s: Scene) {
    && Valid(s.fleet)
    && (forall g :: g in s.fleet.heap ==> g < s.next && s.fleet.heap[g].name != "")
    && (forall g :: g in s.down ==> g in s.fleet.heap)
  }

  /** Another owner, operator or API call: it removes a database, adds one, replaces one, or changes a
      published runtime's policy, stop or status. */
  datatype Foreign =
    | Remove(name: string)
    | Create(runtime: Runtime)
    | Swap(name: string, runtime: Runtime)
    | Tweak(name: string, runtime: Runtime)

  /** A new, unpublished generation. */
  function WithNew(s: Scene, r: Runtime): Fleet {
    s.fleet.(heap := s.fleet.heap[s.next := r])
  }

  function Tweaked(was: Runtime, r: Runtime): Runtime {
    r.(name := was.name, connected := was.connected, executor := was.executor)
  }

  ghost function Removed(s: Scene, n: string): Scene {
    var f := s.fleet;
    if n in f.instances && f.instances[n] in f.heap
    then Scene(Detach(f, f.instances[n]).fleet, s.down + {f.instances[n]}, s.next) else s
  }

  ghost function Created(s: Scene, r: Runtime, env: Env): Scene {
    if r.name == "" then s
    else
      var o := Register(WithNew(s, r), s.next, env);
      Scene(o.fleet, if o.ok then s.down else s.down + {s.next}, s.next + 1)
  }

  ghost function Swapped(s: Scene, n: string, r: Runtime, env: Env): Scene {
    var f := s.fleet;
    if r.name == "" || n !in f.instances || f.instances[n] !in f.heap then s
    else
      var o := Replace(WithNew(s, r), n, f.instances[n], s.next, env);
      Scene(o.fleet, s.down + {if o.ok then f.instances[n] else s.next}, s.next + 1)
  }

  ghost function Retouched(s: Scene, n: string, r: Runtime): Scene {
    var f := s.fleet;
    if n in f.instances && f.instances[n] in f.heap
    then s.(fleet := f.(heap := f.heap[f.instances[n] := Tweaked(f.heap[f.instances[n]], r)])) else s
  }

  /** What the operation leaves. Whatever it takes out of the registry, or fails to publish, its
      caller shuts down. */
  ghost function Meddle(s: Scene, op: Foreign, env: Env): Scene {
    match op
    case Remove(n) => Removed(s, n)
    case Create(r) => Created(s, r, env)
    case Swap(n, r) => Swapped(s, n, r, env)
    case Tweak(n, r) => Retouched(s, n, r)
  }

  ghost function MeddleAll(s: Scene, ops: seq<Foreign>, env: Env): Scene {
    if ops == [] then s else Meddle(MeddleAll(s, ops[..|ops| - 1], env), ops[|ops| - 1], env)
  }

  // ----- accounts of generations

  /** Published at the start, or made since. */
  ghost predicate Tracked(start: Fleet, f: Fleet, g: Gen) {
    g in f.heap && (g in start.heap ==> Current?(start, g))
  }

  /** Each tracked generation is exactly one of published and shut down. */
  ghost predicate ExactlyOnce(start: Fleet, f: Fleet, down: set<Gen>) {
    forall g :: Tracked(start, f, g) ==> (Current?(f, g) <==> g !in down)
  }

  /** The same, but for the generations the reload holds, which are neither. */
  ghost predicate Standing(start: Fleet, f: Fleet, down: set<Gen>, held: set<Gen>) {
    && (forall g :: g in held ==> g in f.heap && !Current?(f, g) && g !in down)
    && (forall g :: Tracked(start, f, g) && g !in held ==> (Current?(f, g) <==> g !in down))
  }

  /** The heap keeps every generation's name, pool and executor. */
  ghost predicate Keeps(a: map<Gen, Runtime>, b: map<Gen, Runtime>) {
    && a.Keys <= b.Keys
    && forall g :: g in a ==>
         b[g].name == a[g].name && b[g].connected == a[g].connected && b[g].executor == a[g].executor
  }

  /** From one scene to a later one: nothing forgotten, and what is held neither touched nor
      published. */
  ghost predicate Leads(a: Scene, b: Scene, held: set<Gen>) {
    && SceneOk(b) && Keeps(a.fleet.heap, b.fleet.heap) && a.next <= b.next
    && forall g :: g in held && g in a.fleet.heap ==> b.fleet.heap[g] == a.fleet.heap[g]
  }

  /** A registry change: `out` leaves it and is shut down, new generations enter it or are shut
      down. */
  lemma StandingChange(
    start: Fleet, f: Fleet, after: Fleet, down: set<Gen>, down': set<Gen>, held: set<Gen>, out: set<Gen>)
    requires Standing(start, f, down, held) && Keeps(f.heap, after.heap) && start.heap.Keys <= f.heap.Keys
    requires forall g :: g in out ==> g in f.heap && Current?(f, g)
    requires forall g :: g in f.heap ==> (Current?(after, g) <==> Current?(f, g) && g !in out)
    requires forall g :: g in f.heap ==> (g in down' <==> g in down || g in out)
    requires forall g :: g in after.heap && g !in f.heap ==> (Current?(after, g) <==> g !in down')
    ensures Standing(start, after, down', held)
  {
    forall g | g in held
      ensures g in after.heap && g !in down' && !Current?(after, g)
    {
      assert !Current?(f, g);
    }
    forall g | Tracked(start, after, g) && g !in held
      ensures Current?(after, g) <==> g !in down'
    {
      if g in f.heap {
        assert Tracked(start, f, g);
      }
    }
  }

  lemma RemoveKeeps(s: Scene, n: string, start: Fleet, held: set<Gen>)
    requires SceneOk(s) && Standing(start, s.fleet, s.down, held) && start.heap.Keys <= s.fleet.heap.Keys
    ensures var t := Removed(s, n);
      Leads(s, t, held) && Standing(start, t.fleet, t.down, held)
  {
    if n in s.fleet.instances {
      var g, t := s.fleet.instances[n], Removed(s, n);
      StandingChange(start, s.fleet, t.fleet, s.down, t.down, held, {g});
    }
  }

  lemma RegisterNewOne(f: Fleet, f1: Fleet, g: Gen, env: Env, h: Gen)
    requires Valid(f) && g !in f.heap && g in f1.heap && h in f.heap && h in f1.heap && f1.heap[h] == f.heap[h]
    requires f1.instances == f.instances
    ensures var o := Register(f1, g, env);
      h in o.fleet.heap && o.fleet.heap[h] == f.heap[h] && (Current?(o.fleet, h) <==> Current?(f, h))
  {
  }

  lemma RegisterNew(f: Fleet, f1: Fleet, g: Gen, env: Env)
    requires Valid(f) && g !in f.heap && g in f1.heap && f1.heap == f.heap[g := f1.heap[g]]
    requires f1.instances == f.instances && f1.primary == f.primary && f1.heap[g].name != ""
    ensures var o := Register(f1, g, env);
      && Keeps(f.heap, o.fleet.heap) && o.fleet.heap.Keys == f.heap.Keys + {g}
      && (forall h :: h in f.heap ==> o.fleet.heap[h] == f.heap[h])
      && (forall h :: h in f.heap ==> (Current?(o.fleet, h) <==> Current?(f, h)))
      && (Current?(o.fleet, g) <==> o.ok) && o.fleet.heap[g].name == f1.heap[g].name
  {
    RegisterStatics(f1, g, env);
    forall h | h in f.heap
      ensures Register(f1, g, env).fleet.heap[h] == f.heap[h]
      ensures Current?(Register(f1, g, env).fleet, h) <==> Current?(f, h)
    {
      RegisterNewOne(f, f1, g, env, h);
    }
  }

  lemma CreateKeeps(s: Scene, r: Runtime, env: Env, start: Fleet, held: set<Gen>)
    requires SceneOk(s) && Standing(start, s.fleet, s.down, held) && start.heap.Keys <= s.fleet.heap.Keys
    ensures var t := Created(s, r, env);
      Leads(s, t, held) && Standing(start, t.fleet, t.down, held)
  {
    if r.name != "" {
      CreateLeads(s, r, env, held);
      CreateChange(s, r, env, start, held);
    }
  }

  lemma CreateLeads(s: Scene, r: Runtime, env: Env, held: set<Gen>)
    requires SceneOk(s) && r.name != "" && forall g :: g in held ==> g in s.fleet.heap
    ensures Leads(s, Created(s, r, env), held)
  {
    RegisterNew(s.fleet, WithNew(s, r), s.next, env);
    DoAlwaysValid(WithNew(s, r), RegisterStep(s.next), env);
    LeadsWhen(s, Created(s, r, env), held);
  }

  lemma CreateChange(s: Scene, r: Runtime, env: Env, start: Fleet, held: set<Gen>)
    requires SceneOk(s) && Standing(start, s.fleet, s.down, held) && start.heap.Keys <= s.fleet.heap.Keys && r.name != ""
    ensures var t := Created(s, r, env);
      Standing(start, t.fleet, t.down, held)
  {
    var t := Created(s, r, env);
    RegisterNew(s.fleet, WithNew(s, r), s.next, env);
    StandingChange(start, s.fleet, t.fleet, s.down, t.down, held, {});
  }

  lemma ReplaceNew(f: Fleet, f1: Fleet, n: string, g: Gen, env: Env)
    requires Valid(f) && n in f.instances && g !in f.heap && g in f1.heap && f1.heap == f.heap[g := f1.heap[g]]
    requires f1.instances == f.instances && f1.heap[g].name != ""
    ensures var was := f.instances[n];
      var o := Replace(f1, n, was, g, env);
      && was in f.heap && Current?(f, was)
      && Keeps(f.heap, o.fleet.heap) && o.fleet.heap.Keys == f.heap.Keys + {g}
      && (forall h :: h in f.heap ==> o.fleet.heap[h] == f.heap[h])
      && (forall h :: h in f.heap ==> (Current?(o.fleet, h) <==> Current?(f, h) && (o.ok ==> h != was)))
      && (Current?(o.fleet, g) <==> o.ok) && o.fleet.heap[g].name == f1.heap[g].name
  {
    var o := Replace(f1, n, f.instances[n], g, env);
    ReplaceStatics(f1, n, f.instances[n], g, env);
    if o.ok {
      assert o.fleet.instances == (f.instances - {n})[f1.heap[g].name := g];
    } else {
      assert o.fleet.instances == f.instances;
    }
  }

  lemma SwapKeeps(s: Scene, n: string, r: Runtime, env: Env, start: Fleet, held: set<Gen>)
    requires SceneOk(s) && Standing(start, s.fleet, s.down, held) && start.heap.Keys <= s.fleet.heap.Keys
    ensures var t := Swapped(s, n, r, env);
      Leads(s, t, held) && Standing(start, t.fleet, t.down, held)
  {
    if r.name != "" && n in s.fleet.instances {
      SwapLeads(s, n, r, env, held);
      SwapChange(s, n, r, env, start, held);
    }
  }

  lemma SwapLeads(s: Scene, n: string, r: Runtime, env: Env, held: set<Gen>)
    requires SceneOk(s) && r.name != "" && n in s.fleet.instances
    requires forall g :: g in held ==> g in s.fleet.heap
    ensures Leads(s, Swapped(s, n, r, env), held)
  {
    var f1, was := WithNew(s, r), s.fleet.instances[n];
    ReplaceNew(s.fleet, f1, n, s.next, env);
    ReplaceStatics(f1, n, was, s.next, env);
    assert Valid(f1);
    ReplaceAlwaysValid(f1, n, was, s.next, env);
    LeadsWhen(s, Swapped(s, n, r, env), held);
  }

  lemma LeadsWhen(a: Scene, b: Scene, held: set<Gen>)
    requires SceneOk(a) && Valid(b.fleet) && Keeps(a.fleet.heap, b.fleet.heap) && b.next == a.next + 1
    requires b.fleet.heap.Keys == a.fleet.heap.Keys + {a.next} && b.fleet.heap[a.next].name != ""
    requires forall g :: g in a.fleet.heap ==> b.fleet.heap[g] == a.fleet.heap[g]
    requires forall g :: g in b.down ==> g in b.fleet.heap
    ensures Leads(a, b, held)
  {
  }

  lemma SwapChange(s: Scene, n: string, r: Runtime, env: Env, start: Fleet, held: set<Gen>)
    requires SceneOk(s) && Standing(start, s.fleet, s.down, held) && start.heap.Keys <= s.fleet.heap.Keys
    requires r.name != "" && n in s.fleet.instances
    ensures var t := Swapped(s, n, r, env);
      Standing(start, t.fleet, t.down, held)
  {
    var was, t := s.fleet.instances[n], Swapped(s, n, r, env);
    var o := Replace(WithNew(s, r), n, was, s.next, env);
    ReplaceNew(s.fleet, WithNew(s, r), n, s.next, env);
    StandingChange(start, s.fleet, t.fleet, s.down, t.down, held, if o.ok then {was} else {});
  }

  lemma TweakKeeps(s: Scene, n: string, r: Runtime, start: Fleet, held: set<Gen>)
    requires SceneOk(s) && Standing(start, s.fleet, s.down, held) && start.heap.Keys <= s.fleet.heap.Keys
    ensures var t := Retouched(s, n, r);
      Leads(s, t, held) && Standing(start, t.fleet, t.down, held)
  {
    if n in s.fleet.instances {
      var g, t := s.fleet.instances[n], Retouched(s, n, r);
      assert Current?(s.fleet, g) && g !in held;
      assert forall h :: h in s.fleet.heap ==> t.fleet.heap[h].name == s.fleet.heap[h].name;
      StandingChange(start, s.fleet, t.fleet, s.down, t.down, held, {});
    }
  }

  /** Whatever others do, in any order, every generation they or anybody publishes or shuts down stays
      accounted for, and what the reload holds is neither touched nor published. */
  lemma {:induction false} MeddleAllKeeps(s: Scene, ops: seq<Foreign>, env: Env, start: Fleet, held: set<Gen>)
    requires SceneOk(s) && Standing(start, s.fleet, s.down, held) && start.heap.Keys <= s.fleet.heap.Keys
    ensures var t := MeddleAll(s, ops, env);
      Leads(s, t, held) && Standing(start, t.fleet, t.down, held)
  {
    if ops != [] {
      var n := |ops| - 1;
      MeddleAllKeeps(s, ops[..n], env, start, held);
      var t := MeddleAll(s, ops[..n], env);
      match ops[n] {
        case Remove(name) => RemoveKeeps(t, name, start, held);
        case Create(r) => CreateKeeps(t, r, env, start, held);
        case Swap(name, r) => SwapKeeps(t, name, r, env, start, held);
        case Tweak(name, r) => TweakKeeps(t, name, r, start, held);
      }
      LeadsOn(s, t, Meddle(t, ops[n], env), held);
    }
  }

  lemma LeadsOn(a: Scene, b: Scene, c: Scene, held: set<Gen>)
    requires Leads(a, b, held) && Leads(b, c, held)
    ensures Leads(a, c, held)
  {
    forall g | g in held && g in a.fleet.heap
      ensures c.fleet.heap[g] == a.fleet.heap[g]
    {
      assert b.fleet.heap[g] == a.fleet.heap[g];
    }
  }
}
