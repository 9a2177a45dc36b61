/** The bench run: every scenario, repeat and ready arm, with contaminated runs tried again. */
module Harness {
  import opened Names
  import opened Sums
  import opened Bench
  import opened Tally
  import opened RootJoin

  const MaxAttempts := 3
  const MaxRepeats := 10

  /** What one try of a scenario gives. */
  datatype Attempt = Attempt(outcome: Outcome, skipped: string, err: Fault)

  datatype LiveArm = LiveArm(name: Arm, ready: bool)

  /** What the outside world and the arms answer: one attempt per repeat, scenario, live arm and try
      (all counted as the loops count them), and a derived arm's reading of a live outcome. */
  datatype World = World(attempt: (int, int, int, int) -> Attempt, derive: (Arm, Scenario, Outcome) -> Outcome)

  // ----- one run, tried again while contaminated

  function Settled(tries: int -> Attempt, n: int, i: int): (r: (Attempt, int))
    requires i >= 1
    ensures r.0 == tries(r.1) && i <= r.1 && (r.1 <= n || r.1 == i)
    ensures forall j :: i <= j < r.1 ==> tries(j).err == Contamination
    ensures r.0.err == Contamination ==> r.1 >= n
    decreases n - i
  {
    if i >= n || tries(i).err != Contamination then (tries(i), i) else Settled(tries, n, i + 1)
  }

  method RetryContaminated(tries: int -> Attempt, n: int) returns (a: Attempt, attempts: int)
    ensures a == tries(attempts) && 1 <= attempts && (attempts <= n || attempts == 1)
    ensures forall j :: 1 <= j < attempts ==> tries(j).err == Contamination
    ensures a.err == Contamination ==> attempts >= n
    ensures (a, attempts) == Settled(tries, n, 1)
  {
    attempts := 1;
    a := tries(attempts);
    while !(attempts >= n || a.err != Contamination)
      invariant a == tries(attempts) && 1 <= attempts && (attempts <= n || attempts == 1)
      invariant forall j :: 1 <= j < attempts ==> tries(j).err == Contamination
      invariant Settled(tries, n, 1) == Settled(tries, n, attempts)
      decreases n - attempts
    {
      attempts := attempts + 1;
      a := tries(attempts);
    }
  }

  function TriesOf(w: World, rep: int, j: int, i: int): int -> Attempt {
    (t: int) => w.attempt(rep, j, i, t)
  }

  function LiveResult(w: World, sc: Scenario, arm: Arm, rep: int, j: int, i: int): Result {
    var (a, n) := Settled(TriesOf(w, rep, j, i), MaxAttempts, 1);
    Result(sc, arm, rep, a.outcome, a.skipped, a.err, n)
  }

  /** A derived arm's result follows a live run: the same scenario and repeat, skipped or failed with it,
      and if it was scored the arm's reading of its outcome. */
  predicate Follows(w: World, d: Result, r: Result, arm: Arm) {
    && d.arm == arm && d.scenario == r.scenario && d.repeat == r.repeat
    && d.skipped == r.skipped && d.err == r.err && d.attempts == r.attempts
    && d.outcome == if r.skipped == "" && r.err == NoFault then w.derive(arm, r.scenario, r.outcome) else NoOutcome
  }

  /** A live result is the first of at most three tries that was not contaminated, or the third. */
  ghost predicate LiveSays(w: World, r: Result, sc: Scenario, arm: Arm, rep: int, j: int, i: int) {
    && r.scenario == sc && r.arm == arm && r.repeat == rep && 1 <= r.attempts <= 3
    && (forall t :: 1 <= t < r.attempts ==> w.attempt(rep, j, i, t).err == Contamination)
    && (r.err == Contamination ==> r.attempts == 3)
    && Attempt(r.outcome, r.skipped, r.err) == w.attempt(rep, j, i, r.attempts)
  }

  /** A derived arm's result of a live run: skipped or failed with it. */
  function DerivedResult(w: World, r: Result, arm: Arm): Result {
    Result(r.scenario, arm, r.repeat, if Scored(r) then w.derive(arm, r.scenario, r.outcome) else NoOutcome,
           r.skipped, r.err, r.attempts)
  }

  function DerivedResults(w: World, r: Result, arms: seq<Arm>): (out: seq<Result>)
    ensures |out| == |arms| && forall i :: 0 <= i < |arms| ==> out[i] == DerivedResult(w, r, arms[i])
  {
    seq(|arms|, i requires 0 <= i < |arms| => DerivedResult(w, r, arms[i]))
  }

  method DeriveResults(w: World, r: Result, arms: seq<Arm>) returns (out: seq<Result>)
    ensures out == DerivedResults(w, r, arms)
    ensures |out| == |arms| && forall i :: 0 <= i < |arms| ==> Follows(w, out[i], r, arms[i])
  {
    out := [];
    for i := 0 to |arms|
      invariant |out| == i && forall j :: 0 <= j < i ==> out[j] == DerivedResult(w, r, arms[j])
      invariant forall j :: 0 <= j < i ==> Follows(w, out[j], r, arms[j])
    {
      var d := Result(r.scenario, arms[i], r.repeat, NoOutcome, r.skipped, r.err, r.attempts);
      if Scored(r) {
        d := d.(outcome := w.derive(arms[i], r.scenario, r.outcome));
      }
      out := out + [d];
    }
  }

  // ----- the run, block by block

  /** The results of one scenario in one repeat, up to live arm n. */
  function Block(w: World, sc: Scenario, live: seq<Arm>, derived: seq<Arm>, rep: int, j: int, n: nat): seq<Result>
    requires n <= |live|
  {
    if n == 0 then []
    else
      var r := LiveResult(w, sc, live[n - 1], rep, j, n - 1);
      Block(w, sc, live, derived, rep, j, n - 1) + [r] + if n == 1 then DerivedResults(w, r, derived) else []
  }

  function Repeat(w: World, ss: seq<Scenario>, live: seq<Arm>, derived: seq<Arm>, rep: int, n: nat): seq<Result>
    requires n <= |ss|
  {
    if n == 0 then []
    else Repeat(w, ss, live, derived, rep, n - 1) + Block(w, ss[n - 1], live, derived, rep, n - 1, |live|)
  }

  function RunAll(w: World, ss: seq<Scenario>, live: seq<Arm>, derived: seq<Arm>, reps: nat): seq<Result> {
    if reps == 0 then []
    else RunAll(w, ss, live, derived, reps - 1) + Repeat(w, ss, live, derived, reps, |ss|)
  }

  function Ready(arms: seq<LiveArm>): seq<Arm> {
    if arms == [] then []
    else
      var last := arms[|arms| - 1];
      Ready(arms[..|arms| - 1]) + if last.ready then [last.name] else []
  }

  function AtLeastOnce(repeats: int): (r: nat)
    ensures repeats >= 1 ==> r == repeats
    ensures repeats < 1 ==> r == 1
  {
    if repeats > 1 then repeats else 1
  }

  method ReadyArms(arms: seq<LiveArm>) returns (live: seq<Arm>)
    ensures live == Ready(arms)
  {
    live := [];
    for i := 0 to |arms|
      invariant live == Ready(arms[..i])
    {
      assert arms[..i + 1][..i] == arms[..i];
      if arms[i].ready {
        live := live + [arms[i].name];
      }
    }
    assert arms[..|arms|] == arms;
  }

  method RunScenario(w: World, sc: Scenario, live: seq<Arm>, derived: seq<Arm>, rep: int, j: int)
    returns (out: seq<Result>)
    ensures out == Block(w, sc, live, derived, rep, j, |live|)
  {
    out := [];
    for i := 0 to |live|
      invariant out == Block(w, sc, live, derived, rep, j, i)
    {
      var a, attempts := RetryContaminated(TriesOf(w, rep, j, i), MaxAttempts);
      var r := Result(sc, live[i], rep, a.outcome, a.skipped, a.err, attempts);
      out := out + [r];
      if i == 0 {
        var more := DeriveResults(w, r, derived);
        out := out + more;
      }
    }
  }

  method RunRepeat(w: World, ss: seq<Scenario>, live: seq<Arm>, derived: seq<Arm>, rep: int)
    returns (out: seq<Result>)
    ensures out == Repeat(w, ss, live, derived, rep, |ss|)
  {
    out := [];
    for j := 0 to |ss|
      invariant out == Repeat(w, ss, live, derived, rep, j)
    {
      var more := RunScenario(w, ss[j], live, derived, rep, j);
      out := out + more;
    }
  }

  /** Run: every repeat, scenario and ready live arm in turn, the derived arms after the first. */
  method Run(w: World, ss: seq<Scenario>, arms: seq<LiveArm>, derived: seq<Arm>, repeats: int)
    returns (out: seq<Result>)
    ensures out == RunAll(w, ss, Ready(arms), derived, AtLeastOnce(repeats))
  {
    var live := ReadyArms(arms);
    out := [];
    for rep := 0 to AtLeastOnce(repeats)
      invariant out == RunAll(w, ss, live, derived, rep)
    {
      var more := RunRepeat(w, ss, live, derived, rep + 1);
      out := out + more;
    }
  }

  // ----- who is in a block

  /** The arms of a block in the order of their results. */
  function ArmOrder(live: seq<Arm>, derived: seq<Arm>, n: nat): seq<Arm>
    requires n <= |live|
  {
    if n == 0 then [] else if n == 1 then [live[0]] + derived else ArmOrder(live, derived, n - 1) + [live[n - 1]]
  }

  lemma {:induction false} BlockArms(
    w: World, sc: Scenario, live: seq<Arm>, derived: seq<Arm>, rep: int, j: int, n: nat, i: nat)
    requires n <= |live|
    ensures var b := Block(w, sc, live, derived, rep, j, n);
      && |b| == |ArmOrder(live, derived, n)|
      && (i < |b| ==> b[i].arm == ArmOrder(live, derived, n)[i] && b[i].scenario == sc && b[i].repeat == rep)
  {
    if n > 0 {
      BlockArms(w, sc, live, derived, rep, j, n - 1, i);
      var r := LiveResult(w, sc, live[n - 1], rep, j, n - 1);
      if n == 1 {
        assert Block(w, sc, live, derived, rep, j, 1) == [r] + DerivedResults(w, r, derived);
      }
    }
  }

  lemma LiveResultSays(w: World, sc: Scenario, arm: Arm, rep: int, j: int, i: int)
    ensures LiveSays(w, LiveResult(w, sc, arm, rep, j, i), sc, arm, rep, j, i)
  {
    var (a, n) := Settled(TriesOf(w, rep, j, i), MaxAttempts, 1);
    assert a == w.attempt(rep, j, i, n);
    forall t | 1 <= t < n
      ensures w.attempt(rep, j, i, t).err == Contamination
    {
      assert TriesOf(w, rep, j, i)(t).err == Contamination;
    }
  }

  /** The results of one scenario in one repeat: the first live arm's, the derived arms' that follow it,
      and the other live arms'. */
  ghost predicate BlockSays(
    w: World, b: seq<Result>, sc: Scenario, live: seq<Arm>, derived: seq<Arm>, rep: int, j: int, n: nat)
    requires 0 < n <= |live|
  {
    && |b| == n + |derived|
    && LiveSays(w, b[0], sc, live[0], rep, j, 0)
    && (forall i :: 0 <= i < |derived| ==> Follows(w, b[1 + i], b[0], derived[i]))
    && (forall i :: 1 <= i < n ==> LiveSays(w, b[|derived| + i], sc, live[i], rep, j, i))
  }

  lemma FirstSays(w: World, sc: Scenario, live: seq<Arm>, derived: seq<Arm>, rep: int, j: int)
    requires live != []
    ensures BlockSays(w, Block(w, sc, live, derived, rep, j, 1), sc, live, derived, rep, j, 1)
  {
    var r := LiveResult(w, sc, live[0], rep, j, 0);
    var b := Block(w, sc, live, derived, rep, j, 1);
    assert Block(w, sc, live, derived, rep, j, 0) == [];
    assert b == [] + [r] + DerivedResults(w, r, derived);
    LiveResultSays(w, sc, live[0], rep, j, 0);
    forall i | 0 <= i < |derived|
      ensures Follows(w, b[1 + i], b[0], derived[i])
    {
      assert b[1 + i] == DerivedResults(w, r, derived)[i];
    }
  }

  lemma OneMoreSays(
    w: World, b: seq<Result>, r: Result, sc: Scenario, live: seq<Arm>, derived: seq<Arm>, rep: int, j: int, n: nat)
    requires 0 < n < |live| && BlockSays(w, b, sc, live, derived, rep, j, n) && LiveSays(w, r, sc, live[n], rep, j, n)
    ensures BlockSays(w, b + [r], sc, live, derived, rep, j, n + 1)
  {
    var c := b + [r];
    forall i | 0 <= i < |derived|
      ensures Follows(w, c[1 + i], c[0], derived[i])
    {
      assert c[1 + i] == b[1 + i];
    }
    forall i | 1 <= i < n + 1
      ensures LiveSays(w, c[|derived| + i], sc, live[i], rep, j, i)
    {
      if i < n {
        assert c[|derived| + i] == b[|derived| + i];
      }
    }
  }

  lemma {:induction false} BlocksSay(
    w: World, sc: Scenario, live: seq<Arm>, derived: seq<Arm>, rep: int, j: int, n: nat)
    requires 0 < n <= |live|
    ensures BlockSays(w, Block(w, sc, live, derived, rep, j, n), sc, live, derived, rep, j, n)
  {
    if n == 1 {
      FirstSays(w, sc, live, derived, rep, j);
    } else {
      BlocksSay(w, sc, live, derived, rep, j, n - 1);
      LiveResultSays(w, sc, live[n - 1], rep, j, n - 1);
      OneMoreSays(w, Block(w, sc, live, derived, rep, j, n - 1), LiveResult(w, sc, live[n - 1], rep, j, n - 1),
                  sc, live, derived, rep, j, n - 1);
    }
  }

  ghost predicate SliceAt(rs: seq<Result>, at: nat, b: seq<Result>) {
    at + |b| <= |rs| && rs[at..at + |b|] == b
  }

  lemma SliceStays(a: seq<Result>, more: seq<Result>, at: nat, b: seq<Result>)
    requires SliceAt(a, at, b)
    ensures SliceAt(a + more, at, b)
  {
  }

  lemma SliceMoves(before: seq<Result>, a: seq<Result>, at: nat, b: seq<Result>)
    requires SliceAt(a, at, b)
    ensures SliceAt(before + a, |before| + at, b)
  {
    assert (before + a)[|before| + at..|before| + at + |b|] == a[at..at + |b|];
  }

  lemma OneMoreTime(n: int, m: int)
    ensures (n - 1) * m + m == n * m
  {
  }

  lemma BlockLength(w: World, sc: Scenario, live: seq<Arm>, derived: seq<Arm>, rep: int, j: int, n: nat)
    requires 0 < n <= |live|
    ensures |Block(w, sc, live, derived, rep, j, n)| == n + |derived|
  {
    BlocksSay(w, sc, live, derived, rep, j, n);
  }

  lemma {:induction false} RepeatLength(
    w: World, ss: seq<Scenario>, live: seq<Arm>, derived: seq<Arm>, rep: int, n: nat, width: nat)
    requires n <= |ss| && live != [] && width == |live| + |derived|
    ensures |Repeat(w, ss, live, derived, rep, n)| == n * width
  {
    if n > 0 {
      RepeatLength(w, ss, live, derived, rep, n - 1, width);
      BlockLength(w, ss[n - 1], live, derived, rep, n - 1, |live|);
      OneMoreTime(n, width);
    }
  }

  lemma {:induction false} RunLength(
    w: World, ss: seq<Scenario>, live: seq<Arm>, derived: seq<Arm>, reps: nat, width: nat)
    requires live != [] && width == |ss| * (|live| + |derived|)
    ensures |RunAll(w, ss, live, derived, reps)| == reps * width
  {
    if reps > 0 {
      RunLength(w, ss, live, derived, reps - 1, width);
      RepeatLength(w, ss, live, derived, reps, |ss|, |live| + |derived|);
      OneMoreTime(reps, width);
    }
  }

  lemma {:induction false} BlockInRepeat(
    w: World, ss: seq<Scenario>, live: seq<Arm>, derived: seq<Arm>, rep: int, n: nat, j: nat, at: nat, b: seq<Result>)
    requires j < n <= |ss| && b == Block(w, ss[j], live, derived, rep, j, |live|)
    requires at == |Repeat(w, ss, live, derived, rep, j)|
    ensures SliceAt(Repeat(w, ss, live, derived, rep, n), at, b)
    decreases n
  {
    var before, last := Repeat(w, ss, live, derived, rep, n - 1), Block(w, ss[n - 1], live, derived, rep, n - 1, |live|);
    if j == n - 1 {
      SliceMoves(before, last, 0, b);
    } else {
      BlockInRepeat(w, ss, live, derived, rep, n - 1, j, at, b);
      SliceStays(before, last, at, b);
    }
  }

  lemma {:induction false} BlockInRun(
    w: World, ss: seq<Scenario>, live: seq<Arm>, derived: seq<Arm>, reps: nat, rep: nat, first: nat, at: nat, b: seq<Result>)
    requires 1 <= rep <= reps && first == |RunAll(w, ss, live, derived, rep - 1)|
    requires SliceAt(Repeat(w, ss, live, derived, rep, |ss|), at, b)
    ensures SliceAt(RunAll(w, ss, live, derived, reps), first + at, b)
    decreases reps
  {
    var before, last := RunAll(w, ss, live, derived, reps - 1), Repeat(w, ss, live, derived, reps, |ss|);
    if rep == reps {
      SliceMoves(before, last, at, b);
    } else {
      BlockInRun(w, ss, live, derived, reps - 1, rep, first, at, b);
      SliceStays(before, last, first + at, b);
    }
  }

  /** The results of scenario number j in one repeat stand together, from `at` on. */
  ghost predicate BlockAt(
    w: World, rs: seq<Result>, at: int, sc: Scenario, live: seq<Arm>, derived: seq<Arm>, rep: int, j: int)
    requires live != []
  {
    && 0 <= at && at + |live| + |derived| <= |rs|
    && BlockSays(w, rs[at..at + |live| + |derived|], sc, live, derived, rep, j, |live|)
  }

  lemma SliceSays(
    w: World, rs: seq<Result>, at: nat, b: seq<Result>, sc: Scenario, live: seq<Arm>, derived: seq<Arm>, rep: int, j: int)
    requires live != [] && SliceAt(rs, at, b) && BlockSays(w, b, sc, live, derived, rep, j, |live|)
    ensures BlockAt(w, rs, at, sc, live, derived, rep, j)
  {
  }

  lemma RunSaysAt(
    w: World, ss: seq<Scenario>, live: seq<Arm>, derived: seq<Arm>, reps: nat, rep: nat, j: nat, first: nat, at: nat,
    b: seq<Result>)
    requires live != [] && 1 <= rep <= reps && j < |ss| && b == Block(w, ss[j], live, derived, rep, j, |live|)
    requires first == |RunAll(w, ss, live, derived, rep - 1)| && at == |Repeat(w, ss, live, derived, rep, j)|
    ensures SliceAt(RunAll(w, ss, live, derived, reps), first + at, b)
    ensures BlockSays(w, b, ss[j], live, derived, rep, j, |live|)
  {
    BlockInRepeat(w, ss, live, derived, rep, |ss|, j, at, b);
    BlockInRun(w, ss, live, derived, reps, rep, first, at, b);
    BlocksSay(w, ss[j], live, derived, rep, j, |live|);
  }

  /** A run is every repeat in turn, in it every scenario in turn, and for each what the first ready live
      arm came to, what the derived arms read from that, and what the other live arms came to. */
  lemma RunSays(w: World, ss: seq<Scenario>, live: seq<Arm>, derived: seq<Arm>, reps: nat, rep: nat, j: nat)
    returns (at: nat)
    requires live != [] && 1 <= rep <= reps && j < |ss|
    ensures at == (rep - 1) * (|ss| * (|live| + |derived|)) + j * (|live| + |derived|)
    ensures BlockAt(w, RunAll(w, ss, live, derived, reps), at, ss[j], live, derived, rep, j)
  {
    at := PlaceOf(w, ss, live, derived, rep, j);
    var b := Block(w, ss[j], live, derived, rep, j, |live|);
    RunSaysAt(w, ss, live, derived, reps, rep, j, |RunAll(w, ss, live, derived, rep - 1)|,
              |Repeat(w, ss, live, derived, rep, j)|, b);
    SliceSays(w, RunAll(w, ss, live, derived, reps), at, b, ss[j], live, derived, rep, j);
  }

  lemma PlaceOf(w: World, ss: seq<Scenario>, live: seq<Arm>, derived: seq<Arm>, rep: nat, j: nat) returns (at: nat)
    requires live != [] && 1 <= rep && j < |ss|
    ensures at == (rep - 1) * (|ss| * (|live| + |derived|)) + j * (|live| + |derived|)
    ensures at == |RunAll(w, ss, live, derived, rep - 1)| + |Repeat(w, ss, live, derived, rep, j)|
  {
    RunLength(w, ss, live, derived, rep - 1, |ss| * (|live| + |derived|));
    RepeatLength(w, ss, live, derived, rep, j, |live| + |derived|);
    at := |RunAll(w, ss, live, derived, rep - 1)| + |Repeat(w, ss, live, derived, rep, j)|;
  }

  lemma {:induction false} ReadyAre(arms: seq<LiveArm>, name: Arm)
    ensures name in Ready(arms) <==> exists i :: 0 <= i < |arms| && arms[i].name == name && arms[i].ready
  {
    if arms != [] {
      var n := |arms| - 1;
      ReadyAre(arms[..n], name);
      assert forall i :: 0 <= i < n ==> arms[..n][i] == arms[i];
      if i :| 0 <= i < |arms| && arms[i].name == name && arms[i].ready && i < n {
        assert arms[..n][i].name == name;
      }
    }
  }

  // ----- no run is recorded twice

  datatype FullKey = FullKey(arm: Arm, scenario: string, repeat: int)

  function FullKeyOf(r: Result): FullKey {
    FullKey(r.arm, r.scenario.id, r.repeat)
  }

  ghost predicate KeysDistinct(rs: seq<Result>) {
    forall i, j :: 0 <= i < j < |rs| ==> FullKeyOf(rs[i]) != FullKeyOf(rs[j])
  }

  ghost predicate ScenariosDistinct(ss: seq<Scenario>) {
    forall i, j :: 0 <= i < j < |ss| ==> ss[i].id != ss[j].id
  }

  lemma {:induction false} BlockDistinct(w: World, sc: Scenario, live: seq<Arm>, derived: seq<Arm>, rep: int, j: int)
    requires Distinct(ArmOrder(live, derived, |live|))
    ensures KeysDistinct(Block(w, sc, live, derived, rep, j, |live|))
  {
    var b := Block(w, sc, live, derived, rep, j, |live|);
    forall i, k | 0 <= i < k < |b|
      ensures FullKeyOf(b[i]) != FullKeyOf(b[k])
    {
      BlockArms(w, sc, live, derived, rep, j, |live|, i);
      BlockArms(w, sc, live, derived, rep, j, |live|, k);
    }
  }

  lemma {:induction false} RepeatMembers(
    w: World, ss: seq<Scenario>, live: seq<Arm>, derived: seq<Arm>, rep: int, n: nat, i: nat)
    requires n <= |ss| && i < |Repeat(w, ss, live, derived, rep, n)|
    ensures var r := Repeat(w, ss, live, derived, rep, n)[i];
      r.repeat == rep && exists j :: 0 <= j < n && r.scenario == ss[j]
  {
    var before := Repeat(w, ss, live, derived, rep, n - 1);
    if i < |before| {
      RepeatMembers(w, ss, live, derived, rep, n - 1, i);
    } else {
      BlockArms(w, ss[n - 1], live, derived, rep, n - 1, |live|, i - |before|);
    }
  }

  lemma {:induction false} RepeatDistinct(
    w: World, ss: seq<Scenario>, live: seq<Arm>, derived: seq<Arm>, rep: int, n: nat)
    requires n <= |ss| && ScenariosDistinct(ss) && Distinct(ArmOrder(live, derived, |live|))
    ensures KeysDistinct(Repeat(w, ss, live, derived, rep, n))
  {
    if n > 0 {
      RepeatDistinct(w, ss, live, derived, rep, n - 1);
      BlockDistinct(w, ss[n - 1], live, derived, rep, n - 1);
      BlockApart(w, ss, live, derived, rep, n);
      JoinDistinct(Repeat(w, ss, live, derived, rep, n - 1), Block(w, ss[n - 1], live, derived, rep, n - 1, |live|));
    }
  }

  ghost predicate Apart(a: seq<Result>, b: seq<Result>) {
    forall i, k :: 0 <= i < |a| && 0 <= k < |b| ==> FullKeyOf(a[i]) != FullKeyOf(b[k])
  }

  lemma {:induction false} BlockApart(w: World, ss: seq<Scenario>, live: seq<Arm>, derived: seq<Arm>, rep: int, n: nat)
    requires 0 < n <= |ss| && ScenariosDistinct(ss)
    ensures Apart(Repeat(w, ss, live, derived, rep, n - 1), Block(w, ss[n - 1], live, derived, rep, n - 1, |live|))
  {
    var before := Repeat(w, ss, live, derived, rep, n - 1);
    var b := Block(w, ss[n - 1], live, derived, rep, n - 1, |live|);
    forall i, k | 0 <= i < |before| && 0 <= k < |b|
      ensures FullKeyOf(before[i]) != FullKeyOf(b[k])
    {
      RepeatMembers(w, ss, live, derived, rep, n - 1, i);
      BlockArms(w, ss[n - 1], live, derived, rep, n - 1, |live|, k);
    }
  }

  lemma JoinDistinct(a: seq<Result>, b: seq<Result>)
    requires KeysDistinct(a) && KeysDistinct(b) && Apart(a, b)
    ensures KeysDistinct(a + b)
  {
    forall i, j | 0 <= i < j < |a + b|
      ensures FullKeyOf((a + b)[i]) != FullKeyOf((a + b)[j])
    {
      if i >= |a| {
        assert FullKeyOf(b[i - |a|]) != FullKeyOf(b[j - |a|]);
      }
    }
  }

  lemma {:induction false} RepeatApart(w: World, ss: seq<Scenario>, live: seq<Arm>, derived: seq<Arm>, reps: nat)
    requires reps > 0
    ensures Apart(RunAll(w, ss, live, derived, reps - 1), Repeat(w, ss, live, derived, reps, |ss|))
  {
    RunBefore(w, ss, live, derived, reps - 1);
    RepeatDuring(w, ss, live, derived, reps);
    ApartInTime(RunAll(w, ss, live, derived, reps - 1), Repeat(w, ss, live, derived, reps, |ss|), reps);
  }

  lemma {:induction false} RunBefore(w: World, ss: seq<Scenario>, live: seq<Arm>, derived: seq<Arm>, reps: nat)
    ensures EachRepeat(RunAll(w, ss, live, derived, reps), 1, reps)
  {
    forall i: nat | i < |RunAll(w, ss, live, derived, reps)|
      ensures 1 <= RunAll(w, ss, live, derived, reps)[i].repeat <= reps
    {
      RunMembers(w, ss, live, derived, reps, i);
    }
  }

  lemma {:induction false} RepeatDuring(w: World, ss: seq<Scenario>, live: seq<Arm>, derived: seq<Arm>, rep: int)
    ensures EachRepeat(Repeat(w, ss, live, derived, rep, |ss|), rep, rep)
  {
    forall i: nat | i < |Repeat(w, ss, live, derived, rep, |ss|)|
      ensures Repeat(w, ss, live, derived, rep, |ss|)[i].repeat == rep
    {
      RepeatMembers(w, ss, live, derived, rep, |ss|, i);
    }
  }

  ghost predicate EachRepeat(rs: seq<Result>, low: int, high: int) {
    forall i :: 0 <= i < |rs| ==> low <= rs[i].repeat <= high
  }

  lemma ApartInTime(a: seq<Result>, b: seq<Result>, rep: int)
    requires EachRepeat(a, 1, rep - 1) && EachRepeat(b, rep, rep)
    ensures Apart(a, b)
  {
  }

  lemma {:induction false} RunMembers(w: World, ss: seq<Scenario>, live: seq<Arm>, derived: seq<Arm>, reps: nat, i: nat)
    requires i < |RunAll(w, ss, live, derived, reps)|
    ensures 1 <= RunAll(w, ss, live, derived, reps)[i].repeat <= reps
  {
    var before := RunAll(w, ss, live, derived, reps - 1);
    if i < |before| {
      RunMembers(w, ss, live, derived, reps - 1, i);
    } else {
      RepeatMembers(w, ss, live, derived, reps, |ss|, i - |before|);
    }
  }

  /** With distinct scenario ids and arm names no (arm, scenario, repeat) is recorded twice. */
  lemma {:induction false} RunDistinct(w: World, ss: seq<Scenario>, live: seq<Arm>, derived: seq<Arm>, reps: nat)
    requires ScenariosDistinct(ss) && Distinct(ArmOrder(live, derived, |live|))
    ensures KeysDistinct(RunAll(w, ss, live, derived, reps))
    ensures UniqueRuns(RunAll(w, ss, live, derived, reps))
  {
    if reps > 0 {
      RunDistinct(w, ss, live, derived, reps - 1);
      RepeatDistinct(w, ss, live, derived, reps, |ss|);
      RepeatApart(w, ss, live, derived, reps);
      JoinDistinct(RunAll(w, ss, live, derived, reps - 1), Repeat(w, ss, live, derived, reps, |ss|));
    }
    DistinctAreUnique(RunAll(w, ss, live, derived, reps));
  }

  lemma DistinctAreUnique(rs: seq<Result>)
    requires KeysDistinct(rs)
    ensures UniqueRuns(rs)
  {
    forall i, j | 0 <= i < j < |rs| && rs[i].arm == rs[j].arm
      ensures KeyOf(rs[i]) != KeyOf(rs[j])
    {
      assert FullKeyOf(rs[i]) != FullKeyOf(rs[j]);
    }
  }

  // ----- how many sufficient-evidence runs an arm gets

  predicate Asks(sc: Scenario, family: string) {
    sc.family == family && Sufficient(sc.gold)
  }

  function AskCount(ss: seq<Scenario>, family: string): nat {
    if ss == [] then 0 else AskCount(ss[..|ss| - 1], family) + if Asks(ss[|ss| - 1], family) then 1 else 0
  }

  function Gets(arm: Arm, family: string): Result -> int {
    (r: Result) => Indicator(r.arm == arm && Asks(r.scenario, family))
  }

  function ArmCount(arms: seq<Arm>, arm: Arm): nat {
    if arms == [] then 0 else ArmCount(arms[..|arms| - 1], arm) + if arms[|arms| - 1] == arm then 1 else 0
  }

  lemma {:induction false} ArmCountOne(arms: seq<Arm>, arm: Arm)
    requires Distinct(arms)
    ensures ArmCount(arms, arm) == if arm in arms then 1 else 0
  {
    if arms != [] {
      var n := |arms| - 1;
      ArmCountOne(arms[..n], arm);
      assert arms == arms[..n] + [arms[n]];
      assert arms[n] !in arms[..n];
    }
  }

  /** Results of one scenario count once for each time the arm is listed, if the scenario asks. */
  lemma {:induction false} ListCount(rs: seq<Result>, arms: seq<Arm>, sc: Scenario, arm: Arm, family: string)
    requires |rs| == |arms| && forall i :: 0 <= i < |rs| ==> rs[i].arm == arms[i] && rs[i].scenario == sc
    ensures SumBy(rs, Gets(arm, family)) == if Asks(sc, family) then ArmCount(arms, arm) else 0
  {
    if rs != [] {
      var n := |rs| - 1;
      ListCount(rs[..n], arms[..n], sc, arm, family);
    }
  }

  lemma {:induction false} BlockCount(
    w: World, sc: Scenario, live: seq<Arm>, derived: seq<Arm>, rep: int, j: int, arm: Arm, family: string)
    requires Distinct(ArmOrder(live, derived, |live|)) && arm in ArmOrder(live, derived, |live|)
    ensures SumBy(Block(w, sc, live, derived, rep, j, |live|), Gets(arm, family)) == if Asks(sc, family) then 1 else 0
  {
    var b := Block(w, sc, live, derived, rep, j, |live|);
    var order := ArmOrder(live, derived, |live|);
    BlockArms(w, sc, live, derived, rep, j, |live|, 0);
    forall i | 0 <= i < |b|
      ensures b[i].arm == order[i] && b[i].scenario == sc
    {
      BlockArms(w, sc, live, derived, rep, j, |live|, i);
    }
    ListCount(b, order, sc, arm, family);
    ArmCountOne(order, arm);
  }

  lemma {:induction false} RepeatCount(
    w: World, ss: seq<Scenario>, live: seq<Arm>, derived: seq<Arm>, rep: int, n: nat, arm: Arm, family: string)
    requires n <= |ss| && Distinct(ArmOrder(live, derived, |live|)) && arm in ArmOrder(live, derived, |live|)
    ensures SumBy(Repeat(w, ss, live, derived, rep, n), Gets(arm, family)) == AskCount(ss[..n], family)
  {
    if n > 0 {
      RepeatCount(w, ss, live, derived, rep, n - 1, arm, family);
      BlockCount(w, ss[n - 1], live, derived, rep, n - 1, arm, family);
      SumConcat(Repeat(w, ss, live, derived, rep, n - 1), Block(w, ss[n - 1], live, derived, rep, n - 1, |live|),
                Gets(arm, family));
      AskCountStep(ss, n, family);
    }
  }

  lemma AskCountStep(ss: seq<Scenario>, n: nat, family: string)
    requires 0 < n <= |ss|
    ensures AskCount(ss[..n], family) == AskCount(ss[..n - 1], family) + if Asks(ss[n - 1], family) then 1 else 0
  {
    assert ss[..n][..n - 1] == ss[..n - 1];
  }

  /** Every arm of the run gets each asking scenario of a family once in every repeat. */
  lemma {:induction false} RunCount(
    w: World, ss: seq<Scenario>, live: seq<Arm>, derived: seq<Arm>, reps: nat, arm: Arm, family: string)
    requires Distinct(ArmOrder(live, derived, |live|)) && arm in ArmOrder(live, derived, |live|)
    ensures SumBy(RunAll(w, ss, live, derived, reps), Gets(arm, family)) == reps * AskCount(ss, family)
  {
    if reps > 0 {
      RunCount(w, ss, live, derived, reps - 1, arm, family);
      RepeatCount(w, ss, live, derived, reps, |ss|, arm, family);
      assert ss[..|ss|] == ss;
      SumConcat(RunAll(w, ss, live, derived, reps - 1), Repeat(w, ss, live, derived, reps, |ss|), Gets(arm, family));
      assert (reps - 1) * AskCount(ss, family) + AskCount(ss, family) == reps * AskCount(ss, family);
    }
  }

  // ----- how many repeats to run

  /** Go's division by a positive number, which truncates toward zero. */
  function Quotient(a: int, b: int): (r: int)
    requires b > 0
  {
    if a >= 0 then a / b else -((-a) / b)
  }

  function Smaller(a: int, b: int): int {
    if a < b then a else b
  }

  /** Enough runs for a family with n asking scenarios, or as many as the bound allows. */
  predicate Enough(repeats: int, n: int, minRuns: int) {
    n > 0 ==> repeats * n >= minRuns || repeats * n >= 10 * n
  }

  lemma NeedIsLeast(minRuns: int, n: int, repeats: int)
    requires n > 0 && repeats >= 1
    ensures repeats >= Quotient(minRuns + n - 1, n) <==> repeats * n >= minRuns
  {
    var need := Quotient(minRuns + n - 1, n);
    if minRuns + n - 1 >= 0 {
      assert need * n <= minRuns + n - 1 < need * n + n;
      if repeats >= need {
        assert repeats * n >= need * n;
      } else {
        assert repeats * n <= (need - 1) * n;
        assert (need - 1) * n == need * n - n;
      }
    } else {
      assert repeats * n >= 1;
    }
  }

  lemma AskCountKeys(ss: seq<Scenario>, m: map<string, int>)
    requires forall f :: (f in m <==> AskCount(ss, f) > 0) && (f in m ==> m[f] == AskCount(ss, f))
    ensures forall f :: f in m ==> m[f] > 0
  {
  }

  method CountAsking(ss: seq<Scenario>) returns (m: map<string, int>)
    ensures forall f :: (f in m <==> AskCount(ss, f) > 0) && (f in m ==> m[f] == AskCount(ss, f))
  {
    m := map[];
    for i := 0 to |ss|
      invariant forall f :: (f in m <==> AskCount(ss[..i], f) > 0) && (f in m ==> m[f] == AskCount(ss[..i], f))
    {
      assert ss[..i + 1][..i] == ss[..i];
      var f := ss[i].family;
      if Sufficient(ss[i].gold) {
        m := m[f := (if f in m then m[f] else 0) + 1];
      }
    }
    assert ss[..|ss|] == ss;
  }

  ghost predicate TooFew(ss: seq<Scenario>, repeats: int, minRuns: int) {
    exists f :: AskCount(ss, f) > 0 && repeats * AskCount(ss, f) < minRuns
  }

  function NeedOf(minRuns: int, n: int): int
    requires n > 0
  {
    Quotient(minRuns + n - 1, n)
  }

  /** The running maximum of the families' needs, in whatever order they come. */
  method LargestNeed(counts: map<string, int>, minRuns: int) returns (repeats: int)
    requires forall f :: f in counts ==> counts[f] > 0
    ensures repeats >= 1 && forall f :: f in counts ==> repeats >= NeedOf(minRuns, counts[f])
    ensures repeats == 1 || exists f :: f in counts && repeats == NeedOf(minRuns, counts[f])
  {
    repeats := 1;
    var left := counts.Keys;
    while left != {}
      invariant repeats >= 1 && left <= counts.Keys
      invariant forall f :: f in counts && f !in left ==> repeats >= NeedOf(minRuns, counts[f])
      invariant repeats == 1 || exists f :: f in counts && repeats == NeedOf(minRuns, counts[f])
      decreases left
    {
      var f :| f in left;
      var need := Quotient(minRuns + counts[f] - 1, counts[f]);
      assert need == NeedOf(minRuns, counts[f]);
      if need > repeats {
        repeats := need;
      }
      left := left - {f};
    }
  }

  lemma EnoughAt(repeats: int, wanted: int, n: int, minRuns: int)
    requires n > 0 && wanted >= 1 && wanted >= NeedOf(minRuns, n) && repeats == Smaller(wanted, MaxRepeats)
    ensures Enough(repeats, n, minRuns)
  {
    NeedIsLeast(minRuns, n, wanted);
  }

  lemma FewerIsTooFew(ss: seq<Scenario>, f: string, fewer: int, wanted: int, minRuns: int)
    requires AskCount(ss, f) > 0 && 1 <= fewer < wanted && wanted == NeedOf(minRuns, AskCount(ss, f))
    ensures TooFew(ss, fewer, minRuns)
  {
    NeedIsLeast(minRuns, AskCount(ss, f), fewer);
  }

  /** RepeatsFor: the least number of repeats, from one to the bound, that gives every family its
      minimum, or the bound. */
  method RepeatsFor(ss: seq<Scenario>, minRuns: int) returns (repeats: int)
    ensures 1 <= repeats <= 10
    ensures forall f :: Enough(repeats, AskCount(ss, f), minRuns)
    ensures forall fewer :: 1 <= fewer < repeats ==> TooFew(ss, fewer, minRuns)
  {
    var counts := CountAsking(ss);
    AskCountKeys(ss, counts);
    var wanted := LargestNeed(counts, minRuns);
    repeats := Smaller(wanted, MaxRepeats);
    forall f
      ensures Enough(repeats, AskCount(ss, f), minRuns)
    {
      if f in counts {
        EnoughAt(repeats, wanted, AskCount(ss, f), minRuns);
      }
    }
    if wanted > 1 {
      ghost var f :| f in counts && wanted == NeedOf(minRuns, counts[f]);
      forall fewer | 1 <= fewer < repeats
        ensures TooFew(ss, fewer, minRuns)
      {
        FewerIsTooFew(ss, f, fewer, wanted, minRuns);
      }
    }
  }

  /** With that many repeats every arm of the run gets, in every family with n asking scenarios, at
      least the smaller of the minimum and ten times n runs. */
  lemma {:induction false} EnoughRuns(
    w: World, ss: seq<Scenario>, live: seq<Arm>, derived: seq<Arm>, repeats: int, minRuns: int, arm: Arm, family: string)
    requires Distinct(ArmOrder(live, derived, |live|)) && arm in ArmOrder(live, derived, |live|)
    requires repeats >= 1 && Enough(repeats, AskCount(ss, family), minRuns) && AskCount(ss, family) > 0
    ensures SumBy(RunAll(w, ss, live, derived, AtLeastOnce(repeats)), Gets(arm, family))
      >= if minRuns < 10 * AskCount(ss, family) then minRuns else 10 * AskCount(ss, family)
  {
    RunCount(w, ss, live, derived, AtLeastOnce(repeats), arm, family);
  }

  /** Every ready live arm is in the run, and so is every derived arm once a live arm is ready. */
  lemma {:induction false} ReadyArmsRun(live: seq<Arm>, derived: seq<Arm>, n: nat, arm: Arm)
    requires n <= |live|
    ensures arm in ArmOrder(live, derived, n) <==> arm in live[..n] || (n > 0 && arm in derived)
  {
    if n == 1 {
      assert live[..1] == [live[0]];
    } else if n > 1 {
      ReadyArmsRun(live, derived, n - 1, arm);
      assert live[..n] == live[..n - 1] + [live[n - 1]];
    }
  }
}
