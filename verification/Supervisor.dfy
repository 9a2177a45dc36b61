/** The restart supervisor of the Databricks app: relaunches a child that asks for it, at most five
    times in any minute. Times are monotonic-clock readings in seconds. */
module Supervisor {
  import opened Names
  import opened Sums

  const RestartStatus := 42
  const MaxRestarts := 5
  const Window := 60.0

  /** One child run: its exit status (negative for a signal), the platform's signal if one came
      while it ran, the clock when it exited, and whether a signal came before the next launch. */
  datatype ChildRun = ChildRun(status: int, signal: Option<int>, at: real, stopAfter: bool)

  /** Why the supervisor ended, if the runs ended it. */
  datatype Verdict = Watching | Exited(code: int) | TooManyRestarts

  function Recent(now: real): real -> bool {
    (started: real) => now - started < Window
  }

  function StoppedCode(status: int, signal: int): int {
    if status == 0 then 0 else 128 + signal
  }

  function ChildCode(status: int): int {
    if status >= 0 then status else 128 - status
  }

  /** How it ended, the restarts granted, and the children whose exit was seen. */
  datatype Watch = Watch(verdict: Verdict, history: seq<real>, exits: nat)

  /** The rule without pruning: a restart is granted when fewer than five of ALL restarts granted so
      far are less than a minute old. The history lists the granted restarts. */
  function Observe(history: seq<real>, runs: seq<ChildRun>): Watch
    decreases runs
  {
    if runs == [] then Watch(Watching, history, 0)
    else
      var run := runs[0];
      if run.signal.Some? then Watch(Exited(StoppedCode(run.status, run.signal.value)), history, 1)
      else if run.status != RestartStatus then Watch(Exited(ChildCode(run.status)), history, 1)
      else if |Filter(history, Recent(run.at))| >= MaxRestarts then Watch(TooManyRestarts, history, 1)
      else if run.stopAfter then Watch(Exited(0), history + [run.at], 1)
      else
        var later := Observe(history + [run.at], runs[1..]);
        later.(exits := later.exits + 1)
  }

  // ----- the rule, exit by exit

  /** The clock readings of the runs. */
  function ExitTimes(runs: seq<ChildRun>): (r: seq<real>)
    ensures |r| == |runs| && forall i :: 0 <= i < |runs| ==> r[i] == runs[i].at
  {
    seq(|runs|, i requires 0 <= i < |runs| => runs[i].at)
  }

  /** How many of the times are less than sixty seconds before `now`. */
  function InLastMinute(times: seq<real>, now: real): nat {
    if times == [] then 0
    else InLastMinute(times[..|times| - 1], now) + if now - times[|times| - 1] < 60.0 then 1 else 0
  }

  lemma {:induction false} RecentCount(times: seq<real>, now: real)
    ensures |Filter(times, Recent(now))| == InLastMinute(times, now)
  {
    if times != [] {
      RecentCount(times[..|times| - 1], now);
    }
  }

  /** The child asked to be started again and nobody told the supervisor to stop. */
  predicate Restarts(run: ChildRun) {
    run.status == 42 && run.signal.None? && !run.stopAfter
  }

  /** Fewer than five of the exits before number i were in the minute before it. */
  ghost predicate InLimit(runs: seq<ChildRun>, i: nat)
    requires i < |runs|
  {
    InLastMinute(ExitTimes(runs[..i]), runs[i].at) < 5
  }

  /** What the supervisor does about the exit number n - 1, the last it sees: after a signal it leaves
      with the child, 0 for a clean exit and 128 plus the signal otherwise; without one it passes on a
      status that does not ask for a restart, 128 plus the signal that killed the child if one did; it
      gives up on a request past the limit; and it leaves cleanly when told to stop before a launch. */
  ghost predicate EndsWith(runs: seq<ChildRun>, n: nat, verdict: Verdict)
    requires 0 < n <= |runs|
  {
    var last := runs[n - 1];
    if last.signal.Some? then verdict == Exited(if last.status == 0 then 0 else 128 + last.signal.value)
    else if last.status != 42 then verdict == Exited(if last.status >= 0 then last.status else 128 - last.status)
    else if !InLimit(runs, n - 1) then verdict == TooManyRestarts
    else last.stopAfter && verdict == Exited(0)
  }

  ghost predicate AllRestart(runs: seq<ChildRun>, n: nat)
    requires n <= |runs|
  {
    forall i :: 0 <= i < n ==> Restarts(runs[i]) && InLimit(runs, i)
  }

  /** It sees n exits: all but the last restart within the limit, and the last ends it, or all do. */
  ghost predicate Ends(runs: seq<ChildRun>, n: nat, verdict: Verdict) {
    if verdict.Watching? then n == |runs| && AllRestart(runs, n)
    else 0 < n <= |runs| && AllRestart(runs, n - 1) && EndsWith(runs, n, verdict)
  }

  /** One exit: the child restarts and the rest follows, or it is the last. */
  lemma OneExit(history: seq<real>, run: ChildRun, rest: seq<ChildRun>)
    ensures var w := Observe(history, [run] + rest);
      if Restarts(run) && |Filter(history, Recent(run.at))| < 5
      then
        var later := Observe(history + [run.at], rest);
        w == later.(exits := later.exits + 1)
      else w.exits == 1
  {
    assert ([run] + rest)[1..] == rest;
  }

  lemma LastExit(runs: seq<ChildRun>, i: nat, history: seq<real>, rest: seq<ChildRun>) returns (verdict: Verdict)
    requires i < |runs| && history == ExitTimes(runs[..i]) && !(Restarts(runs[i]) && InLimit(runs, i))
    ensures verdict == Observe(history, [runs[i]] + rest).verdict && Observe(history, [runs[i]] + rest).exits == 1
    ensures !verdict.Watching? && EndsWith(runs, i + 1, verdict)
  {
    verdict := Observe(history, [runs[i]] + rest).verdict;
    RecentCount(history, runs[i].at);
  }

  lemma NextHistory(runs: seq<ChildRun>, i: nat)
    requires i < |runs|
    ensures ExitTimes(runs[..i + 1]) == ExitTimes(runs[..i]) + [runs[i].at]
  {
  }

  lemma {:induction false} ObserveFrom(runs: seq<ChildRun>, i: nat, history: seq<real>, rest: seq<ChildRun>)
    returns (n: nat, verdict: Verdict)
    requires i <= |runs| && history == ExitTimes(runs[..i]) && rest == runs[i..] && AllRestart(runs, i)
    ensures n == i + Observe(history, rest).exits && verdict == Observe(history, rest).verdict
    ensures Ends(runs, n, verdict)
    decreases |runs| - i
  {
    if i == |runs| {
      n, verdict := i, Watching;
    } else {
      var run, later := runs[i], runs[i + 1..];
      assert rest == [run] + later;
      if Restarts(run) && InLimit(runs, i) {
        NextHistory(runs, i);
        GoesOn(runs, i, history, later);
        n, verdict := ObserveFrom(runs, i + 1, history + [run.at], later);
      } else {
        verdict := LastExit(runs, i, history, later);
        n := i + 1;
      }
    }
  }

  lemma GoesOn(runs: seq<ChildRun>, i: nat, history: seq<real>, rest: seq<ChildRun>)
    requires i < |runs| && history == ExitTimes(runs[..i]) && Restarts(runs[i]) && InLimit(runs, i) && AllRestart(runs, i)
    ensures AllRestart(runs, i + 1)
    ensures var w, later := Observe(history, [runs[i]] + rest), Observe(history + [runs[i].at], rest);
      w.verdict == later.verdict && w.exits == later.exits + 1
  {
    RecentCount(history, runs[i].at);
    OneExit(history, runs[i], rest);
  }

  /** The rule is exactly that. */
  lemma ObserveEnds(runs: seq<ChildRun>)
    ensures Ends(runs, Observe([], runs).exits, Observe([], runs).verdict)
  {
    assert ExitTimes(runs[..0]) == [] && runs[0..] == runs;
    var _, _ := ObserveFrom(runs, 0, [], runs);
  }

  ghost predicate ClockOk(runs: seq<ChildRun>) {
    forall i, j :: 0 <= i < j < |runs| ==> runs[i].at <= runs[j].at
  }

  lemma {:induction false} FilterTwice<T(!new)>(s: seq<T>, p: T -> bool, q: T -> bool)
    requires forall x :: q(x) ==> p(x)
    ensures Filter(Filter(s, p), q) == Filter(s, q)
  {
    if s != [] {
      var t, x := s[..|s| - 1], s[|s| - 1];
      FilterTwice(t, p, q);
      FilterAppend(Filter(t, p), x, q);
    }
  }

  lemma {:induction false} FilterFewer<T(!new)>(s: seq<T>, p: T -> bool, q: T -> bool)
    requires forall x :: p(x) ==> q(x)
    ensures |Filter(s, p)| <= |Filter(s, q)|
  {
    if s != [] {
      FilterFewer(s[..|s| - 1], p, q);
    }
  }

  /** One comprehension over the pruned list keeps what one over the whole history keeps. */
  method Prune(restarts: seq<real>, now: real) returns (kept: seq<real>)
    ensures kept == Filter(restarts, Recent(now))
  {
    kept := [];
    for i := 0 to |restarts|
      invariant kept == Filter(restarts[..i], Recent(now))
    {
      if now - restarts[i] < Window {
        kept := kept + [restarts[i]];
      }
      assert restarts[..i + 1] == restarts[..i] + [restarts[i]];
      FilterAppend(restarts[..i], restarts[i], Recent(now));
    }
    assert restarts[..|restarts|] == restarts;
  }

  /** supervise: prunes its list at each restart, and still decides what the rule on the whole
      history decides. */
  method Supervise(stopped: bool, runs: seq<ChildRun>) returns (verdict: Verdict, launches: nat)
    requires ClockOk(runs)
    ensures stopped ==> verdict == Exited(0) && launches == 0
    ensures !stopped ==> Ends(runs, launches, verdict)
  {
    if stopped {
      return Exited(0), 0;
    }
    verdict, launches := LaunchLoop(runs);
    ObserveEnds(runs);
  }

  method LaunchLoop(runs: seq<ChildRun>) returns (verdict: Verdict, launches: nat)
    requires ClockOk(runs)
    ensures verdict == Observe([], runs).verdict && launches == Observe([], runs).exits
  {
    launches := 0;
    var restarts := [];
    ghost var history := [];
    while launches < |runs|
      invariant launches <= |runs|
      invariant var later := Observe(history, runs[launches..]);
        Observe([], runs) == later.(exits := launches + later.exits)
      invariant PrunedTo(restarts, history, runs[launches..])
    {
      var run := runs[launches];
      ghost var rest := runs[launches..];
      assert rest[0] == run && rest[1..] == runs[launches + 1..];
      launches := launches + 1;
      if run.signal.Some? {
        return Exited(if run.status == 0 then 0 else 128 + run.signal.value), launches;
      }
      if run.status != RestartStatus {
        return Exited(if run.status >= 0 then run.status else 128 - run.status), launches;
      }
      restarts := Prune(restarts, run.at);
      assert restarts == Filter(history, Recent(run.at));
      ghost var pruned := restarts;
      restarts := restarts + [run.at];
      if |restarts| > MaxRestarts {
        return TooManyRestarts, launches;
      }
      KeepsPruned(pruned, history, run.at, rest[1..]);
      history := history + [run.at];
      if run.stopAfter {
        return Exited(0), launches;
      }
    }
    assert runs[launches..] == [];
    verdict := Watching;
  }

  /** The pruned list is as good as the history for every later exit. */
  ghost predicate PrunedTo(restarts: seq<real>, history: seq<real>, runs: seq<ChildRun>) {
    forall i :: 0 <= i < |runs| ==>
      Filter(restarts, Recent(runs[i].at)) == Filter(history, Recent(runs[i].at))
  }

  lemma KeepsPruned(pruned: seq<real>, history: seq<real>, now: real, later: seq<ChildRun>)
    requires pruned == Filter(history, Recent(now))
    requires forall i :: 0 <= i < |later| ==> now <= later[i].at
    ensures PrunedTo(pruned + [now], history + [now], later)
  {
    forall i | 0 <= i < |later|
      ensures Filter(pruned + [now], Recent(later[i].at)) == Filter(history + [now], Recent(later[i].at))
    {
      FilterTwice(history, Recent(now), Recent(later[i].at));
      FilterAppend(pruned, now, Recent(later[i].at));
      FilterAppend(history, now, Recent(later[i].at));
    }
  }

  // ----- at most five relaunches in any minute

  function InMinute(from: real): real -> bool {
    (t: real) => from <= t < from + 60.0
  }

  ghost predicate EachGranted(history: seq<real>) {
    forall i :: 0 <= i < |history| ==> |Filter(history[..i], Recent(history[i]))| < MaxRestarts
  }

  lemma {:induction false} ObserveGrants(history: seq<real>, runs: seq<ChildRun>)
    requires EachGranted(history)
    ensures EachGranted(Observe(history, runs).history)
    decreases runs
  {
    if runs != [] {
      var run := runs[0];
      var longer := history + [run.at];
      if |Filter(history, Recent(run.at))| < MaxRestarts {
        forall i | 0 <= i < |longer|
          ensures |Filter(longer[..i], Recent(longer[i]))| < MaxRestarts
        {
          if i < |history| {
            assert longer[..i] == history[..i];
          } else {
            assert longer[..i] == history;
          }
        }
        ObserveGrants(longer, runs[1..]);
      }
    }
  }

  lemma {:induction false} GrantedAreSparse(history: seq<real>, from: real)
    requires EachGranted(history)
    ensures |Filter(history, InMinute(from))| <= MaxRestarts
  {
    if history != [] {
      var n := |history| - 1;
      var before := history[..n];
      forall i | 0 <= i < |before|
        ensures |Filter(before[..i], Recent(before[i]))| < MaxRestarts
      {
        assert before[..i] == history[..i];
      }
      GrantedAreSparse(before, from);
      if InMinute(from)(history[n]) {
        FilterFewer(before, InMinute(from), Recent(history[n]));
      }
    }
  }

  /** In every run no half-open minute, wherever it starts, holds more than five relaunches. */
  lemma {:induction false} NoBurst(runs: seq<ChildRun>, from: real)
    ensures |Filter(Observe([], runs).history, InMinute(from))| <= 5
  {
    ObserveGrants([], runs);
    GrantedAreSparse(Observe([], runs).history, from);
  }

  ghost predicate Refused(history: seq<real>, run: ChildRun) {
    && run.status == RestartStatus && run.signal.None?
    && |Filter(history, Recent(run.at))| >= MaxRestarts
  }

  /** Every child seen to exit but the last was granted its restart. */
  lemma {:induction false} GrantsAndExits(history: seq<real>, runs: seq<ChildRun>)
    ensures var w := Observe(history, runs);
      && w.exits - 1 <= |w.history| - |history| <= w.exits
      && (w.verdict.Watching? ==> w.exits == |runs| == |w.history| - |history|)
      && (w.verdict.TooManyRestarts? ==> |w.history| - |history| == w.exits - 1)
    decreases runs
  {
    if runs != [] {
      GrantsAndExits(history + [runs[0].at], runs[1..]);
    }
  }

  /** Giving up is never premature: it happens at the last exit seen, every exit before it was
      granted, and five of those grants lie within the minute that ends with it. */
  lemma {:induction false} GivesUpAtLast(history: seq<real>, runs: seq<ChildRun>)
    requires Observe(history, runs).verdict == TooManyRestarts
    ensures var w := Observe(history, runs);
      && 0 < w.exits <= |runs|
      && w.history == history + ExitTimes(runs[..w.exits - 1])
      && Refused(w.history, runs[w.exits - 1])
    decreases runs
  {
    var run := runs[0];
    if |Filter(history, Recent(run.at))| < MaxRestarts {
      var longer, rest := history + [run.at], runs[1..];
      GivesUpAtLast(longer, rest);
      TimesStep(history, runs, Observe(longer, rest).exits);
    } else {
      assert ExitTimes(runs[..0]) == [];
    }
  }

  lemma TimesStep(history: seq<real>, runs: seq<ChildRun>, k: nat)
    requires 0 < k < |runs|
    ensures history + ExitTimes(runs[..k]) == history + [runs[0].at] + ExitTimes(runs[1..][..k - 1])
    ensures runs[k] == runs[1..][k - 1]
  {
    assert ExitTimes(runs[..k]) == [runs[0].at] + ExitTimes(runs[1..][..k - 1]);
  }

  lemma GivesUpOnlyOnBurst(runs: seq<ChildRun>)
    requires ClockOk(runs) && Observe([], runs).verdict == TooManyRestarts
    ensures var w := Observe([], runs);
      && 0 < w.exits <= |runs|
      && var last := runs[w.exits - 1];
         && last.status == RestartStatus && last.signal.None?
         && w.history == ExitTimes(runs[..w.exits - 1])
         && (forall i :: 0 <= i < |w.history| ==> w.history[i] <= last.at)
         && InLastMinute(w.history, last.at) >= 5
  {
    GivesUpAtLast([], runs);
    RecentCount(Observe([], runs).history, runs[Observe([], runs).exits - 1].at);
  }
}
