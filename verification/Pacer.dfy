/** The pacer: call slots for a live model, at least an interval apart whatever order callers
    arrive in. Times are integers in nanoseconds. */
module Pacer {

  const Minute := 60_000_000_000

  predicate RpmOk(rpm: int) {
    1 <= rpm <= 6000
  }

  function Interval(rpm: int): (r: int)
    requires RpmOk(rpm)
    ensures r * rpm <= 60_000_000_000 < (r + 1) * rpm && r >= 10_000_000
  {
    Minute / rpm
  }

  class Pacer {
    const interval: int
    var next: int

    constructor (rpm: int, zero: int)
      requires RpmOk(rpm)
      ensures interval == Interval(rpm) && next == zero
    {
      interval := Interval(rpm);
      next := zero;
    }

    /** wait's critical section: the slot the caller then sleeps until. */
    method Wait(now: int) returns (slot: int)
      modifies this
      ensures slot == Slot(old(next), now) && next == slot + interval
      ensures slot >= now && slot >= old(next) && (slot == now || slot == old(next))
    {
      slot := next;
      if slot < now {
        slot := now;
      }
      next := slot + interval;
    }
  }

  function Slot(next: int, now: int): int {
    if next < now then now else next
  }

  /** The slots granted to callers that read the clock at `nows`, in the order they held the lock.
      Clock readings may come in any order. */
  function Slots(next: int, interval: int, nows: seq<int>): (r: seq<int>)
    ensures |r| == |nows|
    decreases nows
  {
    if nows == [] then []
    else
      var slot := Slot(next, nows[0]);
      [slot] + Slots(slot + interval, interval, nows[1..])
  }

  /** A schedule the pacer's promise allows: nobody before they asked, an interval between any
      two in turn, nobody before `next`. */
  ghost predicate Allowed(next: int, interval: int, nows: seq<int>, times: seq<int>) {
    && |times| == |nows|
    && (forall i :: 0 <= i < |times| ==> nows[i] <= times[i])
    && (forall i :: 0 < i < |times| ==> times[i - 1] + interval <= times[i])
    && (times != [] ==> next <= times[0])
  }

  /** The pacer's schedule is allowed, and no allowed schedule lets any caller go earlier. */
  lemma {:induction false} EarliestSchedule(next: int, interval: int, nows: seq<int>, times: seq<int>)
    requires Allowed(next, interval, nows, times)
    ensures Allowed(next, interval, nows, Slots(next, interval, nows))
    ensures forall i :: 0 <= i < |nows| ==> Slots(next, interval, nows)[i] <= times[i]
    decreases nows
  {
    SlotsAllowed(next, interval, nows);
    if nows != [] {
      var slot := Slot(next, nows[0]);
      assert slot <= times[0];
      assert forall i :: 0 < i < |times| - 1 ==> times[1..][i - 1] + interval <= times[1..][i];
      EarliestSchedule(slot + interval, interval, nows[1..], times[1..]);
    }
  }

  lemma {:induction false} SlotsAllowed(next: int, interval: int, nows: seq<int>)
    ensures Allowed(next, interval, nows, Slots(next, interval, nows))
    decreases nows
  {
    if nows != [] {
      var slot := Slot(next, nows[0]);
      SlotsAllowed(slot + interval, interval, nows[1..]);
      OneMoreSlot(next, interval, nows, slot, Slots(slot + interval, interval, nows[1..]));
    }
  }

  lemma OneMoreSlot(next: int, interval: int, nows: seq<int>, slot: int, rest: seq<int>)
    requires nows != [] && next <= slot && nows[0] <= slot
    requires Allowed(slot + interval, interval, nows[1..], rest)
    ensures Allowed(next, interval, nows, [slot] + rest)
  {
    var all := [slot] + rest;
    forall i | 0 <= i < |all|
      ensures nows[i] <= all[i]
    {
      if i > 0 {
        assert nows[1..][i - 1] <= rest[i - 1];
      }
    }
    forall i | 0 < i < |all|
      ensures all[i - 1] + interval <= all[i]
    {
      if i > 1 {
        assert rest[i - 2] + interval <= rest[i - 1];
      }
    }
  }

  ghost predicate Spaced(times: seq<int>, interval: int) {
    forall i, j :: 0 <= i < j < |times| ==> times[i] + interval <= times[j]
  }

  lemma {:induction false} SlotsSpaced(next: int, interval: int, nows: seq<int>)
    requires interval >= 0
    ensures Spaced(Slots(next, interval, nows), interval)
    ensures forall i :: 0 <= i < |nows| ==> next <= Slots(next, interval, nows)[i]
    decreases nows
  {
    if nows != [] {
      SlotsSpaced(Slot(next, nows[0]) + interval, interval, nows[1..]);
    }
  }

  /** How many of the times fall in the half-open window [low, high). */
  function CountIn(times: seq<int>, low: int, high: int): nat {
    if times == [] then 0
    else
      CountIn(times[..|times| - 1], low, high)
      + if low <= times[|times| - 1] < high then 1 else 0
  }

  lemma {:induction false} SpacedCount(times: seq<int>, interval: int, low: int, high: int)
    requires Spaced(times, interval) && interval > 0
    ensures CountIn(times, low, high) > 0 ==>
      && low + (CountIn(times, low, high) - 1) * interval < high
      && low + (CountIn(times, low, high) - 1) * interval <= times[|times| - 1]
  {
    if times != [] {
      var n := |times| - 1;
      SpacedCount(times[..n], interval, low, high);
      var before := CountIn(times[..n], low, high);
      if before > 0 && low <= times[n] < high {
        assert times[n - 1] + interval <= times[n];
        assert (before - 1) * interval + interval == before * interval;
      }
    }
  }

  lemma CountBound(k: int, interval: int, rpm: int, span: int)
    requires interval > 0 && k >= rpm && interval * rpm >= span
    ensures k * interval >= span
  {
    assert k * interval >= rpm * interval;
  }

  /** Whatever the callers' clock readings, any half-open minute holds at most rpm + 1 slots, and at
      most rpm when rpm divides the minute. */
  lemma {:induction false} MinuteBound(rpm: int, next: int, nows: seq<int>, low: int)
    requires RpmOk(rpm)
    ensures var slots := Slots(next, Interval(rpm), nows);
      && CountIn(slots, low, low + 60_000_000_000) <= rpm + 1
      && (60_000_000_000 % rpm == 0 ==> CountIn(slots, low, low + 60_000_000_000) <= rpm)
  {
    var interval := Interval(rpm);
    var slots := Slots(next, interval, nows);
    SlotsSpaced(next, interval, nows);
    SpacedCount(slots, interval, low, low + Minute);
    var count := CountIn(slots, low, low + Minute);
    WithinRate(rpm, interval, count);
  }

  lemma WithinRate(rpm: int, interval: int, count: nat)
    requires RpmOk(rpm) && interval == Interval(rpm) && (count > 0 ==> (count - 1) * interval < Minute)
    ensures count <= rpm + 1 && (Minute % rpm == 0 ==> count <= rpm)
  {
    if count > rpm + 1 {
      assert interval * (rpm + 1) == interval * rpm + interval;
      CountBound(count - 1, interval, rpm + 1, Minute);
    }
    if Minute % rpm == 0 && count > rpm {
      CountBound(count - 1, interval, rpm, Minute);
    }
  }

  /** rpm + 1 callers arriving together are granted slots 0, i, 2i, ... */
  lemma {:induction false} BurstSlots(next: int, interval: int, n: nat, high: int)
    requires interval > 0 && next >= 0 && (n > 0 ==> next + (n - 1) * interval < high)
    ensures CountIn(Slots(next, interval, seq(n, i => 0)), 0, high) == n
    decreases n
  {
    if n > 0 {
      var nows := seq(n, i => 0);
      assert nows[1..] == seq(n - 1, i => 0);
      var rest := Slots(next + interval, interval, nows[1..]);
      assert next + interval + (n - 2) * interval == next + (n - 1) * interval;
      BurstSlots(next + interval, interval, n - 1, high);
      assert n > 1 ==> (n - 1) * interval >= 0;
      CountFirst(next, rest, 0, high);
    }
  }

  lemma {:induction false} CountFirst(x: int, times: seq<int>, low: int, high: int)
    ensures CountIn([x] + times, low, high) == CountIn(times, low, high) + if low <= x < high then 1 else 0
  {
    if times == [] {
      assert [x] + times == [x];
    } else {
      var n := |times| - 1;
      CountFirst(x, times[..n], low, high);
      assert ([x] + times)[..n + 1] == [x] + times[..n];
    }
  }

  /** Slots a run grants in the minute that starts at `low`. */
  function GrantedInMinute(rpm: int, next: int, nows: seq<int>, low: int): nat
    requires RpmOk(rpm)
  {
    CountIn(Slots(next, Interval(rpm), nows), low, low + 60_000_000_000)
  }

  /** The configured rate is a true bound on every minute of every run exactly when it divides the
      minute; otherwise the rounded-down interval leaves room for one more. */
  lemma RateIsExact(rpm: int)
    requires RpmOk(rpm)
    ensures (forall next: int, nows: seq<int>, low: int :: GrantedInMinute(rpm, next, nows, low) <= rpm)
      <==> 60_000_000_000 % rpm == 0
  {
    if Minute % rpm == 0 {
      forall next: int, nows: seq<int>, low: int
        ensures GrantedInMinute(rpm, next, nows, low) <= rpm
      {
        MinuteBound(rpm, next, nows, low);
      }
    } else {
      BurstOverruns(rpm);
    }
  }

  lemma BurstOverruns(rpm: int)
    requires RpmOk(rpm) && Minute % rpm != 0
    ensures GrantedInMinute(rpm, 0, seq(rpm + 1, i => 0), 0) == rpm + 1
  {
    assert rpm * Interval(rpm) != Minute;
    BurstSlots(0, Interval(rpm), rpm + 1, 0 + Minute);
  }

  /** Seven calls a minute is such a rate. */
  lemma SevenPerMinute()
    ensures RpmOk(7) && GrantedInMinute(7, 0, seq(8, i => 0), 0) == 8
  {
    BurstOverruns(7);
  }
}
