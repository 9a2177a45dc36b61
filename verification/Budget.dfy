/** The live-model budget: calls reserve an estimate, settle their usage, and the first call past a
    cap closes the budget for good. */
module Budget {
  import opened Names
  import opened Sums

  /** Hard caps; prices are US dollars per million tokens. Time is in nanoseconds. */
  datatype Caps = Caps(
    maxRequests: int, maxTokens: int, maxWall: int, maxSpend: real, inputPrice: real, outputPrice: real)

  predicate CapsOk(c: Caps) {
    c.maxRequests >= 0 && c.maxTokens >= 0 && c.maxSpend >= 0.0 && c.inputPrice >= 0.0 && c.outputPrice >= 0.0
  }

  function Cost(c: Caps, prompt: int, output: int): (r: real)
    ensures 1000000.0 * r == prompt as real * c.inputPrice + output as real * c.outputPrice
  {
    (prompt as real * c.inputPrice + output as real * c.outputPrice) / 1000000.0
  }

  datatype Reason = WallTime | Requests | Tokens | Spend

  datatype Reservation = Reservation(tokens: int, spend: real)

  /** One call's usage as the provider reported it. */
  datatype Usage = Usage(prompt: int, completion: int, reasoning: int)

  const NoUsage := Usage(0, 0, 0)

  function Total(u: Usage): int {
    u.prompt + u.completion + u.reasoning
  }

  datatype Books = Books(
    requests: int, tokens: int, reservedTokens: int, spend: real, reservedSpend: real,
    exhausted: Option<Reason>)

  const NewBooks := Books(0, 0, 0, 0.0, 0.0, None)

  /** A token for every four bytes of the prompt, rounded up, and the whole completion cap. */
  function Estimate(c: Caps, promptBytes: nat, maxOutput: int): (r: Reservation)
    ensures promptBytes <= 4 * (r.tokens - maxOutput) < promptBytes + 4
    ensures 1000000.0 * r.spend == (r.tokens - maxOutput) as real * c.inputPrice + maxOutput as real * c.outputPrice
  {
    var prompt := (promptBytes + 3) / 4;
    Reservation(prompt + maxOutput, Cost(c, prompt, maxOutput))
  }

  /** The cap a call would pass, in the order they are checked. */
  function Refusal(c: Caps, b: Books, r: Reservation, elapsed: int): Option<Reason> {
    if b.exhausted.Some? then b.exhausted
    else if elapsed >= c.maxWall then Some(WallTime)
    else if b.requests + 1 > c.maxRequests then Some(Requests)
    else if b.tokens + b.reservedTokens + r.tokens > c.maxTokens then Some(Tokens)
    else if b.spend + b.reservedSpend + r.spend > c.maxSpend then Some(Spend)
    else None
  }

  /** Why books refuse a call: an exhausted budget for its old reason, an open one for the first cap
      the call would pass, and only then. */
  predicate RefusedFor(c: Caps, b: Books, promptBytes: nat, maxOutput: int, elapsed: int, why: Option<Reason>) {
    var wall, requests := elapsed >= c.maxWall, b.requests + 1 > c.maxRequests;
    var used := b.tokens + b.reservedTokens + (promptBytes + 3) / 4 + maxOutput > c.maxTokens;
    var spent :=
      1000000.0 * (b.spend + b.reservedSpend)
      + ((promptBytes + 3) / 4) as real * c.inputPrice + maxOutput as real * c.outputPrice > 1000000.0 * c.maxSpend;
    && (b.exhausted.Some? ==> why == b.exhausted)
    && (b.exhausted.None? ==>
          && (why == Some(WallTime) <==> wall)
          && (why == Some(Requests) <==> !wall && requests)
          && (why == Some(Tokens) <==> !wall && !requests && used)
          && (why == Some(Spend) <==> !wall && !requests && !used && spent)
          && (why == None <==> !wall && !requests && !used && !spent))
  }

  lemma RefusalIs(c: Caps, b: Books, promptBytes: nat, maxOutput: int, elapsed: int, why: Option<Reason>)
    ensures why == Refusal(c, b, Estimate(c, promptBytes, maxOutput), elapsed)
      <==> RefusedFor(c, b, promptBytes, maxOutput, elapsed, why)
  {
    assert Estimate(c, promptBytes, maxOutput).tokens == (promptBytes + 3) / 4 + maxOutput;
  }

  function Admitted(c: Caps, b: Books, r: Reservation, elapsed: int): Books {
    var refusal := Refusal(c, b, r, elapsed);
    if refusal.Some? then b.(exhausted := refusal)
    else b.(requests := b.requests + 1, reservedTokens := b.reservedTokens + r.tokens,
            reservedSpend := b.reservedSpend + r.spend)
  }

  /** What a settled call is charged: its usage, or its estimate when it succeeded and reported
      nothing. */
  function ChargedTokens(r: Reservation, status: int, u: Usage): int {
    if Total(u) == 0 && status < 300 then r.tokens else Total(u)
  }

  function ChargedSpend(c: Caps, r: Reservation, status: int, u: Usage): real {
    if Total(u) == 0 && status < 300 then r.spend else Cost(c, u.prompt, u.completion + u.reasoning)
  }

  function Settled(c: Caps, b: Books, r: Reservation, status: int, u: Usage): Books {
    var tokens := b.tokens + ChargedTokens(r, status, u);
    var spend := b.spend + ChargedSpend(c, r, status, u);
    Books(b.requests, tokens, b.reservedTokens - r.tokens, spend, b.reservedSpend - r.spend,
          if b.exhausted.Some? then b.exhausted
          else if tokens > c.maxTokens then Some(Tokens)
          else if spend > c.maxSpend then Some(Spend)
          else None)
  }

  predicate EstimateIs(c: Caps, r: Reservation, promptBytes: nat, maxOutput: int) {
    && r.tokens == (promptBytes + 3) / 4 + maxOutput
    && 1000000.0 * r.spend == ((promptBytes + 3) / 4) as real * c.inputPrice + maxOutput as real * c.outputPrice
  }

  /** An admission: refused, with the reason kept, or one request more and a reservation of a token for
      every four bytes and the whole completion cap, at the prices of the two. */
  predicate AdmittedAs(
    c: Caps, b: Books, after: Books, promptBytes: nat, maxOutput: int, elapsed: int, r: Option<Reservation>)
  {
    && (r.None? ==>
          && after.exhausted.Some? && RefusedFor(c, b, promptBytes, maxOutput, elapsed, after.exhausted)
          && after.requests == b.requests && after.tokens == b.tokens && after.reservedTokens == b.reservedTokens
          && after.spend == b.spend && after.reservedSpend == b.reservedSpend)
    && (r.Some? ==>
          && RefusedFor(c, b, promptBytes, maxOutput, elapsed, None)
          && EstimateIs(c, r.value, promptBytes, maxOutput)
          && after.requests == b.requests + 1 && after.tokens == b.tokens && after.spend == b.spend
          && after.reservedTokens == b.reservedTokens + r.value.tokens
          && after.reservedSpend == b.reservedSpend + r.value.spend && after.exhausted == None)
  }

  lemma AdmitsSo(c: Caps, b: Books, promptBytes: nat, maxOutput: int, elapsed: int)
    ensures var est := Estimate(c, promptBytes, maxOutput);
      AdmittedAs(c, b, Admitted(c, b, est, elapsed), promptBytes, maxOutput, elapsed,
                 if Refusal(c, b, est, elapsed).Some? then None else Some(est))
  {
    RefusalIs(c, b, promptBytes, maxOutput, elapsed, Refusal(c, b, Estimate(c, promptBytes, maxOutput), elapsed));
    assert Estimate(c, promptBytes, maxOutput).tokens == (promptBytes + 3) / 4 + maxOutput;
  }

  /** Settling a call: its reservation goes, its usage is charged (its estimate if it succeeded and
      reported nothing), and charges past a cap exhaust the budget. */
  predicate SettledAs(c: Caps, b: Books, after: Books, r: Reservation, status: int, u: Usage) {
    var silent := u.prompt + u.completion + u.reasoning == 0 && status < 300;
    && after.requests == b.requests
    && after.reservedTokens == b.reservedTokens - r.tokens && after.reservedSpend == b.reservedSpend - r.spend
    && (silent ==> after.tokens == b.tokens + r.tokens && after.spend == b.spend + r.spend)
    && (!silent ==>
          && after.tokens == b.tokens + u.prompt + u.completion + u.reasoning
          && 1000000.0 * (after.spend - b.spend)
             == u.prompt as real * c.inputPrice + (u.completion + u.reasoning) as real * c.outputPrice)
    && (b.exhausted.Some? ==> after.exhausted == b.exhausted)
    && (b.exhausted.None? ==>
          && (after.exhausted == Some(Tokens) <==> after.tokens > c.maxTokens)
          && (after.exhausted == Some(Spend) <==> after.tokens <= c.maxTokens && after.spend > c.maxSpend)
          && (after.exhausted == None <==> after.tokens <= c.maxTokens && after.spend <= c.maxSpend))
  }

  lemma SettlesSo(c: Caps, b: Books, r: Reservation, status: int, u: Usage)
    ensures SettledAs(c, b, Settled(c, b, r, status, u), r, status, u)
  {
  }

  // ----- the accountant, updated under its mutex

  class Accountant {
    const caps: Caps
    var requests: int
    var tokens: int
    var reservedTokens: int
    var spend: real
    var reservedSpend: real
    var exhausted: Option<Reason>

    function State(): Books
      reads this
    {
      Books(requests, tokens, reservedTokens, spend, reservedSpend, exhausted)
    }

    constructor (caps: Caps)
      ensures this.caps == caps && State() == NewBooks
    {
      this.caps := caps;
      requests, tokens, reservedTokens, spend, reservedSpend, exhausted := 0, 0, 0, 0.0, 0.0, None;
    }

    method Admit(promptBytes: nat, maxOutput: int, elapsed: int) returns (r: Option<Reservation>)
      modifies this
      ensures State() == Admitted(caps, old(State()), Estimate(caps, promptBytes, maxOutput), elapsed)
      ensures r == if Refusal(caps, old(State()), Estimate(caps, promptBytes, maxOutput), elapsed).Some?
                   then None else Some(Estimate(caps, promptBytes, maxOutput))
      ensures AdmittedAs(caps, old(State()), State(), promptBytes, maxOutput, elapsed, r)
    {
      AdmitsSo(caps, State(), promptBytes, maxOutput, elapsed);
      if exhausted.Some? {
        return None;
      }
      var estPrompt := (promptBytes + 3) / 4;
      var est := estPrompt + maxOutput;
      var cost := Cost(caps, estPrompt, maxOutput);
      if elapsed >= caps.maxWall {
        exhausted := Some(WallTime);
      } else if requests + 1 > caps.maxRequests {
        exhausted := Some(Requests);
      } else if tokens + reservedTokens + est > caps.maxTokens {
        exhausted := Some(Tokens);
      } else if spend + reservedSpend + cost > caps.maxSpend {
        exhausted := Some(Spend);
      } else {
        requests := requests + 1;
        reservedTokens := reservedTokens + est;
        reservedSpend := reservedSpend + cost;
        return Some(Reservation(est, cost));
      }
      return None;
    }

    method Settle(r: Reservation, status: int, u: Usage)
      modifies this
      ensures State() == Settled(caps, old(State()), r, status, u)
      ensures SettledAs(caps, old(State()), State(), r, status, u)
    {
      SettlesSo(caps, State(), r, status, u);
      reservedTokens := reservedTokens - r.tokens;
      reservedSpend := reservedSpend - r.spend;
      var output := u.completion + u.reasoning;
      var used, cost := u.prompt + output, Cost(caps, u.prompt, output);
      if used == 0 && status < 300 {
        used, cost := r.tokens, r.spend;
      }
      tokens := tokens + used;
      spend := spend + cost;
      if exhausted.None? {
        if tokens > caps.maxTokens {
          exhausted := Some(Tokens);
        } else if spend > caps.maxSpend {
          exhausted := Some(Spend);
        }
      }
    }
  }

  // ----- the ledger of all calls, one ticket each

  datatype Ticket =
    | Unissued
    | Open(res: Reservation)
    | Closed(res: Reservation, used: int, cost: real)

  function IsIssued(t: Ticket): int { if t.Unissued? then 0 else 1 }
  function OpenTokens(t: Ticket): int { if t.Open? then t.res.tokens else 0 }
  function OpenSpend(t: Ticket): real { if t.Open? then t.res.spend else 0.0 }
  function UsedTokens(t: Ticket): int { if t.Closed? then t.used else 0 }
  function UsedSpend(t: Ticket): real { if t.Closed? then t.cost else 0.0 }

  /** How far a call's charge went past its estimate. */
  function TokensOver(t: Ticket): int {
    if t.Closed? && t.used > t.res.tokens then t.used - t.res.tokens else 0
  }

  function SpendOver(t: Ticket): real {
    if t.Closed? && t.cost > t.res.spend then t.cost - t.res.spend else 0.0
  }

  /** Every counter of the books is the ledger's sum: reservations of the calls in flight, charges
      of the calls that ended, one request for each call that was let out. */
  ghost predicate Balanced(b: Books, ledger: seq<Ticket>) {
    && b.requests == SumBy(ledger, IsIssued)
    && b.reservedTokens == SumBy(ledger, OpenTokens)
    && b.tokens == SumBy(ledger, UsedTokens)
    && b.reservedSpend == RealSumBy(ledger, OpenSpend)
    && b.spend == RealSumBy(ledger, UsedSpend)
  }

  /** The caps hold up to what providers charged past their estimates. */
  ghost predicate Capped(c: Caps, b: Books, ledger: seq<Ticket>) {
    && b.requests <= c.maxRequests
    && b.tokens + b.reservedTokens <= c.maxTokens + SumBy(ledger, TokensOver)
    && b.spend + b.reservedSpend <= c.maxSpend + RealSumBy(ledger, SpendOver)
    && (b.exhausted.None? ==> b.tokens <= c.maxTokens && b.spend <= c.maxSpend)
  }

  lemma LedgerUpdate(ledger: seq<Ticket>, i: nat, t: Ticket)
    requires i < |ledger|
    ensures var l := ledger[i := t];
      && SumBy(l, IsIssued) == SumBy(ledger, IsIssued) - IsIssued(ledger[i]) + IsIssued(t)
      && SumBy(l, OpenTokens) == SumBy(ledger, OpenTokens) - OpenTokens(ledger[i]) + OpenTokens(t)
      && SumBy(l, UsedTokens) == SumBy(ledger, UsedTokens) - UsedTokens(ledger[i]) + UsedTokens(t)
      && SumBy(l, TokensOver) == SumBy(ledger, TokensOver) - TokensOver(ledger[i]) + TokensOver(t)
      && RealSumBy(l, OpenSpend) == RealSumBy(ledger, OpenSpend) - OpenSpend(ledger[i]) + OpenSpend(t)
      && RealSumBy(l, UsedSpend) == RealSumBy(ledger, UsedSpend) - UsedSpend(ledger[i]) + UsedSpend(t)
      && RealSumBy(l, SpendOver) == RealSumBy(ledger, SpendOver) - SpendOver(ledger[i]) + SpendOver(t)
  {
    SumUpdate(ledger, i, t, IsIssued);
    SumUpdate(ledger, i, t, OpenTokens);
    SumUpdate(ledger, i, t, UsedTokens);
    SumUpdate(ledger, i, t, TokensOver);
    RealSumUpdate(ledger, i, t, OpenSpend);
    RealSumUpdate(ledger, i, t, UsedSpend);
    RealSumUpdate(ledger, i, t, SpendOver);
  }

  datatype System = System(books: Books, ledger: seq<Ticket>)

  function AdmitCall(c: Caps, s: System, i: nat, r: Reservation, elapsed: int): System
    requires i < |s.ledger| && s.ledger[i].Unissued?
  {
    System(Admitted(c, s.books, r, elapsed),
           if Refusal(c, s.books, r, elapsed).Some? then s.ledger else s.ledger[i := Open(r)])
  }

  function SettleCall(c: Caps, s: System, i: nat, status: int, u: Usage): System
    requires i < |s.ledger| && s.ledger[i].Open?
  {
    var r := s.ledger[i].res;
    System(Settled(c, s.books, r, status, u),
           s.ledger[i := Closed(r, ChargedTokens(r, status, u), ChargedSpend(c, r, status, u))])
  }

  lemma AdmitKeepsBooks(c: Caps, s: System, i: nat, r: Reservation, elapsed: int)
    requires i < |s.ledger| && s.ledger[i].Unissued?
    requires Balanced(s.books, s.ledger) && Capped(c, s.books, s.ledger)
    ensures var t := AdmitCall(c, s, i, r, elapsed);
      Balanced(t.books, t.ledger) && Capped(c, t.books, t.ledger)
  {
    LedgerUpdate(s.ledger, i, Open(r));
    OverNonnegative(s.ledger);
  }

  lemma OverNonnegative(ledger: seq<Ticket>)
    ensures SumBy(ledger, TokensOver) >= 0 && RealSumBy(ledger, SpendOver) >= 0.0
  {
    if ledger != [] {
      OverNonnegative(ledger[..|ledger| - 1]);
    }
  }

  lemma SettleKeepsBooks(c: Caps, s: System, i: nat, status: int, u: Usage)
    requires i < |s.ledger| && s.ledger[i].Open?
    requires Balanced(s.books, s.ledger) && Capped(c, s.books, s.ledger)
    ensures var t := SettleCall(c, s, i, status, u);
      Balanced(t.books, t.ledger) && Capped(c, t.books, t.ledger)
  {
    var r := s.ledger[i].res;
    LedgerUpdate(s.ledger, i, Closed(r, ChargedTokens(r, status, u), ChargedSpend(c, r, status, u)));
  }

  // ----- every interleaving

  datatype Event =
    | Ask(call: nat, promptBytes: nat, maxOutput: int, elapsed: int)
    | Finish(call: nat, status: int, usage: Usage)

  /** One critical section. A call asks once while it has no ticket and finishes once while its
      ticket is open; anything else is not a step. */
  function Next(c: Caps, s: System, e: Event): System {
    if e.call >= |s.ledger| then s
    else match e
      case Ask(i, bytes, maxOutput, elapsed) =>
        if s.ledger[i].Unissued? then AdmitCall(c, s, i, Estimate(c, bytes, maxOutput), elapsed) else s
      case Finish(i, status, usage) =>
        if s.ledger[i].Open? then SettleCall(c, s, i, status, usage) else s
  }

  function Run(c: Caps, s: System, events: seq<Event>): System
    decreases events
  {
    if events == [] then s else Run(c, Next(c, s, events[0]), events[1..])
  }

  function Fresh(n: nat): System {
    System(NewBooks, seq(n, i => Unissued))
  }

  lemma {:induction false} RunKeepsBooks(c: Caps, s: System, events: seq<Event>)
    requires Balanced(s.books, s.ledger) && Capped(c, s.books, s.ledger)
    ensures var t := Run(c, s, events);
      Balanced(t.books, t.ledger) && Capped(c, t.books, t.ledger)
    decreases events
  {
    if events != [] {
      match events[0] {
        case Ask(i, bytes, maxOutput, elapsed) =>
          if i < |s.ledger| && s.ledger[i].Unissued? {
            AdmitKeepsBooks(c, s, i, Estimate(c, bytes, maxOutput), elapsed);
          }
        case Finish(i, status, usage) =>
          if i < |s.ledger| && s.ledger[i].Open? {
            SettleKeepsBooks(c, s, i, status, usage);
          }
      }
      RunKeepsBooks(c, Next(c, s, events[0]), events[1..]);
    }
  }

  lemma {:induction false} FreshBalanced(c: Caps, ledger: seq<Ticket>)
    requires CapsOk(c) && forall i :: 0 <= i < |ledger| ==> ledger[i].Unissued?
    ensures Balanced(NewBooks, ledger) && Capped(c, NewBooks, ledger)
  {
    if ledger != [] {
      FreshBalanced(c, ledger[..|ledger| - 1]);
    }
  }

  /** Over every interleaving of any number of calls, from the start: the books balance, requests
      never pass their cap, tokens and spend pass theirs by no more than the overshoot of settled
      calls over their estimates, and while the budget is not exhausted what was used is within
      both caps. */
  lemma BudgetHolds(c: Caps, n: nat, events: seq<Event>)
    requires CapsOk(c)
    ensures var t := Run(c, Fresh(n), events);
      Balanced(t.books, t.ledger) && Capped(c, t.books, t.ledger)
  {
    FreshBalanced(c, Fresh(n).ledger);
    RunKeepsBooks(c, Fresh(n), events);
  }

  /** After the first refusal nothing is admitted: no later event issues a ticket. */
  lemma {:induction false} ExhaustedForGood(c: Caps, s: System, events: seq<Event>)
    requires s.books.exhausted.Some?
    ensures var t := Run(c, s, events);
      && t.books.exhausted == s.books.exhausted
      && t.books.requests == s.books.requests
      && |t.ledger| == |s.ledger|
      && forall i :: 0 <= i < |s.ledger| ==> (t.ledger[i].Unissued? <==> s.ledger[i].Unissued?)
    decreases events
  {
    if events != [] {
      ExhaustedForGood(c, Next(c, s, events[0]), events[1..]);
    }
  }

  lemma RefusalExhausts(c: Caps, s: System, i: nat, r: Reservation, elapsed: int)
    requires i < |s.ledger| && s.ledger[i].Unissued?
    ensures AdmitCall(c, s, i, r, elapsed).ledger[i].Unissued? <==>
      AdmitCall(c, s, i, r, elapsed).books.exhausted.Some?
  {
  }

  /** A call asks while the budget is open and no cap stands in its way. */
  predicate Fits(c: Caps, b: Books, e: Event)
    requires e.Ask?
  {
    && b.exhausted.None? && e.elapsed < c.maxWall && b.requests + 1 <= c.maxRequests
    && b.tokens + b.reservedTokens + (e.promptBytes + 3) / 4 + e.maxOutput <= c.maxTokens
    && 1000000.0 * (b.spend + b.reservedSpend)
       + ((e.promptBytes + 3) / 4) as real * c.inputPrice + e.maxOutput as real * c.outputPrice
       <= 1000000.0 * c.maxSpend
  }

  /** At event k of a run call i asks and fits. */
  predicate FitsAt(c: Caps, s: System, events: seq<Event>, i: nat, k: nat)
    requires k < |events|
  {
    events[k].Ask? && events[k].call == i && Fits(c, Run(c, s, events[..k]).books, events[k])
  }

  ghost predicate FitsSometime(c: Caps, s: System, events: seq<Event>, i: nat) {
    exists k: nat :: k < |events| && FitsAt(c, s, events, i, k)
  }

  lemma AskIssues(c: Caps, s: System, e: Event, i: nat)
    requires i < |s.ledger| && s.ledger[i].Unissued?
    ensures |Next(c, s, e).ledger| == |s.ledger|
    ensures Next(c, s, e).ledger[i].Unissued? <==> !(e.Ask? && e.call == i && Fits(c, s.books, e))
  {
    if e.Ask? && e.call == i {
      RefusalIs(c, s.books, e.promptBytes, e.maxOutput, e.elapsed, None);
    }
  }

  lemma {:induction false} IssuedStays(c: Caps, s: System, events: seq<Event>, i: nat)
    requires i < |s.ledger| && !s.ledger[i].Unissued?
    ensures |Run(c, s, events).ledger| == |s.ledger| && !Run(c, s, events).ledger[i].Unissued?
    decreases events
  {
    if events != [] {
      IssuedStays(c, Next(c, s, events[0]), events[1..], i);
    }
  }

  /** In every run a call gets its ticket if and only if it asks at some moment when the budget is
      open, the wall time is not up, and requests, tokens and spend with its estimate are within
      their caps. */
  lemma {:induction false} IssuedExactly(c: Caps, s: System, events: seq<Event>, i: nat)
    requires i < |s.ledger| && s.ledger[i].Unissued?
    ensures |Run(c, s, events).ledger| == |s.ledger|
    ensures !Run(c, s, events).ledger[i].Unissued? <==> FitsSometime(c, s, events, i)
    decreases events
  {
    if events != [] {
      var s', rest := Next(c, s, events[0]), events[1..];
      AskIssues(c, s, events[0], i);
      FitsFirstOrLater(c, s, events, i);
      if s'.ledger[i].Unissued? {
        IssuedExactly(c, s', rest, i);
      } else {
        IssuedStays(c, s', rest, i);
      }
    }
  }

  lemma FitsFirstOrLater(c: Caps, s: System, events: seq<Event>, i: nat)
    requires events != []
    ensures FitsSometime(c, s, events, i) <==>
      || (events[0].Ask? && events[0].call == i && Fits(c, s.books, events[0]))
      || FitsSometime(c, Next(c, s, events[0]), events[1..], i)
  {
    var s', rest := Next(c, s, events[0]), events[1..];
    assert events[..0] == [];
    assert FitsAt(c, s, events, i, 0) <==> events[0].Ask? && events[0].call == i && Fits(c, s.books, events[0]);
    forall k: nat | k < |rest|
      ensures FitsAt(c, s', rest, i, k) <==> FitsAt(c, s, events, i, k + 1)
    {
      assert events[..k + 1][1..] == rest[..k] && rest[k] == events[k + 1];
    }
    if FitsSometime(c, s', rest, i) {
      var k: nat :| k < |rest| && FitsAt(c, s', rest, i, k);
      assert FitsAt(c, s, events, i, k + 1);
    }
    if k: nat :| k < |events| && FitsAt(c, s, events, i, k) && k > 0 {
      assert FitsAt(c, s', rest, i, k - 1);
    }
  }

  /** Once the wall time is up no call gets a ticket. */
  lemma {:induction false} NothingIssuedLate(c: Caps, s: System, events: seq<Event>, i: nat)
    requires i < |s.ledger| && s.ledger[i].Unissued?
    requires forall k :: 0 <= k < |events| && events[k].Ask? && events[k].call == i ==> events[k].elapsed >= c.maxWall
    ensures |Run(c, s, events).ledger| == |s.ledger| && Run(c, s, events).ledger[i].Unissued?
  {
    IssuedExactly(c, s, events, i);
    forall k: nat | k < |events|
      ensures !FitsAt(c, s, events, i, k)
    {
    }
  }

  /** With no call in flight nothing is reserved. */
  lemma {:induction false} QuietReservesNothing(ledger: seq<Ticket>)
    requires forall i :: 0 <= i < |ledger| ==> !ledger[i].Open?
    ensures SumBy(ledger, OpenTokens) == 0 && RealSumBy(ledger, OpenSpend) == 0.0
  {
    if ledger != [] {
      QuietReservesNothing(ledger[..|ledger| - 1]);
    }
  }

  // ----- when a call stays within its estimate

  /** A call whose prompt and output are each within the estimate overshoots neither cap. */
  lemma WithinEstimate(c: Caps, promptBytes: nat, maxOutput: int, status: int, u: Usage)
    requires CapsOk(c)
    requires u.prompt <= (promptBytes + 3) / 4 && u.completion + u.reasoning <= maxOutput
    ensures var r := Estimate(c, promptBytes, maxOutput);
      var t := Closed(r, ChargedTokens(r, status, u), ChargedSpend(c, r, status, u));
      TokensOver(t) == 0 && SpendOver(t) == 0.0
  {
    var est := (promptBytes + 3) / 4;
    CheaperWhenSmaller(u.prompt as real, est as real, c.inputPrice);
    CheaperWhenSmaller((u.completion + u.reasoning) as real, maxOutput as real, c.outputPrice);
  }

  lemma CheaperWhenSmaller(a: real, b: real, price: real)
    requires a <= b && price >= 0.0
    ensures a * price <= b * price
  {
  }

  /** The ticket of a call settled with this usage. */
  function SettledTicket(c: Caps, promptBytes: nat, maxOutput: int, status: int, u: Usage): Ticket {
    var r := Estimate(c, promptBytes, maxOutput);
    Closed(r, ChargedTokens(r, status, u), ChargedSpend(c, r, status, u))
  }

  ghost predicate NeverOver(promptBytes: nat, maxOutput: int, status: int, u: Usage) {
    forall c :: CapsOk(c) ==>
      TokensOver(SettledTicket(c, promptBytes, maxOutput, status, u)) == 0
      && SpendOver(SettledTicket(c, promptBytes, maxOutput, status, u)) == 0.0
  }

  /** Whatever the caps and prices, a call overshoots neither its tokens nor its spend if and only if
      it was charged its estimate, or its prompt and its output are each within theirs. */
  lemma WithinEstimateExactly(promptBytes: nat, maxOutput: int, status: int, u: Usage)
    ensures NeverOver(promptBytes, maxOutput, status, u) <==>
      || (Total(u) == 0 && status < 300)
      || (u.prompt <= (promptBytes + 3) / 4 && u.completion + u.reasoning <= maxOutput)
  {
    if !(Total(u) == 0 && status < 300) {
      var input, output := Caps(0, 0, 0, 0.0, 1000000.0, 0.0), Caps(0, 0, 0, 0.0, 0.0, 1000000.0);
      UnitPrices(promptBytes, maxOutput);
      UnitCosts(u);
      if NeverOver(promptBytes, maxOutput, status, u) {
        assert CapsOk(input) && CapsOk(output);
        assert SpendOver(SettledTicket(input, promptBytes, maxOutput, status, u)) == 0.0;
        assert SpendOver(SettledTicket(output, promptBytes, maxOutput, status, u)) == 0.0;
      }
      if u.prompt <= (promptBytes + 3) / 4 && u.completion + u.reasoning <= maxOutput {
        forall c | CapsOk(c)
          ensures TokensOver(SettledTicket(c, promptBytes, maxOutput, status, u)) == 0
          ensures SpendOver(SettledTicket(c, promptBytes, maxOutput, status, u)) == 0.0
        {
          WithinEstimate(c, promptBytes, maxOutput, status, u);
        }
      }
    }
  }

  /** With a price on one side only, an estimate's spend is that side's tokens. */
  lemma UnitPrices(promptBytes: nat, maxOutput: int)
    ensures Estimate(Caps(0, 0, 0, 0.0, 1000000.0, 0.0), promptBytes, maxOutput).spend == ((promptBytes + 3) / 4) as real
    ensures Estimate(Caps(0, 0, 0, 0.0, 0.0, 1000000.0), promptBytes, maxOutput).spend == maxOutput as real
  {
  }

  lemma UnitCosts(u: Usage)
    ensures Cost(Caps(0, 0, 0, 0.0, 1000000.0, 0.0), u.prompt, u.completion + u.reasoning) == u.prompt as real
    ensures Cost(Caps(0, 0, 0, 0.0, 0.0, 1000000.0), u.prompt, u.completion + u.reasoning)
      == (u.completion + u.reasoning) as real
  {
  }

  /** The total alone is not enough: the same number of tokens, all of them output, can cost more
      than the estimate. */
  lemma TotalWithinIsNotEnough()
    ensures exists c: Caps, promptBytes: nat, maxOutput: int, u: Usage ::
      && CapsOk(c)
      && Total(u) <= Estimate(c, promptBytes, maxOutput).tokens
      && ChargedSpend(c, Estimate(c, promptBytes, maxOutput), 200, u)
         > Estimate(c, promptBytes, maxOutput).spend
  {
    var c := Caps(1, 1000, 1, 1.0, 0.0, 1000000.0);
    var u := Usage(0, 2, 0);
    assert Estimate(c, 4, 1) == Reservation(2, 1.0);
    assert ChargedSpend(c, Estimate(c, 4, 1), 200, u) == 2.0;
    assert CapsOk(c) && Total(u) <= Estimate(c, 4, 1).tokens;
  }

  // ----- a request's completion cap

  const DefaultMaxOutput := 4096
  const MaxCompletionCap := 0x100_0000

  /** maxOutputOf: the first usable cap of the two a request may name; None when the body is not
      JSON of that shape. */
  function MaxOutputOf(body: Option<(Option<int>, Option<int>)>): (r: int)
    ensures 1 <= r <= 16777216
    ensures body.Some? && Usable(body.value.0) ==> r == body.value.0.value
    ensures body.Some? && !Usable(body.value.0) && Usable(body.value.1) ==> r == body.value.1.value
    ensures body.None? || (!Usable(body.value.0) && !Usable(body.value.1)) ==> r == 4096
  {
    if body.None? then DefaultMaxOutput
    else
      var (completion, tokens) := body.value;
      if completion.Some? && 0 < completion.value <= MaxCompletionCap then completion.value
      else if tokens.Some? && 0 < tokens.value <= MaxCompletionCap then tokens.value
      else DefaultMaxOutput
  }

  /** A cap a request names and that is taken. */
  predicate Usable(cap: Option<int>) {
    cap.Some? && 0 < cap.value <= 16777216
  }
}
