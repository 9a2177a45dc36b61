/** The model tap: recording proxies that admit every call against one shared budget, forward it
    and settle it, any number of calls at once. */
module ModelTap {
  import opened Names
  import opened Sums
  import opened Budget

  datatype TapUsage = TapUsage(calls: int, prompt: int, completion: int, reasoning: int, httpErrors: int)

  const NoTraffic := TapUsage(0, 0, 0, 0, 0)

  /** What a reply's body says about usage; None when it is not JSON of that shape. */
  datatype Report = Report(prompt: int, completion: int, total: int, reasoning: Option<int>)

  /** The usage settle reads: reasoning is the provider's detail or, without one, what the total
      has above prompt and completion. */
  function UsageOf(report: Option<Report>): Usage {
    match report
    case None => NoUsage
    case Some(r) =>
      Usage(r.prompt, r.completion,
            if r.reasoning.Some? && r.reasoning.value > 0 then r.reasoning.value
            else if r.total > r.prompt + r.completion then r.total - r.prompt - r.completion
            else 0)
  }

  /** What a reply says, field by field. Reasoning is a positive detail; without one it is what the
      total has above prompt and completion, so that the three then add up to the total. */
  predicate ReadAs(report: Option<Report>, u: Usage) {
    && (report.None? ==> u.prompt == 0 && u.completion == 0 && u.reasoning == 0)
    && (report.Some? ==>
          var r := report.value;
          var detailed := r.reasoning.Some? && r.reasoning.value > 0;
          && u.prompt == r.prompt && u.completion == r.completion
          && (detailed ==> u.reasoning == r.reasoning.value)
          && (!detailed && r.total >= r.prompt + r.completion ==> u.prompt + u.completion + u.reasoning == r.total)
          && (!detailed && r.total < r.prompt + r.completion ==> u.reasoning == 0))
  }

  lemma UsageReads(report: Option<Report>, u: Usage)
    ensures u == UsageOf(report) <==> ReadAs(report, u)
  {
  }

  // ----- one tap, sequentially

  datatype Reply = NoReply(status: int) | Replied(status: int, report: Option<Report>)

  class Tap {
    var usage: TapUsage
    var prompts: seq<string>

    constructor ()
      ensures usage == NoTraffic && prompts == []
    {
      usage, prompts := NoTraffic, [];
    }

    method Record(messages: seq<string>)
      modifies this
      ensures usage == old(usage).(calls := old(usage).calls + 1)
      ensures prompts == old(prompts) + messages
    {
      usage := usage.(calls := usage.calls + 1);
      prompts := prompts + messages;
    }

    method Fail()
      modifies this`usage
      ensures usage == old(usage).(httpErrors := old(usage).httpErrors + 1)
    {
      usage := usage.(httpErrors := usage.httpErrors + 1);
    }

    method SettleReply(status: int, report: Option<Report>) returns (call: Usage)
      modifies this`usage
      ensures call == UsageOf(report)
      ensures ReadAs(report, call)
      ensures usage == old(usage).(prompt := old(usage).prompt + call.prompt,
                                   completion := old(usage).completion + call.completion,
                                   reasoning := old(usage).reasoning + call.reasoning,
                                   httpErrors := old(usage).httpErrors + if status >= 300 then 1 else 0)
    {
      call := UsageOf(report);
      UsageReads(report, call);
      if status >= 300 {
        usage := usage.(httpErrors := usage.httpErrors + 1);
      }
      usage := usage.(prompt := usage.prompt + call.prompt, completion := usage.completion + call.completion,
                      reasoning := usage.reasoning + call.reasoning);
    }

    /** ServeHTTP: a call past the budget never leaves the process; every admitted call is settled
        once, on every path. Without a budget everything is let out. */
    method ServeHTTP(
      budget: Accountant?, bodyRead: bool, messages: seq<string>, promptBytes: nat, maxOutput: int,
      elapsed: int, reply: Reply)
      returns (status: int, forwarded: bool)
      requires reply.NoReply? ==> reply.status >= 300
      modifies this, budget
      ensures prompts == old(prompts) + messages
      ensures forwarded == (bodyRead && (budget == null ||
        Refusal(budget.caps, old(budget.State()), Estimate(budget.caps, promptBytes, maxOutput), elapsed).None?))
      ensures budget != null ==>
        budget.State() == ServedBooks(budget.caps, old(budget.State()), bodyRead, promptBytes, maxOutput, elapsed, reply)
      ensures usage == ServedUsage(old(usage), forwarded, reply)
      ensures CountedAs(old(usage), usage, forwarded, reply)
      ensures budget != null && forwarded ==>
        ChargedAs(budget.caps, old(budget.State()), budget.State(), promptBytes, maxOutput, reply)
      ensures budget != null && !forwarded ==> NotCharged(old(budget.State()), budget.State(), bodyRead)
    {
      ServedAs(usage, bodyRead, reply);
      if budget != null {
        ServedAsBooks(budget.caps, budget.State(), bodyRead, promptBytes, maxOutput, elapsed, reply);
      }
      forwarded := false;
      Record(messages);
      if !bodyRead {
        Fail();
        return 400, false;
      }
      var res := None;
      if budget != null {
        res := budget.Admit(promptBytes, maxOutput, elapsed);
        if res.None? {
          Fail();
          return 503, false;
        }
      }
      forwarded := true;
      match reply {
        case NoReply(s) =>
          if budget != null {
            budget.Settle(res.value, s, NoUsage);
          }
          Fail();
          status := s;
        case Replied(s, report) =>
          var call := SettleReply(s, report);
          if budget != null {
            budget.Settle(res.value, s, call);
          }
          status := s;
      }
    }
  }

  /** The budget after a call: untouched without a body, closed by a refusal, else one reservation
      exchanged for its charge. */
  function ServedBooks(
    caps: Caps, b: Books, bodyRead: bool, promptBytes: nat, maxOutput: int, elapsed: int, reply: Reply): Books
  {
    if !bodyRead then b
    else
      var r := Estimate(caps, promptBytes, maxOutput);
      var admitted := Admitted(caps, b, r, elapsed);
      if Refusal(caps, b, r, elapsed).Some? then admitted
      else Settled(caps, admitted, r, reply.status, if reply.NoReply? then NoUsage else UsageOf(reply.report))
  }

  /** A call that was let out costs one request and leaves nothing reserved. Without a reply it costs
      nothing more; with one it costs what the reply says or, if that is nothing and it succeeded, its
      estimate. */
  ghost predicate ChargedAs(caps: Caps, b: Books, after: Books, promptBytes: nat, maxOutput: int, reply: Reply) {
    && after.requests == b.requests + 1
    && after.reservedTokens == b.reservedTokens && after.reservedSpend == b.reservedSpend
    && (reply.NoReply? ==> after.tokens == b.tokens && after.spend == b.spend)
    && (reply.Replied? ==> forall u :: ReadAs(reply.report, u) ==>
          if u.prompt + u.completion + u.reasoning == 0 && reply.status < 300
          then CostOf(caps, b, after, (promptBytes + 3) / 4, maxOutput)
          else CostOf(caps, b, after, u.prompt, u.completion + u.reasoning))
  }

  /** The books grew by so many prompt and output tokens at their prices. */
  predicate CostOf(caps: Caps, b: Books, after: Books, prompt: int, output: int) {
    && after.tokens == b.tokens + prompt + output
    && 1000000.0 * (after.spend - b.spend) == prompt as real * caps.inputPrice + output as real * caps.outputPrice
  }

  /** A call that is not let out costs nothing; a refused one leaves the budget closed. */
  predicate NotCharged(b: Books, after: Books, bodyRead: bool) {
    && after.requests == b.requests && after.tokens == b.tokens && after.spend == b.spend
    && after.reservedTokens == b.reservedTokens && after.reservedSpend == b.reservedSpend
    && (if bodyRead then after.exhausted.Some? else after.exhausted == b.exhausted)
  }

  lemma ServedAsBooks(
    caps: Caps, b: Books, bodyRead: bool, promptBytes: nat, maxOutput: int, elapsed: int, reply: Reply)
    requires reply.NoReply? ==> reply.status >= 300
    ensures var after := ServedBooks(caps, b, bodyRead, promptBytes, maxOutput, elapsed, reply);
      if bodyRead && Refusal(caps, b, Estimate(caps, promptBytes, maxOutput), elapsed).None?
      then ChargedAs(caps, b, after, promptBytes, maxOutput, reply)
      else NotCharged(b, after, bodyRead)
  {
    var r := Estimate(caps, promptBytes, maxOutput);
    AdmitsSo(caps, b, promptBytes, maxOutput, elapsed);
    if bodyRead && Refusal(caps, b, r, elapsed).None? {
      LetOutCosts(caps, b, Admitted(caps, b, r, elapsed), promptBytes, maxOutput, elapsed, r, reply);
    }
  }

  lemma LetOutCosts(
    caps: Caps, b: Books, admitted: Books, promptBytes: nat, maxOutput: int, elapsed: int, r: Reservation, reply: Reply)
    requires reply.NoReply? ==> reply.status >= 300
    requires AdmittedAs(caps, b, admitted, promptBytes, maxOutput, elapsed, Some(r))
    ensures ChargedAs(caps, b, Settled(caps, admitted, r, reply.status, if reply.NoReply? then NoUsage else UsageOf(reply.report)),
                      promptBytes, maxOutput, reply)
  {
    var u := if reply.NoReply? then NoUsage else UsageOf(reply.report);
    var after := Settled(caps, admitted, r, reply.status, u);
    SettlesSo(caps, admitted, r, reply.status, u);
    CostsReply(caps, b, admitted, after, promptBytes, maxOutput, r, reply, u);
  }

  lemma CostsReply(
    caps: Caps, b: Books, admitted: Books, after: Books, promptBytes: nat, maxOutput: int, r: Reservation,
    reply: Reply, u: Usage)
    requires reply.NoReply? ==> reply.status >= 300 && u == NoUsage
    requires reply.Replied? ==> u == UsageOf(reply.report)
    requires EstimateIs(caps, r, promptBytes, maxOutput)
    requires admitted.requests == b.requests + 1 && admitted.tokens == b.tokens && admitted.spend == b.spend
    requires admitted.reservedTokens == b.reservedTokens + r.tokens && admitted.reservedSpend == b.reservedSpend + r.spend
    requires SettledAs(caps, admitted, after, r, reply.status, u)
    ensures ChargedAs(caps, b, after, promptBytes, maxOutput, reply)
  {
    SettledCost(caps, b, admitted, after, promptBytes, maxOutput, r, reply.status, u);
    forall v | reply.Replied? && ReadAs(reply.report, v)
      ensures v == u
    {
      UsageReads(reply.report, v);
    }
  }

  lemma SettledCost(
    caps: Caps, b: Books, admitted: Books, after: Books, promptBytes: nat, maxOutput: int, r: Reservation,
    status: int, u: Usage)
    requires EstimateIs(caps, r, promptBytes, maxOutput)
    requires admitted.requests == b.requests + 1 && admitted.tokens == b.tokens && admitted.spend == b.spend
    requires admitted.reservedTokens == b.reservedTokens + r.tokens && admitted.reservedSpend == b.reservedSpend + r.spend
    requires SettledAs(caps, admitted, after, r, status, u)
    ensures after.requests == b.requests + 1
    ensures after.reservedTokens == b.reservedTokens && after.reservedSpend == b.reservedSpend
    ensures if Total(u) == 0 && status < 300 then CostOf(caps, b, after, (promptBytes + 3) / 4, maxOutput)
            else CostOf(caps, b, after, u.prompt, u.completion + u.reasoning)
  {
  }

  /** A call is counted once. If it is let out and answered its tokens are counted as the reply says
      and an answer from status 300 on is an error; in any other case it is one error and no tokens. */
  ghost predicate CountedAs(u: TapUsage, after: TapUsage, forwarded: bool, reply: Reply) {
    && after.calls == u.calls + 1
    && (forwarded && reply.Replied? ==>
          && after.httpErrors == u.httpErrors + (if reply.status >= 300 then 1 else 0)
          && ReadAs(reply.report, Usage(after.prompt - u.prompt, after.completion - u.completion, after.reasoning - u.reasoning)))
    && (!(forwarded && reply.Replied?) ==>
          && after.httpErrors == u.httpErrors + 1
          && after.prompt == u.prompt && after.completion == u.completion && after.reasoning == u.reasoning)
  }

  lemma ServedAs(u: TapUsage, bodyRead: bool, reply: Reply)
    ensures forall forwarded :: CountedAs(u, ServedUsage(u, forwarded, reply), forwarded, reply)
  {
    if reply.Replied? {
      UsageReads(reply.report, UsageOf(reply.report));
    }
  }

  /** The tap's counters after a call. */
  function ServedUsage(u: TapUsage, forwarded: bool, reply: Reply): TapUsage {
    var u := u.(calls := u.calls + 1);
    if forwarded && reply.Replied? then Recorded(u, reply.status, UsageOf(reply.report))
    else u.(httpErrors := u.httpErrors + 1)
  }

  function Recorded(u: TapUsage, status: int, call: Usage): TapUsage {
    TapUsage(u.calls, u.prompt + call.prompt, u.completion + call.completion,
             u.reasoning + call.reasoning, u.httpErrors + if status >= 300 then 1 else 0)
  }

  // ----- any number of calls through any number of taps at once

  datatype Phase =
    | Idle
    | Received          // recorded, not yet admitted
    | Refusing          // refused, the failure not yet counted
    | Let               // admitted, waiting for its slot
    | Sent              // left the process
    | Ended             // no reply: settled, the failure not yet counted
    | Answered(status: int)   // the tap counted the reply, the budget has not
    | Done

  /** One request and what it has added to the counters so far. `silent`: a successful reply that
      reported nothing, so its estimate was kept. */
  datatype Call = Call(
    tap: nat, phase: Phase, ticket: Ticket, reported: Usage, counted: int, errors: int, sent: int, silent: bool)

  datatype World = World(books: Books, taps: seq<TapUsage>, calls: seq<Call>)

  /** The critical sections of ServeHTTP, in the order a call goes through them. */
  datatype Action =
    | Begin
    | ReadError
    | Ask(promptBytes: nat, maxOutput: int, elapsed: int)
    | CountRefusal
    | Send
    | GiveUp(failure: int)
    | CountFailure
    | Answer(status: int, usage: Usage)
    | Charge

  function AddTraffic(u: TapUsage, k: Call, c: Call): TapUsage {
    TapUsage(u.calls + c.counted - k.counted, u.prompt + c.reported.prompt - k.reported.prompt,
             u.completion + c.reported.completion - k.reported.completion,
             u.reasoning + c.reported.reasoning - k.reported.reasoning,
             u.httpErrors + c.errors - k.errors)
  }

  /** The call after an action that fits its phase; None otherwise. */
  function CallAfter(caps: Caps, b: Books, k: Call, a: Action): Option<Call> {
    match a
    case Begin => if k.phase == Idle then Some(k.(phase := Received, counted := 1)) else None
    case ReadError => if k.phase == Received then Some(k.(phase := Done, errors := 1)) else None
    case Ask(bytes, maxOutput, elapsed) =>
      if k.phase != Received then None
      else
        var r := Estimate(caps, bytes, maxOutput);
        if Refusal(caps, b, r, elapsed).Some? then Some(k.(phase := Refusing))
        else Some(k.(phase := Let, ticket := Open(r)))
    case CountRefusal => if k.phase == Refusing then Some(k.(phase := Done, errors := 1)) else None
    case Send => if k.phase == Let then Some(k.(phase := Sent, sent := 1)) else None
    case GiveUp(failure) =>
      if (k.phase == Let || k.phase == Sent) && k.ticket.Open? && failure >= 300
      then Some(k.(phase := Ended, ticket := Closed(k.ticket.res, 0, 0.0)))
      else None
    case CountFailure => if k.phase == Ended then Some(k.(phase := Done, errors := 1)) else None
    case Answer(status, usage) =>
      if k.phase == Sent
      then Some(k.(phase := Answered(status), reported := usage, errors := if status >= 300 then 1 else 0))
      else None
    case Charge =>
      if k.phase.Answered? && k.ticket.Open?
      then
        var r, s := k.ticket.res, k.phase.status;
        Some(k.(phase := Done, ticket := Closed(r, ChargedTokens(r, s, k.reported), ChargedSpend(caps, r, s, k.reported)),
                silent := Total(k.reported) == 0 && s < 300))
      else None
  }

  function BooksAfter(caps: Caps, b: Books, k: Call, a: Action): Books {
    match a
    case Ask(bytes, maxOutput, elapsed) => Admitted(caps, b, Estimate(caps, bytes, maxOutput), elapsed)
    case GiveUp(failure) => if k.ticket.Open? then Settled(caps, b, k.ticket.res, failure, NoUsage) else b
    case Charge =>
      if k.ticket.Open? && k.phase.Answered? then Settled(caps, b, k.ticket.res, k.phase.status, k.reported) else b
    case _ => b
  }

  function Act(caps: Caps, w: World, i: nat, a: Action): World {
    if i >= |w.calls| || w.calls[i].tap >= |w.taps| then w
    else
      var k := w.calls[i];
      match CallAfter(caps, w.books, k, a)
      case None => w
      case Some(c) =>
        World(BooksAfter(caps, w.books, k, a),
              w.taps[k.tap := AddTraffic(w.taps[k.tap], k, c)], w.calls[i := c])
  }

  function RunTaps(caps: Caps, w: World, run: seq<(nat, Action)>): World
    decreases run
  {
    if run == [] then w else RunTaps(caps, Act(caps, w, run[0].0, run[0].1), run[1..])
  }

  function NewCall(tap: nat): Call {
    Call(tap, Idle, Unissued, Usage(0, 0, 0), 0, 0, 0, false)
  }

  // ----- what every call keeps to

  ghost predicate CallOk(k: Call) {
    && (k.phase.Idle? || k.phase.Received? || k.phase.Refusing? ==>
          k.ticket.Unissued? && k.errors == 0 && k.sent == 0 && Total(k.reported) == 0 && !k.silent)
    && k.counted == (if k.phase.Idle? then 0 else 1)
    && (k.phase.Let? || k.phase.Sent? ==>
          k.ticket.Open? && k.errors == 0 && Total(k.reported) == 0 && !k.silent)
    && (k.phase.Let? ==> k.sent == 0)
    && (k.phase.Sent? ==> k.sent == 1)
    && (k.phase.Ended? ==> k.ticket.Closed? && k.errors == 0)
    && (k.phase.Answered? ==> k.ticket.Open? && k.sent == 1 && !k.silent)
    && (k.phase.Done? ==> !k.ticket.Open?)
    && 0 <= k.errors <= 1 && 0 <= k.sent <= IsIssued(k.ticket)
    && (k.ticket.Unissued? ==> Total(k.reported) == 0 && !k.silent)
    && (!k.ticket.Open? ==> UsedTokens(k.ticket) == Total(k.reported) + Kept(k))
    && (k.silent ==> k.ticket.Closed? && Total(k.reported) == 0)
  }

  /** The estimate charged for a successful reply that reported nothing. */
  function Kept(k: Call): int {
    if k.silent then ClosedEstimate(k.ticket) else 0
  }

  function ClosedEstimate(t: Ticket): int {
    if t.Closed? then t.res.tokens else 0
  }

  lemma CallStaysOk(caps: Caps, b: Books, k: Call, a: Action)
    requires CallOk(k) && CallAfter(caps, b, k, a).Some?
    ensures CallOk(CallAfter(caps, b, k, a).value)
    ensures CallAfter(caps, b, k, a).value.tap == k.tap
  {
  }

  // ----- counters are sums over calls

  datatype Counter = Calls | Prompt | Completion | Reasoning | Errors

  function Amount(c: Call, n: Counter): int {
    match n
    case Calls => c.counted
    case Prompt => c.reported.prompt
    case Completion => c.reported.completion
    case Reasoning => c.reported.reasoning
    case Errors => c.errors
  }

  function Reading(u: TapUsage, n: Counter): int {
    match n
    case Calls => u.calls
    case Prompt => u.prompt
    case Completion => u.completion
    case Reasoning => u.reasoning
    case Errors => u.httpErrors
  }

  function InTap(t: nat, n: Counter): Call -> int {
    (c: Call) => if c.tap == t then Amount(c, n) else 0
  }

  function TicketsOf(calls: seq<Call>): (r: seq<Ticket>)
    ensures |r| == |calls| && forall i :: 0 <= i < |calls| ==> r[i] == calls[i].ticket
  {
    seq(|calls|, i requires 0 <= i < |calls| => calls[i].ticket)
  }

  ghost predicate TapsAddUp(taps: seq<TapUsage>, calls: seq<Call>) {
    && (forall i :: 0 <= i < |calls| ==> calls[i].tap < |taps|)
    && forall t: nat, n: Counter :: t < |taps| ==> Reading(taps[t], n) == SumBy(calls, InTap(t, n))
  }

  ghost predicate BooksOk(caps: Caps, b: Books, ledger: seq<Ticket>) {
    Balanced(b, ledger) && Capped(caps, b, ledger)
  }

  ghost predicate WorldOk(caps: Caps, w: World) {
    && (forall i :: 0 <= i < |w.calls| ==> CallOk(w.calls[i]))
    && BooksOk(caps, w.books, TicketsOf(w.calls))
    && TapsAddUp(w.taps, w.calls)
  }

  lemma AskStep(caps: Caps, b: Books, ledger: seq<Ticket>, i: nat, r: Reservation, elapsed: int)
    requires BooksOk(caps, b, ledger) && i < |ledger| && ledger[i].Unissued?
    ensures BooksOk(caps, Admitted(caps, b, r, elapsed),
                    if Refusal(caps, b, r, elapsed).Some? then ledger else ledger[i := Open(r)])
  {
    AdmitKeepsBooks(caps, System(b, ledger), i, r, elapsed);
  }

  lemma SettleStep(caps: Caps, b: Books, ledger: seq<Ticket>, i: nat, status: int, u: Usage)
    requires BooksOk(caps, b, ledger) && i < |ledger| && ledger[i].Open?
    ensures var r := ledger[i].res;
      BooksOk(caps, Settled(caps, b, r, status, u),
              ledger[i := Closed(r, ChargedTokens(r, status, u), ChargedSpend(caps, r, status, u))])
  {
    SettleKeepsBooks(caps, System(b, ledger), i, status, u);
  }

  /** A settlement without usage and without success charges nothing. */
  lemma FailureIsFree(caps: Caps, r: Reservation, failure: int)
    requires failure >= 300
    ensures ChargedTokens(r, failure, NoUsage) == 0 && ChargedSpend(caps, r, failure, NoUsage) == 0.0
  {
  }

  lemma BooksStep(caps: Caps, b: Books, ledger: seq<Ticket>, i: nat, k: Call, a: Action)
    requires BooksOk(caps, b, ledger) && i < |ledger| && ledger[i] == k.ticket
    requires CallOk(k) && CallAfter(caps, b, k, a).Some?
    ensures BooksOk(caps, BooksAfter(caps, b, k, a), ledger[i := CallAfter(caps, b, k, a).value.ticket])
  {
    match a {
      case Ask(bytes, maxOutput, elapsed) =>
        AskStep(caps, b, ledger, i, Estimate(caps, bytes, maxOutput), elapsed);
        assert ledger[i := k.ticket] == ledger;
      case GiveUp(failure) =>
        SettleStep(caps, b, ledger, i, failure, NoUsage);
        FailureIsFree(caps, k.ticket.res, failure);
      case Charge =>
        SettleStep(caps, b, ledger, i, k.phase.status, k.reported);
      case _ =>
        assert ledger[i := k.ticket] == ledger;
    }
  }

  lemma TapsStep(taps: seq<TapUsage>, calls: seq<Call>, i: nat, c: Call)
    requires TapsAddUp(taps, calls) && i < |calls| && c.tap == calls[i].tap
    ensures TapsAddUp(taps[c.tap := AddTraffic(taps[c.tap], calls[i], c)], calls[i := c])
  {
    var after := taps[c.tap := AddTraffic(taps[c.tap], calls[i], c)];
    forall t: nat, n: Counter | t < |after|
      ensures Reading(after[t], n) == SumBy(calls[i := c], InTap(t, n))
    {
      SumUpdate(calls, i, c, InTap(t, n));
    }
  }

  lemma ActKeepsWorld(caps: Caps, w: World, i: nat, a: Action)
    requires WorldOk(caps, w)
    ensures WorldOk(caps, Act(caps, w, i, a))
  {
    if i < |w.calls| && w.calls[i].tap < |w.taps| && CallAfter(caps, w.books, w.calls[i], a).Some? {
      var c := CallAfter(caps, w.books, w.calls[i], a).value;
      CallStaysOk(caps, w.books, w.calls[i], a);
      BooksStep(caps, w.books, TicketsOf(w.calls), i, w.calls[i], a);
      assert TicketsOf(w.calls[i := c]) == TicketsOf(w.calls)[i := c.ticket];
      TapsStep(w.taps, w.calls, i, c);
    }
  }

  lemma {:induction false} RunKeepsWorld(caps: Caps, w: World, run: seq<(nat, Action)>)
    requires WorldOk(caps, w)
    ensures WorldOk(caps, RunTaps(caps, w, run))
    decreases run
  {
    if run != [] {
      ActKeepsWorld(caps, w, run[0].0, run[0].1);
      RunKeepsWorld(caps, Act(caps, w, run[0].0, run[0].1), run[1..]);
    }
  }

  lemma NewCallOk(tap: nat)
    ensures CallOk(NewCall(tap))
    ensures forall t: nat, n: Counter :: InTap(t, n)(NewCall(tap)) == 0
  {
  }

  lemma StartOk(caps: Caps, taps: nat, calls: seq<Call>)
    requires CapsOk(caps)
    requires forall i :: 0 <= i < |calls| ==> calls[i] == NewCall(calls[i].tap) && calls[i].tap < taps
    ensures WorldOk(caps, World(NewBooks, seq(taps, i => NoTraffic), calls))
  {
    FreshBalanced(caps, TicketsOf(calls));
    forall i | 0 <= i < |calls|
      ensures CallOk(calls[i]) && forall t: nat, n: Counter :: InTap(t, n)(calls[i]) == 0
    {
      NewCallOk(calls[i].tap);
    }
    forall t: nat, n: Counter | t < taps
      ensures SumBy(calls, InTap(t, n)) == 0
    {
      SumZero(calls, InTap(t, n));
    }
  }

  // ----- what follows, in every reachable state

  function SentCount(c: Call): int { c.sent }
  function IssuedCount(c: Call): int { IsIssued(c.ticket) }
  function ReportedTokens(c: Call): int { Total(c.reported) }
  function KeptTokens(c: Call): int { Kept(c) }
  function ChargeOf(c: Call): int { UsedTokens(c.ticket) }
  function TapTokens(u: TapUsage): int { u.prompt + u.completion + u.reasoning }

  lemma {:induction false} TicketSums(calls: seq<Call>)
    ensures SumBy(TicketsOf(calls), IsIssued) == SumBy(calls, IssuedCount)
    ensures SumBy(TicketsOf(calls), UsedTokens) == SumBy(calls, ChargeOf)
  {
    if calls != [] {
      var n := |calls| - 1;
      TicketSums(calls[..n]);
      assert TicketsOf(calls)[..n] == TicketsOf(calls[..n]);
    }
  }

  /** Upstream sends never exceed admissions, nor admissions the request cap. */
  lemma SendsBounded(caps: Caps, w: World)
    requires WorldOk(caps, w)
    ensures SumBy(w.calls, SentCount) <= w.books.requests <= caps.maxRequests
  {
    TicketSums(w.calls);
    forall i | 0 <= i < |w.calls|
      ensures SentCount(w.calls[i]) <= IssuedCount(w.calls[i])
    {
      assert CallOk(w.calls[i]);
    }
    SumAtMost(w.calls, SentCount, IssuedCount);
  }

  lemma ErrorsWithinCalls(caps: Caps, w: World, t: nat)
    requires WorldOk(caps, w) && t < |w.taps|
    ensures w.taps[t].httpErrors <= w.taps[t].calls
  {
    forall i | 0 <= i < |w.calls|
      ensures InTap(t, Errors)(w.calls[i]) <= InTap(t, Calls)(w.calls[i])
    {
      assert CallOk(w.calls[i]);
    }
    SumAtMost(w.calls, InTap(t, Errors), InTap(t, Calls));
    assert Reading(w.taps[t], Errors) == SumBy(w.calls, InTap(t, Errors));
    assert Reading(w.taps[t], Calls) == SumBy(w.calls, InTap(t, Calls));
  }

  /** No call is under way. */
  predicate Quiet(w: World) {
    forall i :: 0 <= i < |w.calls| ==> w.calls[i].phase.Idle? || w.calls[i].phase.Done?
  }

  /** When no call is under way every admitted call has been settled, nothing is reserved, and the
      budget's tokens are what all taps recorded plus the estimates kept for successful replies
      that reported nothing. */
  lemma QuietAccounts(caps: Caps, w: World)
    requires WorldOk(caps, w) && Quiet(w)
    ensures forall i :: 0 <= i < |w.calls| ==> !w.calls[i].ticket.Open?
    ensures w.books.reservedTokens == 0 && w.books.reservedSpend == 0.0
    ensures w.books.tokens == SumBy(w.taps, TapTokens) + SumBy(w.calls, KeptTokens)
  {
    forall i | 0 <= i < |w.calls|
      ensures !w.calls[i].ticket.Open?
      ensures ChargeOf(w.calls[i]) == Total(w.calls[i].reported) + Kept(w.calls[i])
    {
      QuietCall(w.calls[i]);
    }
    QuietBooks(caps, w.books, w.calls);
    TapsHoldEverything(w.taps, w.calls);
  }

  lemma QuietCall(k: Call)
    requires CallOk(k) && (k.phase.Idle? || k.phase.Done?)
    ensures !k.ticket.Open? && ChargeOf(k) == Total(k.reported) + Kept(k)
  {
  }

  lemma QuietBooks(caps: Caps, b: Books, calls: seq<Call>)
    requires BooksOk(caps, b, TicketsOf(calls))
    requires forall i :: 0 <= i < |calls| ==> !calls[i].ticket.Open?
    requires forall i :: 0 <= i < |calls| ==> ChargeOf(calls[i]) == Total(calls[i].reported) + Kept(calls[i])
    ensures b.reservedTokens == 0 && b.reservedSpend == 0.0
    ensures b.tokens == SumBy(calls, ReportedTokens) + SumBy(calls, KeptTokens)
  {
    QuietReservesNothing(TicketsOf(calls));
    TicketSums(calls);
    SplitCharges(calls);
  }

  lemma {:induction false} SplitCharges(calls: seq<Call>)
    requires forall i :: 0 <= i < |calls| ==> ChargeOf(calls[i]) == Total(calls[i].reported) + Kept(calls[i])
    ensures SumBy(calls, ChargeOf) == SumBy(calls, ReportedTokens) + SumBy(calls, KeptTokens)
  {
    if calls != [] {
      SplitCharges(calls[..|calls| - 1]);
    }
  }

  /** Tokens recorded for tap t by a list of calls. */
  function TokensIn(t: nat): Call -> int {
    (c: Call) => if c.tap == t then Total(c.reported) else 0
  }

  lemma {:induction false} TokensSplit(calls: seq<Call>, t: nat)
    ensures SumBy(calls, TokensIn(t)) ==
      SumBy(calls, InTap(t, Prompt)) + SumBy(calls, InTap(t, Completion)) + SumBy(calls, InTap(t, Reasoning))
  {
    if calls != [] {
      TokensSplit(calls[..|calls| - 1], t);
    }
  }

  function OverTaps(n: nat, calls: seq<Call>): int {
    if n == 0 then 0 else OverTaps(n - 1, calls) + SumBy(calls, TokensIn(n - 1))
  }

  lemma {:induction false} OverTapsAppend(n: nat, calls: seq<Call>, c: Call)
    ensures OverTaps(n, calls + [c]) == OverTaps(n, calls) + if c.tap < n then Total(c.reported) else 0
  {
    if n > 0 {
      OverTapsAppend(n - 1, calls, c);
      SumAppend(calls, c, TokensIn(n - 1));
    }
  }

  lemma {:induction false} OverTapsIsAll(n: nat, calls: seq<Call>)
    requires forall i :: 0 <= i < |calls| ==> calls[i].tap < n
    ensures OverTaps(n, calls) == SumBy(calls, ReportedTokens)
  {
    if calls == [] {
      OverNone(n);
    } else {
      var m := |calls| - 1;
      OverTapsIsAll(n, calls[..m]);
      OverTapsAppend(n, calls[..m], calls[m]);
      assert calls == calls[..m] + [calls[m]];
    }
  }

  lemma {:induction false} OverNone(n: nat)
    ensures OverTaps(n, []) == 0
  {
    if n > 0 {
      OverNone(n - 1);
    }
  }

  lemma TapsHoldEverything(taps: seq<TapUsage>, calls: seq<Call>)
    requires TapsAddUp(taps, calls)
    ensures SumBy(taps, TapTokens) == SumBy(calls, ReportedTokens)
  {
    TapsPrefix(taps, calls, |taps|);
    assert taps[..|taps|] == taps;
    OverTapsIsAll(|taps|, calls);
  }

  lemma {:induction false} TapsPrefix(taps: seq<TapUsage>, calls: seq<Call>, n: nat)
    requires TapsAddUp(taps, calls) && n <= |taps|
    ensures SumBy(taps[..n], TapTokens) == OverTaps(n, calls)
  {
    if n > 0 {
      TapsPrefix(taps, calls, n - 1);
      assert taps[..n][..n - 1] == taps[..n - 1];
      TokensSplit(calls, n - 1);
      assert Reading(taps[n - 1], Prompt) == SumBy(calls, InTap(n - 1, Prompt));
      assert Reading(taps[n - 1], Completion) == SumBy(calls, InTap(n - 1, Completion));
      assert Reading(taps[n - 1], Reasoning) == SumBy(calls, InTap(n - 1, Reasoning));
    }
  }

  /** Over every interleaving of any number of calls through any number of taps sharing one budget:
      the books balance and stay capped, sends never exceed admissions, no tap counts more errors
      than calls, and whenever no call is under way nothing is reserved, every admitted call has
      been settled and the budget's tokens are what the taps recorded plus the kept estimates. */
  lemma TapsShareTheBudget(caps: Caps, taps: nat, calls: seq<Call>, run: seq<(nat, Action)>)
    requires CapsOk(caps)
    requires forall i :: 0 <= i < |calls| ==> calls[i] == NewCall(calls[i].tap) && calls[i].tap < taps
    ensures var w := RunTaps(caps, World(NewBooks, seq(taps, i => NoTraffic), calls), run);
      && WorldOk(caps, w)
      && SumBy(w.calls, SentCount) <= w.books.requests <= caps.maxRequests
      && (forall t :: 0 <= t < |w.taps| ==> w.taps[t].httpErrors <= w.taps[t].calls)
      && (Quiet(w) ==>
            && w.books.reservedTokens == 0
            && (forall i :: 0 <= i < |w.calls| ==> !w.calls[i].ticket.Open?)
            && w.books.tokens == SumBy(w.taps, TapTokens) + SumBy(w.calls, KeptTokens))
  {
    var start := World(NewBooks, seq(taps, i => NoTraffic), calls);
    StartOk(caps, taps, calls);
    RunKeepsWorld(caps, start, run);
    var w := RunTaps(caps, start, run);
    SendsBounded(caps, w);
    forall t: nat | t < |w.taps|
      ensures w.taps[t].httpErrors <= w.taps[t].calls
    {
      ErrorsWithinCalls(caps, w, t);
    }
    if Quiet(w) {
      QuietAccounts(caps, w);
    }
  }

  // ----- the wall time

  /** A call that was never let out. */
  predicate NeverLet(k: Call) {
    k.ticket.Unissued? && k.sent == 0 && (k.phase.Idle? || k.phase.Received? || k.phase.Refusing? || k.phase.Done?)
  }

  lemma LateActionSendsNothing(caps: Caps, w: World, j: nat, a: Action, i: nat)
    requires i < |w.calls| && NeverLet(w.calls[i])
    requires j == i && a.Ask? ==> a.elapsed >= caps.maxWall
    ensures |Act(caps, w, j, a).calls| == |w.calls| && NeverLet(Act(caps, w, j, a).calls[i])
  {
    if a.Ask? {
      RefusalIs(caps, w.books, a.promptBytes, a.maxOutput, a.elapsed, None);
    }
  }

  /** However the calls interleave, one that asks only when the wall time is up never leaves the
      process. */
  lemma {:induction false} NothingSentLate(caps: Caps, w: World, run: seq<(nat, Action)>, i: nat)
    requires i < |w.calls| && NeverLet(w.calls[i])
    requires forall k :: 0 <= k < |run| && run[k].0 == i && run[k].1.Ask? ==> run[k].1.elapsed >= caps.maxWall
    ensures |RunTaps(caps, w, run).calls| == |w.calls| && NeverLet(RunTaps(caps, w, run).calls[i])
    decreases run
  {
    if run != [] {
      LateActionSendsNothing(caps, w, run[0].0, run[0].1, i);
      NothingSentLate(caps, Act(caps, w, run[0].0, run[0].1), run[1..], i);
    }
  }

  // ----- one call is a run of its actions

  /** The critical sections ServeHTTP goes through; `sent` says whether a call without a reply left
      the process. */
  function ActionsOf(refused: bool, bodyRead: bool, promptBytes: nat, maxOutput: int, elapsed: int, reply: Reply, sent: bool)
    : seq<Action>
  {
    if !bodyRead then [Begin, ReadError]
    else if refused then [Begin, Action.Ask(promptBytes, maxOutput, elapsed), CountRefusal]
    else match reply
      case NoReply(s) =>
        if sent then [Begin, Action.Ask(promptBytes, maxOutput, elapsed), Send, GiveUp(s), CountFailure]
        else [Begin, Action.Ask(promptBytes, maxOutput, elapsed), GiveUp(s), CountFailure]
      case Replied(s, report) =>
        [Begin, Action.Ask(promptBytes, maxOutput, elapsed), Send, Answer(s, UsageOf(report)), Charge]
  }

  function Of(i: nat, actions: seq<Action>): (r: seq<(nat, Action)>)
    ensures |r| == |actions|
    ensures forall k :: 0 <= k < |actions| ==> r[k] == (i, actions[k])
  {
    seq(|actions|, k requires 0 <= k < |actions| => (i, actions[k]))
  }

  /** A world seen from one call: the books, the call, and its tap. */
  datatype Seat = Seat(books: Books, call: Call, usage: TapUsage)

  function SeatAfter(caps: Caps, x: Seat, a: Action): Seat {
    match CallAfter(caps, x.books, x.call, a)
    case None => x
    case Some(c) => Seat(BooksAfter(caps, x.books, x.call, a), c, AddTraffic(x.usage, x.call, c))
  }

  function SeatRun(caps: Caps, x: Seat, actions: seq<Action>): Seat
    decreases actions
  {
    if actions == [] then x else SeatRun(caps, SeatAfter(caps, x, actions[0]), actions[1..])
  }

  ghost predicate Sits(w: World, i: nat, x: Seat) {
    i < |w.calls| && w.calls[i] == x.call && x.call.tap < |w.taps| && w.taps[x.call.tap] == x.usage && w.books == x.books
  }

  /** Running one call's actions moves the books, the call and its tap, and nothing else. */
  lemma {:induction false} RunIsSeatRun(caps: Caps, w: World, i: nat, x: Seat, actions: seq<Action>)
    requires Sits(w, i, x)
    ensures var after, y := RunTaps(caps, w, Of(i, actions)), SeatRun(caps, x, actions);
      && Sits(after, i, y) && y.call.tap == x.call.tap
      && after.taps == w.taps[x.call.tap := y.usage] && after.calls == w.calls[i := y.call]
    decreases actions
  {
    if actions == [] {
      assert w.taps[x.call.tap := x.usage] == w.taps && w.calls[i := x.call] == w.calls;
    } else {
      var w1, x1 := Act(caps, w, i, actions[0]), SeatAfter(caps, x, actions[0]);
      assert Of(i, actions)[1..] == Of(i, actions[1..]);
      SeatStep(caps, w, i, x, actions[0]);
      RunIsSeatRun(caps, w1, i, x1, actions[1..]);
      var y := SeatRun(caps, x1, actions[1..]);
      assert w1.taps[x.call.tap := y.usage] == w.taps[x.call.tap := y.usage];
      assert w1.calls[i := y.call] == w.calls[i := y.call];
    }
  }

  lemma SeatStep(caps: Caps, w: World, i: nat, x: Seat, a: Action)
    requires Sits(w, i, x)
    ensures var w1, x1 := Act(caps, w, i, a), SeatAfter(caps, x, a);
      && Sits(w1, i, x1) && x1.call.tap == x.call.tap
      && w1.taps == w.taps[x.call.tap := x1.usage] && w1.calls == w.calls[i := x1.call]
  {
    assert w.taps[x.call.tap := x.usage] == w.taps && w.calls[i := x.call] == w.calls;
  }

  /** A call that was let out, before it is sent. */
  function LetOut(caps: Caps, b: Books, tap: nat, u: TapUsage, r: Reservation, elapsed: int): Seat {
    Seat(Admitted(caps, b, r, elapsed), NewCall(tap).(phase := Let, counted := 1, ticket := Open(r)),
         u.(calls := u.calls + 1))
  }

  lemma AskedSeat(caps: Caps, b: Books, u: TapUsage, tap: nat, promptBytes: nat, maxOutput: int, elapsed: int)
    ensures var r := Estimate(caps, promptBytes, maxOutput);
      var x := SeatAfter(caps, SeatAfter(caps, Seat(b, NewCall(tap), u), Begin), Action.Ask(promptBytes, maxOutput, elapsed));
      x == if Refusal(caps, b, r, elapsed).None? then LetOut(caps, b, tap, u, r, elapsed)
           else Seat(Admitted(caps, b, r, elapsed), NewCall(tap).(phase := Refusing, counted := 1), u.(calls := u.calls + 1))
  {
  }

  lemma FailedSeat(caps: Caps, x: Seat, status: int, sent: bool)
    requires x.call.phase == Let && x.call.ticket.Open? && x.call.errors == 0 && status >= 300
    ensures var out := if sent then SeatAfter(caps, x, Send) else x;
      var y := SeatAfter(caps, SeatAfter(caps, out, GiveUp(status)), CountFailure);
      && y.books == Settled(caps, x.books, x.call.ticket.res, status, NoUsage)
      && y.usage == x.usage.(httpErrors := x.usage.httpErrors + 1) && y.call.phase == Done
  {
  }

  lemma AnsweredSeat(caps: Caps, x: Seat, status: int, u: Usage)
    requires x.call.phase == Let && x.call.ticket.Open? && x.call.errors == 0 && x.call.reported == Usage(0, 0, 0)
    ensures var y := SeatAfter(caps, SeatAfter(caps, SeatAfter(caps, x, Send), Answer(status, u)), Charge);
      && y.books == Settled(caps, x.books, x.call.ticket.res, status, u)
      && y.usage == Recorded(x.usage, status, u) && y.call.phase == Done
  {
  }

  lemma SeatOfRun(
    caps: Caps, b: Books, u: TapUsage, tap: nat, bodyRead: bool, promptBytes: nat, maxOutput: int, elapsed: int,
    reply: Reply, sent: bool)
    requires reply.NoReply? ==> reply.status >= 300
    ensures var refused := Refusal(caps, b, Estimate(caps, promptBytes, maxOutput), elapsed).Some?;
      var y := SeatRun(caps, Seat(b, NewCall(tap), u), ActionsOf(refused, bodyRead, promptBytes, maxOutput, elapsed, reply, sent));
      && y.books == ServedBooks(caps, b, bodyRead, promptBytes, maxOutput, elapsed, reply)
      && y.usage == ServedUsage(u, bodyRead && !refused, reply)
      && y.call.phase == Done
  {
    var r := Estimate(caps, promptBytes, maxOutput);
    var x0 := Seat(b, NewCall(tap), u);
    var ask := Action.Ask(promptBytes, maxOutput, elapsed);
    if !bodyRead {
      TwoActions(caps, x0, Begin, ReadError);
    } else {
      AskedSeat(caps, b, u, tap, promptBytes, maxOutput, elapsed);
      var x := LetOut(caps, b, tap, u, r, elapsed);
      if Refusal(caps, b, r, elapsed).Some? {
        ThreeActions(caps, x0, Begin, ask, CountRefusal);
      } else {
        match reply {
          case NoReply(s) =>
            FailedSeat(caps, x, s, sent);
            if sent {
              TwoThenThree(caps, x0, Begin, ask, Send, GiveUp(s), CountFailure);
            } else {
              FourActions(caps, x0, Begin, ask, GiveUp(s), CountFailure);
            }
          case Replied(s, report) =>
            AnsweredSeat(caps, x, s, UsageOf(report));
            TwoThenThree(caps, x0, Begin, ask, Send, Answer(s, UsageOf(report)), Charge);
        }
      }
    }
  }

  lemma FourActions(caps: Caps, x: Seat, a: Action, b: Action, c: Action, d: Action)
    ensures SeatRun(caps, x, [a, b, c, d])
      == SeatAfter(caps, SeatAfter(caps, SeatAfter(caps, SeatAfter(caps, x, a), b), c), d)
  {
    assert [a, b, c, d][1..] == [b, c, d];
    ThreeActions(caps, SeatAfter(caps, x, a), b, c, d);
  }

  lemma TwoActions(caps: Caps, x: Seat, a: Action, b: Action)
    ensures SeatRun(caps, x, [a, b]) == SeatAfter(caps, SeatAfter(caps, x, a), b)
  {
    assert [a, b][1..] == [b] && [b][1..] == [];
    assert SeatRun(caps, SeatAfter(caps, x, a), [b]) == SeatRun(caps, SeatAfter(caps, SeatAfter(caps, x, a), b), []);
  }

  lemma ThreeActions(caps: Caps, x: Seat, a: Action, b: Action, c: Action)
    ensures SeatRun(caps, x, [a, b, c]) == SeatAfter(caps, SeatAfter(caps, SeatAfter(caps, x, a), b), c)
  {
    assert [a, b, c][1..] == [b, c];
    TwoActions(caps, SeatAfter(caps, x, a), b, c);
  }

  lemma TwoThenThree(caps: Caps, x: Seat, a: Action, b: Action, c: Action, d: Action, e: Action)
    ensures SeatRun(caps, x, [a, b, c, d, e])
      == SeatAfter(caps, SeatAfter(caps, SeatAfter(caps, SeatAfter(caps, SeatAfter(caps, x, a), b), c), d), e)
  {
    assert [a, b, c, d, e][1..] == [b, c, d, e] && [b, c, d, e][1..] == [c, d, e];
    ThreeActions(caps, SeatAfter(caps, SeatAfter(caps, x, a), b), c, d, e);
    assert SeatRun(caps, SeatAfter(caps, x, a), [b, c, d, e])
      == SeatRun(caps, SeatAfter(caps, SeatAfter(caps, x, a), b), [c, d, e]);
  }

  /** ServeHTTP is a run of its critical sections: from any world, the actions of a new call leave the
      books and the tap exactly as ServeHTTP does, the call done, and everything else alone. */
  lemma ServeIsRun(
    caps: Caps, w: World, i: nat, bodyRead: bool, promptBytes: nat, maxOutput: int, elapsed: int, reply: Reply,
    sent: bool)
    requires i < |w.calls| && w.calls[i] == NewCall(w.calls[i].tap) && w.calls[i].tap < |w.taps|
    requires reply.NoReply? ==> reply.status >= 300
    ensures var t, b := w.calls[i].tap, w.books;
      var refused := Refusal(caps, b, Estimate(caps, promptBytes, maxOutput), elapsed).Some?;
      var after := RunTaps(caps, w, Of(i, ActionsOf(refused, bodyRead, promptBytes, maxOutput, elapsed, reply, sent)));
      && after.books == ServedBooks(caps, b, bodyRead, promptBytes, maxOutput, elapsed, reply)
      && after.taps == w.taps[t := ServedUsage(w.taps[t], bodyRead && !refused, reply)]
      && |after.calls| == |w.calls| && after.calls[i].phase == Done
      && forall j :: 0 <= j < |w.calls| && j != i ==> after.calls[j] == w.calls[j]
  {
    var t := w.calls[i].tap;
    var x := Seat(w.books, w.calls[i], w.taps[t]);
    var refused := Refusal(caps, w.books, Estimate(caps, promptBytes, maxOutput), elapsed).Some?;
    RunIsSeatRun(caps, w, i, x, ActionsOf(refused, bodyRead, promptBytes, maxOutput, elapsed, reply, sent));
    SeatOfRun(caps, w.books, w.taps[t], t, bodyRead, promptBytes, maxOutput, elapsed, reply, sent);
  }
}
