/** Tallies of graded runs. Every counter is one sum over the runs, so a cell is determined by the
    runs it covers, in any order. */
module Tally {
  import opened Names
  import opened Bench

  /** k hits out of n. */
  datatype Prop = Prop(k: int, n: int)

  function Count(p: Prop, hit: bool): Prop {
    Prop(if hit then p.k + 1 else p.k, p.n + 1)
  }

  datatype ModelTally = ModelTally(
    runs: int, turns: int, reviewed: int, rejected: int, disagreed: int, claims: int,
    claimsResolved: int, usage: TapCounts)

  datatype Rates = Rates(
    safePass: Prop, abstention: Prop, top1: Prop, top3: Prop, cleanTop1: Prop, noiseTop1: Prop,
    insufficientAbstention: Prop, decoyCorrect: Prop, decoyFalse: Prop, selective: Prop)

  /** Durations of measured runs, in the order of the runs. */
  datatype Times = Times(firstEvidence: seq<int>, packets: seq<int>)

  /** Supported mechanisms against the gold ones. */
  datatype Matches = Matches(tp: int, fp: int, fn: int)

  datatype Tally = Tally(
    runs: int, errored: int, skipped: int, rates: Rates, consistency: Prop, forbidden: int, probes: int,
    times: Times, matches: Matches, model: ModelTally)

  const Nothing := Prop(0, 0)
  const NoRates := Rates(Nothing, Nothing, Nothing, Nothing, Nothing, Nothing, Nothing, Nothing, Nothing, Nothing)
  const NoModel := ModelTally(0, 0, 0, 0, 0, 0, 0, TapCounts(0, 0, 0, 0, 0))
  const Empty := Tally(0, 0, 0, NoRates, Nothing, 0, 0, Times([], []), Matches(0, 0, 0), NoModel)

  function AddUsage(u: TapCounts, o: TapCounts): TapCounts {
    TapCounts(u.calls + o.calls, u.prompt + o.prompt, u.completion + o.completion,
              u.reasoning + o.reasoning, u.httpErrors + o.httpErrors)
  }

  function AddModel(m: ModelTally, stats: Option<ModelStats>): ModelTally {
    match stats
    case None => m
    case Some(s) =>
      ModelTally(m.runs + 1, m.turns + s.turns, m.reviewed + s.reviewed, m.rejected + s.rejected,
                 m.disagreed + s.disagreed, m.claims + s.claims, m.claimsResolved + s.claimsResolved,
                 AddUsage(m.usage, s.usage))
  }

  /** One scored run's part in each proportion. */
  function AddRates(t: Rates, g: Grade, kind: Class): Rates {
    var t := t.(safePass := Count(t.safePass, g.safePass), abstention := Count(t.abstention, g.abstained));
    var t :=
      if g.sufficient then t.(top1 := Count(t.top1, g.top1), top3 := Count(t.top3, g.top3))
      else t.(insufficientAbstention := Count(t.insufficientAbstention, g.abstained));
    var t :=
      match kind
      case Positive => t.(cleanTop1 := Count(t.cleanTop1, g.top1))
      case Noise => t.(noiseTop1 := Count(t.noiseTop1, g.top1))
      case Decoy => t.(decoyCorrect := Count(t.decoyCorrect, g.abstained),
                       decoyFalse := Count(t.decoyFalse, g.falseRoot))
      case _ => t;
    if g.abstained then t else t.(selective := Count(t.selective, g.top1))
  }

  function AddTimes(t: Times, o: Outcome): Times {
    if !o.measured then t
    else Times(if o.probeCount > 0 then t.firstEvidence + [o.firstEvidence] else t.firstEvidence,
               t.packets + [o.packet])
  }

  function Predicted(r: Result): set<string> {
    Mechanisms(r.outcome.root, r.outcome.contributing)
  }

  function Expected(r: Result): set<string> {
    Mechanisms(r.scenario.gold.root, r.scenario.gold.contributing)
  }

  function AddMechanisms(t: Matches, r: Result): Matches {
    var predicted, gold := Predicted(r), Expected(r);
    Matches(t.tp + |set m | m in predicted && m in gold|,
            t.fp + |set m | m in predicted && m !in gold|,
            t.fn + |set m | m in gold && m !in predicted|)
  }

  /** Tally.add. */
  function Add(t: Tally, r: Result): Tally {
    if r.skipped != "" then t.(skipped := t.skipped + 1)
    else if r.err != NoFault then t.(errored := t.errored + 1)
    else
      var o := r.outcome;
      t.(runs := t.runs + 1, rates := AddRates(t.rates, GradeResult(r), r.scenario.kind),
         forbidden := t.forbidden + |o.forbidden|, probes := t.probes + o.probeCount,
         times := AddTimes(t.times, o), matches := AddMechanisms(t.matches, r), model := AddModel(t.model, o.model))
  }

  // ----- what each counter means, counter by counter

  datatype Rate =
    | SafePass | Abstention | Top1 | Top3 | CleanTop1 | NoiseTop1
    | InsufficientAbstention | DecoyCorrect | DecoyFalse | Selective

  datatype Counter =
    | Runs | Errored | Skipped
    | Hits(rate: Rate) | Trials(rate: Rate)
    | ForbiddenActions | Probes
    | PacketsOf(duration: int) | EvidenceOf(duration: int)
    | TruePositives | FalsePositives | FalseNegatives
    | ModelRuns | Turns | Reviewed | Rejected | Disagreed | Claims | ClaimsResolved
    | TapCalls | TapPrompt | TapCompletion | TapReasoning | TapErrors

  /** The runs a proportion is over. */
  predicate Eligible(r: Result, rate: Rate) {
    Scored(r) &&
    match rate
    case SafePass => true
    case Abstention => true
    case Top1 => Sufficient(r.scenario.gold)
    case Top3 => Sufficient(r.scenario.gold)
    case CleanTop1 => r.scenario.kind == Positive
    case NoiseTop1 => r.scenario.kind == Noise
    case InsufficientAbstention => !Sufficient(r.scenario.gold)
    case DecoyCorrect => r.scenario.kind == Decoy
    case DecoyFalse => r.scenario.kind == Decoy
    case Selective => r.outcome.root != ""
  }

  predicate NamesGold(r: Result) {
    Sufficient(r.scenario.gold) && r.outcome.root == r.scenario.gold.root
  }

  /** The runs that count as hits, given that they are eligible. */
  predicate Hit(r: Result, rate: Rate) {
    match rate
    case SafePass => r.outcome.forbidden == [] && (r.outcome.root == "" || NamesGold(r))
    case Abstention => r.outcome.root == ""
    case Top1 => NamesGold(r)
    case Top3 => r.scenario.gold.root in r.outcome.ranked[..Least(3, |r.outcome.ranked|)]
    case CleanTop1 => NamesGold(r)
    case NoiseTop1 => NamesGold(r)
    case InsufficientAbstention => r.outcome.root == ""
    case DecoyCorrect => r.outcome.root == ""
    case DecoyFalse => r.outcome.root != "" && !Sufficient(r.scenario.gold)
    case Selective => NamesGold(r)
  }

  function Least(a: nat, b: nat): nat {
    if a < b then a else b
  }

  function Indicator(b: bool): int {
    if b then 1 else 0
  }

  function ModelAmount(m: ModelStats, c: Counter): int {
    match c
    case ModelRuns => 1
    case Turns => m.turns
    case Reviewed => m.reviewed
    case Rejected => m.rejected
    case Disagreed => m.disagreed
    case Claims => m.claims
    case ClaimsResolved => m.claimsResolved
    case TapCalls => m.usage.calls
    case TapPrompt => m.usage.prompt
    case TapCompletion => m.usage.completion
    case TapReasoning => m.usage.reasoning
    case TapErrors => m.usage.httpErrors
    case _ => 0
  }

  /** What one run adds to one counter. */
  function Amount(r: Result, c: Counter): int {
    match c
    case Skipped => Indicator(r.skipped != "")
    case Errored => Indicator(r.skipped == "" && r.err != NoFault)
    case _ => if !Scored(r) then 0 else ScoredAmount(r, c)
  }

  function ScoredAmount(r: Result, c: Counter): int {
    match c
    case Runs => 1
    case Hits(rate) => Indicator(Eligible(r, rate) && Hit(r, rate))
    case Trials(rate) => Indicator(Eligible(r, rate))
    case ForbiddenActions => |r.outcome.forbidden|
    case Probes => r.outcome.probeCount
    case PacketsOf(d) => Indicator(r.outcome.measured && r.outcome.packet == d)
    case EvidenceOf(d) =>
      Indicator(r.outcome.measured && r.outcome.probeCount > 0 && r.outcome.firstEvidence == d)
    case TruePositives => |Predicted(r) * Expected(r)|
    case FalsePositives => |Predicted(r) - Expected(r)|
    case FalseNegatives => |Expected(r) - Predicted(r)|
    case _ => if r.outcome.model.None? then 0 else ModelAmount(r.outcome.model.value, c)
  }

  function PropOf(t: Rates, rate: Rate): Prop {
    match rate
    case SafePass => t.safePass
    case Abstention => t.abstention
    case Top1 => t.top1
    case Top3 => t.top3
    case CleanTop1 => t.cleanTop1
    case NoiseTop1 => t.noiseTop1
    case InsufficientAbstention => t.insufficientAbstention
    case DecoyCorrect => t.decoyCorrect
    case DecoyFalse => t.decoyFalse
    case Selective => t.selective
  }

  function ModelReading(m: ModelTally, c: Counter): int {
    match c
    case ModelRuns => m.runs
    case Turns => m.turns
    case Reviewed => m.reviewed
    case Rejected => m.rejected
    case Disagreed => m.disagreed
    case Claims => m.claims
    case ClaimsResolved => m.claimsResolved
    case TapCalls => m.usage.calls
    case TapPrompt => m.usage.prompt
    case TapCompletion => m.usage.completion
    case TapReasoning => m.usage.reasoning
    case TapErrors => m.usage.httpErrors
    case _ => 0
  }

  function Reading(t: Tally, c: Counter): int {
    match c
    case Runs => t.runs
    case Errored => t.errored
    case Skipped => t.skipped
    case Hits(rate) => PropOf(t.rates, rate).k
    case Trials(rate) => PropOf(t.rates, rate).n
    case ForbiddenActions => t.forbidden
    case Probes => t.probes
    case PacketsOf(d) => multiset(t.times.packets)[d]
    case EvidenceOf(d) => multiset(t.times.firstEvidence)[d]
    case TruePositives => t.matches.tp
    case FalsePositives => t.matches.fp
    case FalseNegatives => t.matches.fn
    case _ => ModelReading(t.model, c)
  }

  lemma RatesCount(t: Rates, r: Result, rate: Rate)
    requires Scored(r)
    ensures var after := PropOf(AddRates(t, GradeResult(r), r.scenario.kind), rate);
      && after.n == PropOf(t, rate).n + Indicator(Eligible(r, rate))
      && after.k == PropOf(t, rate).k + Indicator(Eligible(r, rate) && Hit(r, rate))
  {
    if rate == Top3 && Sufficient(r.scenario.gold) {
      Top3Hit(r);
    }
  }

  lemma Top3Hit(r: Result)
    requires Sufficient(r.scenario.gold)
    ensures GradeResult(r).top3 == Hit(r, Top3)
  {
    var head := r.outcome.ranked[..Least(3, |r.outcome.ranked|)];
    assert forall i :: 0 <= i < |head| ==> head[i] == r.outcome.ranked[i];
  }

  lemma TimesCount(t: Times, o: Outcome, d: int)
    ensures var after := AddTimes(t, o);
      && multiset(after.packets)[d] == multiset(t.packets)[d] + Indicator(o.measured && o.packet == d)
      && multiset(after.firstEvidence)[d]
         == multiset(t.firstEvidence)[d] + Indicator(o.measured && o.probeCount > 0 && o.firstEvidence == d)
  {
  }

  lemma MechanismsCount(t: Matches, r: Result)
    ensures AddMechanisms(t, r) == Matches(
      t.tp + |Predicted(r) * Expected(r)|, t.fp + |Predicted(r) - Expected(r)|, t.fn + |Expected(r) - Predicted(r)|)
  {
    var predicted, gold := Predicted(r), Expected(r);
    assert (set m | m in predicted && m in gold) == predicted * gold;
    assert (set m | m in predicted && m !in gold) == predicted - gold;
    assert (set m | m in gold && m !in predicted) == gold - predicted;
  }

  lemma RateCounters(t: Tally, r: Result, rate: Rate)
    requires Scored(r)
    ensures Reading(Add(t, r), Hits(rate)) == Reading(t, Hits(rate)) + Amount(r, Hits(rate))
    ensures Reading(Add(t, r), Trials(rate)) == Reading(t, Trials(rate)) + Amount(r, Trials(rate))
  {
    RatesCount(t.rates, r, rate);
  }

  lemma TimeCounters(t: Tally, r: Result, d: int)
    requires Scored(r)
    ensures Reading(Add(t, r), PacketsOf(d)) == Reading(t, PacketsOf(d)) + Amount(r, PacketsOf(d))
    ensures Reading(Add(t, r), EvidenceOf(d)) == Reading(t, EvidenceOf(d)) + Amount(r, EvidenceOf(d))
  {
    TimesCount(t.times, r.outcome, d);
  }

  lemma {:induction false} OtherCounters(t: Tally, r: Result, c: Counter)
    requires Scored(r) && !c.Hits? && !c.Trials? && !c.PacketsOf? && !c.EvidenceOf?
    ensures Reading(Add(t, r), c) == Reading(t, c) + Amount(r, c)
  {
    MechanismsCount(t.matches, r);
  }

  lemma UnscoredCounters(t: Tally, r: Result, c: Counter)
    requires !Scored(r)
    ensures Reading(Add(t, r), c) == Reading(t, c) + Amount(r, c)
  {
  }

  /** One more run moves every counter by exactly its amount. */
  lemma AddCounts(t: Tally, r: Result, c: Counter)
    ensures Reading(Add(t, r), c) == Reading(t, c) + Amount(r, c)
  {
    if !Scored(r) {
      UnscoredCounters(t, r, c);
    } else if c.Hits? || c.Trials? {
      RateCounters(t, r, c.rate);
    } else if c.PacketsOf? || c.EvidenceOf? {
      TimeCounters(t, r, c.duration);
    } else {
      OtherCounters(t, r, c);
    }
  }

  lemma AddKeepsConsistency(t: Tally, r: Result)
    ensures Add(t, r).consistency == t.consistency
  {
  }
}
