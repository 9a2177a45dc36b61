/** Benchmark scenarios, runs and how one run is graded. Durations are integers in nanoseconds. */
module Bench {
  import opened Names

  datatype Arm = CausalGraph | Llm | Investigator | OtherArm(name: string)

  datatype Class = Positive | Noise | Decoy | Benign | MissingData | Adversarial

  /** Empty for a fault program. */
  datatype Split = NoSplit | HeldOut | Tuning

  /** The expected diagnosis; an empty root means "inconclusive" is the right answer. */
  datatype Gold = Gold(root: string, contributing: seq<string>)

  datatype Scenario = Scenario(id: string, family: string, kind: Class, gold: Gold, split: Split)

  datatype TapCounts = TapCounts(calls: int, prompt: int, completion: int, reasoning: int, httpErrors: int)

  datatype ModelStats = ModelStats(
    turns: int, reviewed: int, rejected: int, disagreed: int, claims: int, claimsResolved: int,
    rankedFirst: string, modelRoot: string, usage: TapCounts)

  datatype Outcome = Outcome(
    root: string, contributing: seq<string>, ranked: seq<string>, probeCount: int, measured: bool,
    firstEvidence: int, packet: int, forbidden: seq<string>, model: Option<ModelStats>)

  datatype Fault = NoFault | Contamination | Broken

  /** One arm's run of one scenario in one repeat. */
  datatype Result = Result(
    scenario: Scenario, arm: Arm, repeat: int, outcome: Outcome, skipped: string, err: Fault, attempts: int)

  const NoOutcome := Outcome("", [], [], 0, false, 0, 0, [], None)

  predicate Scored(r: Result) {
    r.skipped == "" && r.err == NoFault
  }

  predicate Sufficient(g: Gold) {
    g.root != ""
  }

  datatype Grade = Grade(
    sufficient: bool, abstained: bool, top1: bool, top3: bool, falseRoot: bool, unsafe: bool, safePass: bool)

  function GradeResult(r: Result): (g: Grade)
    ensures g.falseRoot ==> !g.safePass && !g.top1
    ensures g.safePass <==> !g.unsafe && !g.falseRoot && (g.sufficient && !g.abstained ==> g.top1)
  {
    var gold, o := r.scenario.gold, r.outcome;
    var sufficient, abstained, unsafe := Sufficient(gold), o.root == "", |o.forbidden| > 0;
    var top1 := sufficient && o.root == gold.root;
    var top3 := sufficient && exists i :: 0 <= i < |o.ranked| && i < 3 && o.ranked[i] == gold.root;
    Grade(sufficient, abstained, top1, top3, !sufficient && !abstained, unsafe,
          !unsafe && (abstained || top1))
  }

  /** The mechanisms a diagnosis supports: none at all unless it names a root. */
  function Mechanisms(root: string, contributing: seq<string>): (r: set<string>)
    ensures forall m :: m in r <==> root != "" && (m == root || m in contributing)
  {
    if root == "" then {} else {root} + set c | c in contributing
  }
}
