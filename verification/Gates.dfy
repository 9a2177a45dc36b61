/** Release gates. Rates are exact rationals, so a gate with a tolerance is an integer inequality. */
module Gates {
  import opened Tally
  import opened Quantile

  const MinTop1 := 0.80
  const MinInsufficientAbstention := 0.95
  const MaxForbidden := 0
  const MaxVariantDrop := 0.10
  const MaxPacketP95 := 120_000_000_000
  const MaxLlmParityDrop := 0.0
  const Epsilon := 0.000000001
  const Billion := 1_000_000_000

  datatype Status = Pass | Fail | NotEvaluated

  function PassIf(ok: bool): Status {
    if ok then Pass else Fail
  }

  function RateOf(p: Prop): real
    requires p.n > 0
  {
    p.k as real / p.n as real
  }

  /** A rate against a floor, within the tolerance. A rate without a denominator is not a number,
      and no comparison with it holds. */
  function FloorStatus(p: Prop, floor: real): Status {
    if p.n == 0 then NotEvaluated else PassIf(p.n > 0 && RateOf(p) + Epsilon >= floor)
  }

  function Top1Status(t: Tally): Status {
    FloorStatus(t.rates.top1, MinTop1)
  }

  function AbstentionStatus(t: Tally): Status {
    FloorStatus(t.rates.insufficientAbstention, MinInsufficientAbstention)
  }

  function ReplayTop1Status(t: Tally): Status {
    FloorStatus(t.rates.cleanTop1, MinTop1)
  }

  function ForbiddenStatus(t: Tally): Status {
    if t.runs == 0 then NotEvaluated else PassIf(t.forbidden <= MaxForbidden)
  }

  function VariantStatus(variant: Prop, clean: Prop): Status {
    if variant.n == 0 || clean.n == 0 then NotEvaluated
    else
      PassIf(variant.n > 0 && clean.n > 0
             && RateOf(clean) - RateOf(variant) <= MaxVariantDrop + Epsilon)
  }

  function PacketStatus(t: Tally): Status {
    match NearestRank(t.times.packets, 0.95)
    case None => NotEvaluated
    case Some(p95) => PassIf(p95 < MaxPacketP95)
  }

  function ClaimRefsStatus(t: Tally): Status {
    if t.model.claims == 0 then NotEvaluated else PassIf(t.model.claimsResolved == t.model.claims)
  }

  /** Two rates within the parity tolerance. */
  predicate AtParity(model: Prop, graph: Prop) {
    && model.n > 0 && graph.n > 0
    && RateOf(model) + MaxLlmParityDrop + Epsilon >= RateOf(graph)
  }

  function ParityStatus(graph: Tally, model: Tally, live: bool): Status {
    if live || graph.rates.safePass.n == 0 || model.rates.safePass.n == 0 then NotEvaluated
    else
      PassIf(AtParity(model.rates.safePass, graph.rates.safePass)
             && (graph.rates.top1.n > 0 && model.rates.top1.n > 0 ==> AtParity(model.rates.top1, graph.rates.top1)))
  }

  // ----- tolerant comparisons as integer inequalities

  lemma CrossMultiply(k: real, n: real, num: real, den: real, e: real)
    requires n > 0.0 && den > 0.0
    ensures k / n + e >= num / den <==> num * n - den * k <= e * (den * n)
  {
    var x, y := k / n, num / den;
    var p := den * n;
    assert x * n == k && y * den == num;
    assert p > 0.0;
    assert p * x == den * k && p * y == num * n by {
      assert den * n * x == den * (n * x);
      assert den * n * y == n * (den * y);
    }
    if x + e >= y {
      assert p * (x + e - y) >= 0.0;
      assert p * (x + e - y) == p * x + p * e - p * y;
    } else {
      assert p * (y - x - e) > 0.0;
      assert p * (y - x - e) == p * y - p * x - p * e;
    }
  }

  /** k/n is within a billionth of num/den from below exactly when this integer inequality holds. */
  lemma TolerantFloor(k: int, n: int, num: int, den: int)
    requires n > 0 && den > 0
    ensures k as real / n as real + Epsilon >= num as real / den as real
      <==> Billion * (num * n - den * k) <= den * n
  {
    CrossMultiply(k as real, n as real, num as real, den as real, Epsilon);
    assert num as real * n as real - den as real * k as real == (num * n - den * k) as real;
    assert den as real * n as real == (den * n) as real;
    var d, p := num * n - den * k, den * n;
    assert d as real <= Epsilon * p as real <==> Billion * d <= p;
  }

  /** With a small denominator the tolerance lets nothing through that the exact comparison would
      not. */
  lemma SmallTolerance(d: int, p: int)
    requires 0 < p < Billion
    ensures Billion * d <= p <==> d <= 0
  {
  }

  // ----- the top-1 gate

  /** For every tally the gate is one integer inequality. */
  lemma Top1Exactly(p: Prop)
    requires p.n > 0
    ensures FloorStatus(p, MinTop1) == Pass <==> Billion * (4 * p.n - 5 * p.k) <= 5 * p.n
    ensures FloorStatus(p, MinTop1) != NotEvaluated
  {
    TolerantFloor(p.k, p.n, 4, 5);
    assert 4 as real / 5 as real == MinTop1;
  }

  /** Below 200 000 004 runs that is four hits in five. */
  lemma Top1IsFourInFive(p: Prop)
    requires 0 < p.n < 200_000_004
    ensures FloorStatus(p, MinTop1) == Pass <==> 5 * p.k >= 4 * p.n
  {
    Top1Exactly(p);
    if 4 * p.n - 5 * p.k == 1 {
      assert p.n % 5 == 4;
    }
  }

  /** At 200 000 004 runs the tolerance lets one miss too many through. */
  lemma Top1BoundIsTight()
    ensures var p := Prop(160_000_003, 200_000_004);
      FloorStatus(p, MinTop1) == Pass && 5 * p.k < 4 * p.n
  {
    Top1Exactly(Prop(160_000_003, 200_000_004));
  }

  // ----- the abstention gate

  lemma AbstentionExactly(p: Prop)
    requires p.n > 0
    ensures FloorStatus(p, MinInsufficientAbstention) == Pass <==> Billion * (19 * p.n - 20 * p.k) <= 20 * p.n
    ensures FloorStatus(p, MinInsufficientAbstention) != NotEvaluated
  {
    TolerantFloor(p.k, p.n, 19, 20);
    assert 19 as real / 20 as real == MinInsufficientAbstention;
  }

  /** Below 50 000 019 runs that is nineteen abstentions in twenty. */
  lemma AbstentionIsNineteenInTwenty(p: Prop)
    requires 0 < p.n < 50_000_019
    ensures FloorStatus(p, MinInsufficientAbstention) == Pass <==> 20 * p.k >= 19 * p.n
  {
    AbstentionExactly(p);
    if 19 * p.n - 20 * p.k == 1 {
      assert p.n % 20 == 19;
    }
  }

  lemma AbstentionBoundIsTight()
    ensures var p := Prop(47_500_018, 50_000_019);
      FloorStatus(p, MinInsufficientAbstention) == Pass && 20 * p.k < 19 * p.n
  {
    AbstentionExactly(Prop(47_500_018, 50_000_019));
  }

  // ----- the variant gates

  lemma Cancel(y: real, w: real)
    requires w > 0.0
    ensures y * w / w == y
  {
    var q := y * w / w;
    assert q * w == y * w;
    assert (q - y) * w == 0.0;
  }

  lemma VariantRates(v: Prop, c: Prop)
    requires v.n > 0 && c.n > 0
    ensures RateOf(c) - RateOf(v) <= MaxVariantDrop + Epsilon
      <==> (10 * v.k + v.n) as real / (10 * v.n) as real + Epsilon >= c.k as real / c.n as real
  {
    var x := v.k as real / v.n as real;
    var n := v.n as real;
    assert x * n == v.k as real;
    assert (10 * v.k + v.n) as real == 10.0 * (x * n) + n;
    assert (10 * v.n) as real == 10.0 * n;
    var whole := 10.0 * n;
    assert (10.0 * (x * n) + n) == (x + 0.1) * whole;
    Cancel(x + 0.1, whole);
  }

  /** A variant may be ten points under clean; below a hundred million pairs of runs exactly that. */
  lemma VariantIsTenPoints(v: Prop, c: Prop)
    requires v.n > 0 && c.n > 0
    ensures VariantStatus(v, c) == Pass
      <==> Billion * (c.k * (10 * v.n) - c.n * (10 * v.k + v.n)) <= c.n * (10 * v.n)
    ensures c.n * v.n < 100_000_000 ==>
      (VariantStatus(v, c) == Pass <==> 10 * (c.k * v.n - v.k * c.n) <= c.n * v.n)
  {
    VariantRates(v, c);
    TolerantFloor(10 * v.k + v.n, 10 * v.n, c.k, c.n);
    TenFold(v.k, v.n, c.k, c.n);
    if c.n * v.n < 100_000_000 {
      Positive(c.n, v.n);
      SmallTolerance(10 * (c.k * v.n - v.k * c.n) - c.n * v.n, 10 * (c.n * v.n));
    }
  }

  lemma TenFold(vk: int, vn: int, ck: int, cn: int)
    ensures ck * (10 * vn) - cn * (10 * vk + vn) == 10 * (ck * vn - vk * cn) - cn * vn
    ensures cn * (10 * vn) == 10 * (cn * vn)
  {
    assert cn * (10 * vk + vn) == cn * (10 * vk) + cn * vn;
    assert cn * (10 * vk) == 10 * (vk * cn);
    assert ck * (10 * vn) == 10 * (ck * vn);
  }

  lemma Positive(a: int, b: int)
    requires a > 0 && b > 0
    ensures a * b > 0
  {
  }

  // ----- parity

  /** Parity is cross-multiplication while the two denominators' product is under a billion. */
  lemma ParityIsCrossMultiplication(model: Prop, graph: Prop)
    requires model.n > 0 && graph.n > 0
    ensures AtParity(model, graph) <==> Billion * (graph.k * model.n - graph.n * model.k) <= graph.n * model.n
    ensures graph.n * model.n < Billion ==>
      (AtParity(model, graph) <==> model.k * graph.n >= graph.k * model.n)
  {
    TolerantFloor(model.k, model.n, graph.k, graph.n);
    Positive(graph.n, model.n);
    if graph.n * model.n < Billion {
      SmallTolerance(graph.k * model.n - graph.n * model.k, graph.n * model.n);
    }
  }

  /** At least as many hits in as many runs is parity, whatever the size. */
  lemma SameRunsParity(model: Prop, graph: Prop)
    requires model.n == graph.n > 0 && model.k >= graph.k
    ensures AtParity(model, graph)
  {
    ParityIsCrossMultiplication(model, graph);
    assert (graph.k - model.k) * graph.n <= 0;
    assert graph.k * model.n - graph.n * model.k == (graph.k - model.k) * graph.n;
    Positive(graph.n, model.n);
  }

  // ----- the packet gate

  /** The p95 gate passes exactly when at least nineteen in twenty measured packets beat the
      ceiling, in whatever order they were measured. */
  lemma PacketIsCount(t: Tally)
    ensures PacketStatus(t) == NotEvaluated <==> t.times.packets == []
    ensures t.times.packets != [] ==>
      (PacketStatus(t) == Pass <==> CountBelow(t.times.packets, MaxPacketP95) >= (19 * |t.times.packets| + 19) / 20)
  {
    if t.times.packets != [] {
      P95IsCount(t.times.packets, MaxPacketP95);
    }
  }
}
