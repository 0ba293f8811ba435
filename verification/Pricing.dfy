/** Deterministic token-cost estimation with half-up rounding to 1e-8 dollars. */
module Pricing {
  import opened Domain

  const TOKENS_PER_RATE := 1_000_000.0
  const QUANTA_PER_DOLLAR := 100_000_000.0

  datatype Usage = Usage(input: int, cached: int, output: int)

  predicate StartsWith(s: string, prefix: string) {
    |prefix| <= |s| && s[..|prefix|] == prefix
  }

  function RatesForModel(model: string, cfg: Settings): TokenRates {
    if model == cfg.fallbackModel || StartsWith(model, cfg.fallbackModel + "-")
    then cfg.fallbackRates
    else cfg.primaryRates
  }

  /** The fallback model and its snapshots have the fallback rates, every other model has the primary rates. */
  lemma RatesByRole(model: string, suffix: string, cfg: Settings)
    ensures RatesForModel(cfg.fallbackModel, cfg) == cfg.fallbackRates
    ensures RatesForModel(cfg.fallbackModel + "-" + suffix, cfg) == cfg.fallbackRates
    ensures model != cfg.fallbackModel && (forall s: string :: model != cfg.fallbackModel + "-" + s) ==>
              RatesForModel(model, cfg) == cfg.primaryRates
  {
    var prefix := cfg.fallbackModel + "-";
    assert (prefix + suffix)[..|prefix|] == prefix;
    if StartsWith(model, prefix) {
      assert model == prefix + model[|prefix|..];
    }
  }

  /** The cost before rounding, after clamping the token counts. */
  function ExactCost(rates: TokenRates, u: Usage): real {
    var cached := Min(Max(0, u.cached), Max(0, u.input));
    var uncached := Max(0, u.input) - cached;
    (uncached as real * rates.input + cached as real * rates.cached + Max(0, u.output) as real * rates.output)
    / TOKENS_PER_RATE
  }

  function Quantize(x: real): real {
    (x * QUANTA_PER_DOLLAR + 0.5).Floor as real / QUANTA_PER_DOLLAR
  }

  function EstimateCost(rates: TokenRates, u: Usage): real {
    Quantize(ExactCost(rates, u))
  }

  // ---------- properties ----------

  lemma QuantizeMonotone(x: real, y: real)
    requires x <= y
    ensures Quantize(x) <= Quantize(y)
  {
    var a, b := x * QUANTA_PER_DOLLAR + 0.5, y * QUANTA_PER_DOLLAR + 0.5;
    assert a.Floor <= b.Floor;
  }

  lemma EstimateNonNegative(rates: TokenRates, u: Usage)
    requires ValidRates(rates)
    ensures 0.0 <= ExactCost(rates, u)
    ensures 0.0 <= EstimateCost(rates, u)
  {
  }

  /** The estimate is a whole number of quanta within half a quantum of the exact clamped cost, ties going up. */
  lemma EstimateWithinHalfQuantum(rates: TokenRates, u: Usage)
    ensures (EstimateCost(rates, u) * QUANTA_PER_DOLLAR).Floor as real == EstimateCost(rates, u) * QUANTA_PER_DOLLAR
    ensures -0.5 / QUANTA_PER_DOLLAR < EstimateCost(rates, u) - ExactCost(rates, u) <= 0.5 / QUANTA_PER_DOLLAR
  {
  }

  /** Counts as a provider reports them: nothing negative, cached input within input. */
  ghost predicate Reported(u: Usage) {
    0 <= u.cached <= u.input && 0 <= u.output
  }

  /** One token of each kind costs its own rate; with ExactCostAdds that fixes the cost of every reported usage. */
  lemma UnitPrices(rates: TokenRates)
    ensures ExactCost(rates, Usage(1, 0, 0)) == rates.input / 1_000_000.0
    ensures ExactCost(rates, Usage(1, 1, 0)) == rates.cached / 1_000_000.0
    ensures ExactCost(rates, Usage(0, 0, 1)) == rates.output / 1_000_000.0
  {
  }

  /** Unchecked counts cost what the reported usage closest to them costs. */
  lemma CountsAreClamped(rates: TokenRates, u: Usage)
    ensures u.input < 0 ==> ExactCost(rates, u) == ExactCost(rates, u.(input := 0))
    ensures u.output < 0 ==> ExactCost(rates, u) == ExactCost(rates, u.(output := 0))
    ensures u.cached < 0 ==> ExactCost(rates, u) == ExactCost(rates, u.(cached := 0))
    ensures 0 <= u.input < u.cached ==> ExactCost(rates, u) == ExactCost(rates, u.(cached := u.input))
  {
  }

  ghost function Total(us: seq<Usage>): Usage {
    if us == [] then Usage(0, 0, 0)
    else
      var rest := Total(us[..|us| - 1]);
      var u := us[|us| - 1];
      Usage(rest.input + u.input, rest.cached + u.cached, rest.output + u.output)
  }

  ghost function SumOfEstimates(rates: TokenRates, us: seq<Usage>): real {
    if us == [] then 0.0
    else SumOfEstimates(rates, us[..|us| - 1]) + EstimateCost(rates, us[|us| - 1])
  }

  lemma {:induction false} TotalReported(us: seq<Usage>)
    requires forall u :: u in us ==> Reported(u)
    ensures Reported(Total(us))
  {
    if us == [] {
    } else {
      assert us[|us| - 1] in us;
      TotalReported(us[..|us| - 1]);
    }
  }

  lemma ExactCostAdds(rates: TokenRates, a: Usage, b: Usage)
    requires Reported(a) && Reported(b)
    ensures ExactCost(rates, Usage(a.input + b.input, a.cached + b.cached, a.output + b.output))
         == ExactCost(rates, a) + ExactCost(rates, b)
  {
    calc {
      (a.input + b.input - (a.cached + b.cached)) as real * rates.input;
      ((a.input - a.cached) as real + (b.input - b.cached) as real) * rates.input;
      (a.input - a.cached) as real * rates.input + (b.input - b.cached) as real * rates.input;
    }
    assert (a.cached + b.cached) as real * rates.cached == a.cached as real * rates.cached + b.cached as real * rates.cached;
    assert (a.output + b.output) as real * rates.output == a.output as real * rates.output + b.output as real * rates.output;
  }

  lemma {:induction false} SumDrift(rates: TokenRates, us: seq<Usage>)
    requires forall u :: u in us ==> Reported(u)
    ensures -(|us| as real) * 0.5 / QUANTA_PER_DOLLAR
         <= SumOfEstimates(rates, us) - ExactCost(rates, Total(us))
         <= |us| as real * 0.5 / QUANTA_PER_DOLLAR
  {
    if us == [] {
      assert ExactCost(rates, Total(us)) == 0.0;
    } else {
      hide ExactCost, EstimateCost;
      var front, last := us[..|us| - 1], us[|us| - 1];
      assert last in us;
      SumDrift(rates, front);
      TotalReported(front);
      ExactCostAdds(rates, Total(front), last);
      EstimateWithinHalfQuantum(rates, last);
      assert |us| as real == |front| as real + 1.0;
    }
  }

  /** Summing n estimates instead of estimating the total moves the cost by at most (n + 1) / 2 quanta. */
  lemma SumOfEstimatesBound(rates: TokenRates, us: seq<Usage>)
    requires forall u :: u in us ==> Reported(u)
    ensures var drift := SumOfEstimates(rates, us) - EstimateCost(rates, Total(us));
            var bound := (|us| + 1) as real * 0.5 / QUANTA_PER_DOLLAR;
            -bound <= drift <= bound
  {
    SumDrift(rates, us);
    EstimateWithinHalfQuantum(rates, Total(us));
    assert (|us| + 1) as real == |us| as real + 1.0;
  }

  /** The rate is a whole number of cents per million tokens. */
  ghost predicate WholeCents(rate: real) {
    (rate * 100.0).Floor as real == rate * 100.0
  }

  lemma IntegerProduct(n: int, rate: real)
    requires WholeCents(rate)
    ensures n as real * rate * 100.0 == (n * (rate * 100.0).Floor) as real
  {
    var k := (rate * 100.0).Floor;
    calc {
      n as real * rate * 100.0;
      n as real * (rate * 100.0);
      n as real * k as real;
      (n * k) as real;
    }
  }

  /** With rates in whole cents nothing is rounded away, so estimates add up exactly. */
  lemma WholeCentRatesAreExact(rates: TokenRates, u: Usage)
    requires WholeCents(rates.input) && WholeCents(rates.cached) && WholeCents(rates.output)
    ensures EstimateCost(rates, u) == ExactCost(rates, u)
  {
    var cached := Min(Max(0, u.cached), Max(0, u.input));
    var uncached := Max(0, u.input) - cached;
    var output := Max(0, u.output);
    IntegerProduct(uncached, rates.input);
    IntegerProduct(cached, rates.cached);
    IntegerProduct(output, rates.output);
    var q := uncached * (rates.input * 100.0).Floor + cached * (rates.cached * 100.0).Floor
             + output * (rates.output * 100.0).Floor;
    assert ExactCost(rates, u) * QUANTA_PER_DOLLAR == q as real;
    assert (q as real + 0.5).Floor == q;
  }

  lemma NothingCosts(rates: TokenRates)
    ensures ExactCost(rates, Usage(0, 0, 0)) == 0.0
  {
  }

  lemma {:induction false} WholeCentEstimatesAdd(rates: TokenRates, us: seq<Usage>)
    requires WholeCents(rates.input) && WholeCents(rates.cached) && WholeCents(rates.output)
    requires forall u :: u in us ==> Reported(u)
    ensures SumOfEstimates(rates, us) == EstimateCost(rates, Total(us))
  {
    hide ExactCost, EstimateCost, WholeCents;
    WholeCentRatesAreExact(rates, Total(us));
    if us == [] {
      NothingCosts(rates);
    } else {
      var front, last := us[..|us| - 1], us[|us| - 1];
      assert last in us;
      WholeCentEstimatesAdd(rates, front);
      TotalReported(front);
      ExactCostAdds(rates, Total(front), last);
      WholeCentRatesAreExact(rates, Total(front));
      WholeCentRatesAreExact(rates, last);
    }
  }

  /** Reporting more cached tokens never raises the estimate. */
  ghost predicate CachingNeverCosts(rates: TokenRates) {
    forall input: int, c1: int, c2: int, output: int ::
      c1 <= c2 ==> EstimateCost(rates, Usage(input, c2, output)) <= EstimateCost(rates, Usage(input, c1, output))
  }

  lemma ScaleMonotone(m: int, n: int, x: real)
    requires m <= n && 0.0 <= x
    ensures m as real * x <= n as real * x
  {
    assert 0.0 <= (n - m) as real * x;
  }

  /** The input tokens that are billed as cached. */
  function Cached(input: int, cached: int): int { Min(Max(0, cached), Max(0, input)) }

  /** The cost without any discount, before it is scaled. */
  function FullPrice(rates: TokenRates, input: int, output: int): real {
    Max(0, input) as real * rates.input + Max(0, output) as real * rates.output
  }

  lemma CostIsDiscounted(rates: TokenRates, input: int, cached: int, output: int)
    ensures ExactCost(rates, Usage(input, cached, output))
         == (FullPrice(rates, input, output) - Cached(input, cached) as real * (rates.input - rates.cached))
            / TOKENS_PER_RATE
  {
    Discount(Max(0, input), Cached(input, cached), rates.input, rates.cached);
  }

  lemma Discount(n: int, d: int, input: real, cached: real)
    ensures (n - d) as real * input + d as real * cached == n as real * input - d as real * (input - cached)
  {
    assert (n - d) as real == n as real - d as real;
    calc {
      (n as real - d as real) * input + d as real * cached;
      n as real * input - d as real * input + d as real * cached;
      n as real * input - d as real * (input - cached);
    }
  }

  lemma LargerDiscount(price: real, x: real, y: real)
    requires x <= y
    ensures (price - y) / TOKENS_PER_RATE <= (price - x) / TOKENS_PER_RATE
  {
  }

  lemma CachedMonotone(input: int, c1: int, c2: int)
    requires c1 <= c2
    ensures Cached(input, c1) <= Cached(input, c2)
  {
  }

  lemma CachingLowers(rates: TokenRates, input: int, c1: int, c2: int, output: int)
    requires rates.cached <= rates.input && c1 <= c2
    ensures EstimateCost(rates, Usage(input, c2, output)) <= EstimateCost(rates, Usage(input, c1, output))
  {
    hide ExactCost, Cached, FullPrice, Quantize;
    var d1, d2, saving := Cached(input, c1), Cached(input, c2), rates.input - rates.cached;
    CachedMonotone(input, c1, c2);
    ScaleMonotone(d1, d2, saving);
    CostIsDiscounted(rates, input, c1, output);
    CostIsDiscounted(rates, input, c2, output);
    LargerDiscount(FullPrice(rates, input, output), d1 as real * saving, d2 as real * saving);
    QuantizeMonotone(ExactCost(rates, Usage(input, c2, output)), ExactCost(rates, Usage(input, c1, output)));
  }

  lemma CachingRaises(rates: TokenRates) returns (input: nat)
    requires rates.input < rates.cached
    ensures EstimateCost(rates, Usage(input, 0, 0)) < EstimateCost(rates, Usage(input, input, 0))
  {
    var gap := rates.cached - rates.input;
    var step := 1.0 / (100.0 * gap);
    assert 0.0 < step;
    input := step.Floor + 1;
    assert step <= input as real;
    assert step * (100.0 * gap) == 1.0;
    assert 1.0 <= input as real * (100.0 * gap);
    var low, high := ExactCost(rates, Usage(input, 0, 0)), ExactCost(rates, Usage(input, input, 0));
    assert (high - low) * QUANTA_PER_DOLLAR == input as real * (100.0 * gap);
    assert high * QUANTA_PER_DOLLAR >= low * QUANTA_PER_DOLLAR + 1.0;
    assert (high * QUANTA_PER_DOLLAR + 0.5).Floor >= (low * QUANTA_PER_DOLLAR + 0.5).Floor + 1;
  }

  /** The discount holds for all token counts exactly when the cached rate is at most the input rate. */
  lemma CachingNeverCostsIff(rates: TokenRates)
    ensures CachingNeverCosts(rates) <==> rates.cached <= rates.input
  {
    if rates.cached <= rates.input {
      forall input: int, c1: int, c2: int, output: int | c1 <= c2
        ensures EstimateCost(rates, Usage(input, c2, output)) <= EstimateCost(rates, Usage(input, c1, output))
      {
        CachingLowers(rates, input, c1, c2, output);
      }
    } else {
      var input := CachingRaises(rates);
      assert 0 <= input;
    }
  }
}
