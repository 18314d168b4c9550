/**
 * Token and cost arithmetic behind the traditional-versus-baked comparison:
 * a character-based token estimate, a per-token price table, and the record
 * of per-scenario totals and savings built from them.
 *
 * Prices are exact reals (0.03 / 1000.0 is exactly three hundred-thousandths);
 * the floating-point rounding and range of the Python code are not modelled.
 */
module Helpers {

  /** The exceptions of the Python code that the model keeps: the KeyError of
      the price lookup and the ZeroDivisionError of the percentage.  The
      OverflowError of `tokens * rate` for totals beyond float range is not
      modelled. */
  datatype PyError =
    | KeyError(key: string)   // token type missing from the price table
    | ZeroDivisionError       // percentage saving against a zero baseline

  datatype Result<+T> = Ok(value: T) | Err(error: PyError)

  // ---------------------------------------------------------------------------
  // Token estimate
  // ---------------------------------------------------------------------------

  /** Rough estimate of one token per four characters, rounded down.
      The model name is accepted and ignored. */
  function CountTokens(text: string, model: string := "gpt-4"): (n: nat)
    ensures 4 * n <= |text| < 4 * n + 4
  {
    |text| / 4
  }

  /** The estimate does not depend on the model name. */
  lemma CountTokensIgnoresModel(text: string, m1: string, m2: string)
    ensures CountTokens(text, m1) == CountTokens(text, m2)
  {
  }

  lemma CountTokensEmpty()
    ensures CountTokens("") == 0
  {
  }

  /** Appending characters never lowers the estimate, and raises it by at most
      one token per started group of four characters. */
  lemma CountTokensAppend(s: string, t: string)
    ensures CountTokens(s) + CountTokens(t) <= CountTokens(s + t) <= CountTokens(s) + CountTokens(t) + 1
  {
  }

  /** Every extra four characters add exactly one token. */
  lemma CountTokensFourMore(s: string, t: string)
    requires |t| == 4
    ensures CountTokens(s + t) == CountTokens(s) + 1
  {
  }

  /** The estimate is monotone in the length of the text. */
  lemma CountTokensMonotone(s: string, t: string)
    requires |s| <= |t|
    ensures CountTokens(s) <= CountTokens(t)
  {
  }

  // ---------------------------------------------------------------------------
  // Price table
  // ---------------------------------------------------------------------------

  /** Dollars per token, by model and then by token type. */
  const Pricing: map<string, map<string, real>> := map[
    "gpt-4" := map["input" := 0.03 / 1000.0, "output" := 0.06 / 1000.0],
    "gpt-3.5-turbo" := map["input" := 0.0015 / 1000.0, "output" := 0.002 / 1000.0]
  ]

  /** The row of the table for a model; a model the table does not list
      falls back to the "gpt-4" row. */
  function ModelRates(model: string): (row: map<string, real>)
    ensures row.Keys == {"input", "output"}
    ensures model != "gpt-3.5-turbo" ==> row == Pricing["gpt-4"]
    ensures forall k :: k in row ==> row[k] > 0.0
  {
    if model in Pricing then Pricing[model] else Pricing["gpt-4"]
  }

  /** Cost in dollars of `tokens` tokens of the given type.  A token type other
      than "input" or "output" is the KeyError of the dictionary lookup. */
  function CalculateCost(tokens: int, model: string := "gpt-4", tokenType: string := "input"): (r: Result<real>)
    ensures r.Err? <==> tokenType != "input" && tokenType != "output"
    ensures r.Err? ==> r.error == KeyError(tokenType)
    ensures r.Ok? ==> (tokens == 0 <==> r.value == 0.0)
    ensures r.Ok? ==> (tokens > 0 <==> r.value > 0.0)
    ensures r.Ok? && model == "gpt-4" && tokenType == "input" ==> r.value * 100000.0 == 3.0 * tokens as real
  {
    var row := ModelRates(model);
    if tokenType in row then Ok(tokens as real * row[tokenType]) else Err(KeyError(tokenType))
  }

  /** Cost is tokens times the table's rate, for every model and token count:
      "gpt-3.5-turbo" at 0.0015 (input) and 0.002 (output) dollars per thousand
      tokens, every other model at the "gpt-4" 0.03 and 0.06. */
  lemma CostPerThousandTokens(tokens: int, model: string)
    ensures CalculateCost(tokens, model, "input").value * 1000.0
         == tokens as real * (if model == "gpt-3.5-turbo" then 0.0015 else 0.03)
    ensures CalculateCost(tokens, model, "output").value * 1000.0
         == tokens as real * (if model == "gpt-3.5-turbo" then 0.002 else 0.06)
  {
  }

  /** Any model name outside the table is priced as "gpt-4". */
  lemma UnknownModelPricedAsGpt4(tokens: int, model: string, tokenType: string)
    requires model != "gpt-4" && model != "gpt-3.5-turbo"
    ensures CalculateCost(tokens, model, tokenType) == CalculateCost(tokens, "gpt-4", tokenType)
  {
  }

  /** For the same tokens, "gpt-3.5-turbo" is strictly cheaper than "gpt-4". */
  lemma Gpt35CheaperThanGpt4(tokens: int, tokenType: string)
    requires tokens > 0
    requires tokenType == "input" || tokenType == "output"
    ensures CalculateCost(tokens, "gpt-3.5-turbo", tokenType).value < CalculateCost(tokens, "gpt-4", tokenType).value
  {
    var cheap := ModelRates("gpt-3.5-turbo")[tokenType];
    var dear := ModelRates("gpt-4")[tokenType];
    assert cheap < dear;
    MultiplyPreservesOrder(tokens as real, cheap, dear);
  }

  /** Cost is linear in the number of tokens: additive over any split. */
  lemma CostAdditive(a: int, b: int, model: string, tokenType: string)
    requires tokenType == "input" || tokenType == "output"
    ensures CalculateCost(a + b, model, tokenType).value
         == CalculateCost(a, model, tokenType).value + CalculateCost(b, model, tokenType).value
  {
  }

  /** Cost is linear in the number of tokens: a difference of costs is the
      cost of the difference. */
  lemma CostSubtractive(a: int, b: int, model: string, tokenType: string)
    requires tokenType == "input" || tokenType == "output"
    ensures CalculateCost(a - b, model, tokenType).value
         == CalculateCost(a, model, tokenType).value - CalculateCost(b, model, tokenType).value
  {
    CostAdditive(a - b, b, model, tokenType);
  }

  /** Cost is monotone in the number of tokens. */
  lemma CostMonotone(a: int, b: int, model: string, tokenType: string)
    requires tokenType == "input" || tokenType == "output"
    ensures a <= b <==> CalculateCost(a, model, tokenType).value <= CalculateCost(b, model, tokenType).value
  {
    CostSubtractive(b, a, model, tokenType);
  }

  // ---------------------------------------------------------------------------
  // Comparison record
  // ---------------------------------------------------------------------------

  /** The "traditional" and "baked" entries of the record. */
  datatype Scenario = Scenario(tokensPerRequest: int, totalTokens: int, cost: real)

  /** The "savings" entry of the record. */
  datatype Savings = Savings(tokensPerRequest: int, tokensPercent: real, totalCost: real, annualCost1mRequests: real)

  datatype Comparison = Comparison(traditional: Scenario, baked: Scenario, savings: Savings)

  /** Cost of input tokens at the default ("gpt-4") prices, as the record uses it. */
  function InputCost(tokens: int): (c: real)
    ensures CalculateCost(tokens) == Ok(c)
  {
    CalculateCost(tokens).value
  }

  /** One scenario of the record: `tokens` per request over `numRequests` requests. */
  function BuildScenario(tokens: int, numRequests: int): (s: Scenario)
    ensures s.tokensPerRequest == tokens
    ensures s.totalTokens == tokens * numRequests
    ensures CalculateCost(s.totalTokens, "gpt-4", "input") == Ok(s.cost)
  {
    Scenario(tokens, tokens * numRequests, InputCost(tokens * numRequests))
  }

  /** Reference meaning of a scenario's cost: `numRequests` requests, each
      charged separately for its `tokens` input tokens. */
  function CostOfRequests(tokens: int, numRequests: nat): real
  {
    if numRequests == 0 then 0.0 else CostOfRequests(tokens, numRequests - 1) + InputCost(tokens)
  }

  /** Charging the total tokens at once costs the same as charging every
      request on its own. */
  lemma {:induction false} ScenarioCostIsSumOfRequests(tokens: int, numRequests: nat)
    ensures BuildScenario(tokens, numRequests).cost == CostOfRequests(tokens, numRequests)
  {
    if numRequests > 0 {
      ScenarioCostIsSumOfRequests(tokens, numRequests - 1);
      CostAdditive(tokens * (numRequests - 1), tokens, "gpt-4", "input");
      assert tokens * (numRequests - 1) + tokens == tokens * numRequests;
    }
  }

  /** Percentage of the traditional tokens that the saving represents. */
  function SavingsPercent(savedTokens: int, traditionalTokens: int): (p: real)
    requires traditionalTokens != 0
    ensures p * traditionalTokens as real == 100.0 * savedTokens as real
  {
    (savedTokens as real / traditionalTokens as real) * 100.0
  }

  /** Comparison of sending `traditionalTokens` per request against sending
      `bakedTokens`, over `numRequests` requests.  The percentage saving is
      taken against the traditional figure, so a zero traditional figure is
      the ZeroDivisionError of `format_comparison`. */
  function FormatComparison(traditionalTokens: int, bakedTokens: int, numRequests: int := 1000000): (r: Result<Comparison>)
    ensures r.Err? <==> traditionalTokens == 0
    ensures r.Err? ==> r.error == ZeroDivisionError
    ensures r.Ok? ==> r.value.traditional == BuildScenario(traditionalTokens, numRequests)
    ensures r.Ok? ==> r.value.baked == BuildScenario(bakedTokens, numRequests)
    ensures r.Ok? ==> r.value.savings.tokensPerRequest == traditionalTokens - bakedTokens
    ensures r.Ok? ==> r.value.savings.totalCost == r.value.traditional.cost - r.value.baked.cost
    ensures r.Ok? ==> r.value.savings.annualCost1mRequests == 12.0 * r.value.savings.totalCost
    ensures r.Ok? ==> r.value.savings.tokensPercent == SavingsPercent(traditionalTokens - bakedTokens, traditionalTokens)
  {
    var traditional := BuildScenario(traditionalTokens, numRequests);
    var baked := BuildScenario(bakedTokens, numRequests);
    var savingsTokens := traditionalTokens - bakedTokens;
    if traditionalTokens == 0 then
      Err(ZeroDivisionError)
    else
      var savingsPercent := SavingsPercent(savingsTokens, traditionalTokens);
      var savingsCost := traditional.cost - baked.cost;
      Ok(Comparison(traditional, baked, Savings(savingsTokens, savingsPercent, savingsCost, savingsCost * 12.0)))
  }

  /** The cost saving is the cost of the saved tokens over all requests. */
  lemma SavedCostIsCostOfSavedTokens(traditionalTokens: int, bakedTokens: int, numRequests: int)
    requires traditionalTokens != 0
    ensures FormatComparison(traditionalTokens, bakedTokens, numRequests).value.savings.totalCost
         == InputCost((traditionalTokens - bakedTokens) * numRequests)
  {
    CostSubtractive(traditionalTokens * numRequests, bakedTokens * numRequests, "gpt-4", "input");
    assert (traditionalTokens - bakedTokens) * numRequests == traditionalTokens * numRequests - bakedTokens * numRequests;
  }

  /** Over a positive number of requests the baked scenario costs no more
      than the traditional one exactly when it sends no more tokens. */
  lemma SavingNonNegativeIff(traditionalTokens: int, bakedTokens: int, numRequests: int)
    requires traditionalTokens != 0
    requires numRequests > 0
    ensures FormatComparison(traditionalTokens, bakedTokens, numRequests).value.savings.totalCost >= 0.0
        <==> bakedTokens <= traditionalTokens
  {
    SavedCostIsCostOfSavedTokens(traditionalTokens, bakedTokens, numRequests);
    var saved := traditionalTokens - bakedTokens;
    if saved > 0 {
      MultiplyPositive(saved, numRequests);
    } else if saved < 0 {
      MultiplyPositive(-saved, numRequests);
      assert saved * numRequests == -((-saved) * numRequests);
    }
  }

  /** The saving is exactly 100 percent when, and only when, the baked
      scenario sends no tokens. */
  lemma FullSavingIffBakedIsZero(traditionalTokens: int, bakedTokens: int)
    requires traditionalTokens != 0
    ensures SavingsPercent(traditionalTokens - bakedTokens, traditionalTokens) == 100.0 <==> bakedTokens == 0
  {
    var p := SavingsPercent(traditionalTokens - bakedTokens, traditionalTokens);
    if bakedTokens == 0 {
      CancelFactor(p, 100.0, traditionalTokens as real);
    }
  }

  /** With 0 <= baked <= traditional the saving lies between 0 and 100 percent. */
  lemma PercentWithinBounds(traditionalTokens: int, bakedTokens: int)
    requires 0 <= bakedTokens <= traditionalTokens
    requires traditionalTokens != 0
    ensures 0.0 <= SavingsPercent(traditionalTokens - bakedTokens, traditionalTokens) <= 100.0
  {
    var p, t := SavingsPercent(traditionalTokens - bakedTokens, traditionalTokens), traditionalTokens as real;
    DivideByPositive(p, t, 0.0);
    DivideByPositive(p, t, 100.0);
  }

  /** With the baked figure fixed and non-negative, a larger traditional
      figure never lowers the percentage saved. */
  lemma PercentMonotoneInTraditional(t1: int, t2: int, bakedTokens: int)
    requires 0 < t1 <= t2
    requires bakedTokens >= 0
    ensures SavingsPercent(t1 - bakedTokens, t1) <= SavingsPercent(t2 - bakedTokens, t2)
  {
    var p1, p2 := SavingsPercent(t1 - bakedTokens, t1), SavingsPercent(t2 - bakedTokens, t2);
    // The unsaved share 100 - p is 100 * baked / traditional, which shrinks as traditional grows.
    assert (100.0 - p1) * t1 as real == 100.0 * bakedTokens as real;
    assert (100.0 - p2) * t2 as real == 100.0 * bakedTokens as real;
    InverseAntitone(100.0 - p1, 100.0 - p2, t1 as real, t2 as real, 100.0 * bakedTokens as real);
  }

  // ---------------------------------------------------------------------------
  // The demonstration run
  // ---------------------------------------------------------------------------

  /** The comparison the demonstration prints: the system prompt plus a
      50-token user query against the user query alone, over one million
      requests. */
  function DemoComparison(systemPrompt: string): (r: Result<Comparison>)
    ensures r.Ok?
    ensures r.value.savings.tokensPerRequest == CountTokens(systemPrompt)
  {
    var tokenCount := CountTokens(systemPrompt);
    FormatComparison(tokenCount + 50, 50, 1000000)
  }

  /** In the demonstration every estimated prompt token costs $30 per million
      requests, $360 per year at a million requests a month, and the saving
      stays below 100 percent because the user query is still sent. */
  lemma DemoSavings(systemPrompt: string)
    ensures DemoComparison(systemPrompt).value.savings.totalCost == 30.0 * CountTokens(systemPrompt) as real
    ensures DemoComparison(systemPrompt).value.savings.annualCost1mRequests == 360.0 * CountTokens(systemPrompt) as real
    ensures 0.0 <= DemoComparison(systemPrompt).value.savings.tokensPercent < 100.0
  {
    var p := CountTokens(systemPrompt);
    SavedCostIsCostOfSavedTokens(p + 50, 50, 1000000);
    PercentWithinBounds(p + 50, 50);
    var pct := DemoComparison(systemPrompt).value.savings.tokensPercent;
    assert pct * (p + 50) as real == 100.0 * p as real;
  }

  // ---------------------------------------------------------------------------
  // Arithmetic helpers
  // ---------------------------------------------------------------------------

  lemma CancelFactor(p: real, c: real, t: real)
    requires t != 0.0 && p * t == c * t
    ensures p == c
  {
    assert (p - c) * t == 0.0;
  }

  /** If q1 * t1 == q2 * t2 == k >= 0 with 0 < t1 <= t2, then q2 <= q1. */
  lemma InverseAntitone(q1: real, q2: real, t1: real, t2: real, k: real)
    requires 0.0 < t1 <= t2 && k >= 0.0
    requires q1 * t1 == k && q2 * t2 == k
    ensures q2 <= q1
  {
    if q1 < 0.0 { MultiplyStrict(t1, q1, 0.0); }
    if q2 > q1 {
      MultiplyStrict(t1, q1, q2);
      MultiplyPreservesOrder(q2, t1, t2);
    }
  }

  lemma MultiplyPreservesOrder(k: real, x: real, y: real)
    requires k >= 0.0 && x <= y
    ensures k * x <= k * y
  {
  }

  lemma MultiplyPositive(a: int, b: int)
    requires a > 0 && b > 0
    ensures a * b > 0
  {
  }

  lemma DivideByPositive(p: real, t: real, bound: real)
    requires t > 0.0
    ensures p * t <= bound * t ==> p <= bound
    ensures bound * t <= p * t ==> bound <= p
  {
    if p > bound { MultiplyStrict(t, bound, p); }
    if p < bound { MultiplyStrict(t, p, bound); }
  }

  lemma MultiplyStrict(k: real, x: real, y: real)
    requires k > 0.0 && x < y
    ensures k * x < k * y
  {
  }
}
