/** The price table, the cost calculator and the text truncation helper. */
module Utils {
  import opened Types

  /** Price of a model per 1000 input tokens and per 1000 output tokens. */
  datatype Rates = Rates(input: real, output: real)

  /** The model `calculateCost` prices with when it is given none or an unknown one. */
  const DefaultModel: string := "gpt-3.5-turbo"

  const Pricing: map<string, Rates> := map[
    "gpt-3.5-turbo" := Rates(0.0015, 0.002),
    "gpt-4" := Rates(0.03, 0.06),
    "gpt-4-turbo" := Rates(0.01, 0.03)
  ]

  /** One unit in the fifth decimal place, and half of it. */
  const Unit: real := 0.00001
  const HalfUnit: real := 0.000005

  /** `x` is a whole number of units in the fifth decimal place. */
  predicate OnGrid(x: real) {
    (x * 100000.0).Floor as real == x * 100000.0
  }

  /** `r` is `exact` rounded half-up to five decimals: on the grid, and in (exact - 1/2 unit, exact + 1/2 unit]. */
  predicate RoundsTo(exact: real, r: real) {
    OnGrid(r) && exact - HalfUnit < r <= exact + HalfUnit
  }

  /** `Math.round(x * 100000) / 100000`. */
  function Round5(x: real): (r: real)
    ensures RoundsTo(x, r)
  {
    (x * 100000.0 + 0.5).Floor as real / 100000.0
  }

  /** The rounding is determined by its contract: only one grid point lies within half a unit above or below. */
  lemma RoundsToUnique(x: real, r: real)
    requires RoundsTo(x, r)
    ensures r == Round5(x)
  {
    var n, m := (r * 100000.0).Floor, (Round5(x) * 100000.0).Floor;
    assert n as real == r * 100000.0 && m as real == Round5(x) * 100000.0;
    assert -1 < n - m < 1;
  }

  lemma Round5Monotone(x: real, y: real)
    requires x <= y
    ensures Round5(x) <= Round5(y)
  {
    var a, b := (x * 100000.0 + 0.5).Floor, (y * 100000.0 + 0.5).Floor;
    assert a as real <= x * 100000.0 + 0.5 <= y * 100000.0 + 0.5 < b as real + 1.0;
    assert a <= b;
    assert Round5(x) == a as real / 100000.0 && Round5(y) == b as real / 100000.0;
  }

  /** Rounding keeps non-negative amounts non-negative and zero at zero. */
  lemma Round5NonNegative(x: real)
    requires x >= 0.0
    ensures Round5(x) >= 0.0
    ensures x == 0.0 ==> Round5(x) == 0.0
  {
    Round5Monotone(0.0, x);
    assert Round5(0.0) == 0.0;
  }

  /** The rates `calculateCost` uses for a model name: the table's entry, or the default model's. */
  function RatesFor(model: string): (r: Rates)
    ensures model in Pricing ==> r == Pricing[model]
    ensures model !in Pricing ==> r == Pricing[DefaultModel]
    ensures r.input > 0.0 && r.output > 0.0
  {
    if model in Pricing then Pricing[model] else Pricing[DefaultModel]
  }

  /** The exact (unrounded) price of `tokens` tokens at `rate` per 1000. */
  function Priced(tokens: real, rate: real): (price: real)
    ensures price * 1000.0 == tokens * rate
  {
    tokens / 1000.0 * rate
  }

  /** `calculateCost`: price `inputTokens` and `outputTokens` at the model's per-1000 rates. Each
      of the three costs is its exact value rounded to five decimals; the total is the rounding
      of the exact sum, not the sum of the rounded parts. */
  function CalculateCost(inputTokens: real, outputTokens: real, model: string := DefaultModel): (e: CostEstimate)
    ensures var rates := RatesFor(model);
      && RoundsTo(Priced(inputTokens, rates.input), e.inputCost)
      && RoundsTo(Priced(outputTokens, rates.output), e.outputCost)
      && RoundsTo(Priced(inputTokens, rates.input) + Priced(outputTokens, rates.output), e.totalCost)
    ensures e.inputTokens == inputTokens && e.outputTokens == outputTokens
    ensures e.totalTokens == inputTokens + outputTokens
  {
    var rates := RatesFor(model);
    var inputCost := Priced(inputTokens, rates.input);
    var outputCost := Priced(outputTokens, rates.output);
    var totalCost := inputCost + outputCost;
    CostEstimate(Round5(inputCost), Round5(outputCost), Round5(totalCost), inputTokens, outputTokens, inputTokens + outputTokens)
  }

  /** An unknown model name is priced exactly like the default model. */
  lemma UnknownModelPricedAsDefault(inputTokens: real, outputTokens: real, model: string)
    requires model !in Pricing
    ensures CalculateCost(inputTokens, outputTokens, model) == CalculateCost(inputTokens, outputTokens)
  {
  }

  /** More tokens at a non-negative rate never cost less. */
  lemma PricedMonotone(t1: real, t2: real, rate: real)
    requires t1 <= t2 && rate >= 0.0
    ensures Priced(t1, rate) <= Priced(t2, rate)
  {
    assert Priced(t2, rate) - Priced(t1, rate) == (t2 - t1) / 1000.0 * rate;
  }

  /** Costs are non-negative for non-negative token counts, and zero tokens cost nothing. */
  lemma CostNonNegative(inputTokens: real, outputTokens: real, model: string)
    requires inputTokens >= 0.0 && outputTokens >= 0.0
    ensures var e := CalculateCost(inputTokens, outputTokens, model);
      e.inputCost >= 0.0 && e.outputCost >= 0.0 && e.totalCost >= 0.0
    ensures inputTokens == 0.0 && outputTokens == 0.0 ==>
      var e := CalculateCost(inputTokens, outputTokens, model);
      e.inputCost == 0.0 && e.outputCost == 0.0 && e.totalCost == 0.0
  {
    var rates := RatesFor(model);
    var i, o := Priced(inputTokens, rates.input), Priced(outputTokens, rates.output);
    PricedMonotone(0.0, inputTokens, rates.input);
    PricedMonotone(0.0, outputTokens, rates.output);
    Round5NonNegative(i);
    Round5NonNegative(o);
    Round5NonNegative(i + o);
  }

  /** For a fixed model, more tokens never cost less. */
  lemma CostMonotone(i1: real, o1: real, i2: real, o2: real, model: string)
    requires i1 <= i2 && o1 <= o2
    ensures var e1, e2 := CalculateCost(i1, o1, model), CalculateCost(i2, o2, model);
      e1.inputCost <= e2.inputCost && e1.outputCost <= e2.outputCost && e1.totalCost <= e2.totalCost
  {
    var rates := RatesFor(model);
    var in1, in2 := Priced(i1, rates.input), Priced(i2, rates.input);
    var out1, out2 := Priced(o1, rates.output), Priced(o2, rates.output);
    PricedMonotone(i1, i2, rates.input);
    PricedMonotone(o1, o2, rates.output);
    Round5Monotone(in1, in2);
    Round5Monotone(out1, out2);
    Round5Monotone(in1 + out1, in2 + out2);
  }

  /** The rounded total differs from the sum of the rounded parts by at most one unit in the
      fifth decimal. */
  lemma TotalWithinOneUnitOfParts(inputTokens: real, outputTokens: real, model: string)
    ensures var e := CalculateCost(inputTokens, outputTokens, model);
      -Unit <= e.totalCost - (e.inputCost + e.outputCost) <= Unit
  {
    var e := CalculateCost(inputTokens, outputTokens, model);
    var a, b, c := (e.inputCost * 100000.0).Floor, (e.outputCost * 100000.0).Floor, (e.totalCost * 100000.0).Floor;
    assert a as real == e.inputCost * 100000.0;
    assert b as real == e.outputCost * 100000.0;
    assert c as real == e.totalCost * 100000.0;
    assert -2 < c - a - b < 2;
  }

  /** The total is not always the sum of the parts: three input and one output token at the
      default rates cost 0.0000045 and 0.000002, both rounding to zero, while their sum 0.0000065
      rounds to 0.00001. */
  lemma TotalIsNotSumOfParts()
    ensures var e := CalculateCost(3.0, 1.0);
      e.inputCost == 0.0 && e.outputCost == 0.0 && e.totalCost == Unit
  {
    var e := CalculateCost(3.0, 1.0);
    RoundsToUnique(0.0000045, 0.0);
    RoundsToUnique(0.000002, 0.0);
    RoundsToUnique(0.0000065, Unit);
  }

  function Max(a: int, b: int): int
  {
    if a >= b then a else b
  }

  /** `truncateText`: a text no longer than `maxLength` comes back unchanged; a longer one is cut
      to its first `maxLength` characters (none when `maxLength` is negative) followed by "...". */
  function TruncateText(text: string, maxLength: int): (r: string)
    ensures |text| <= maxLength ==> r == text
    ensures |text| > maxLength ==>
      && |r| == Max(maxLength, 0) + 3
      && r[..|r| - 3] == text[..|r| - 3]
      && r[|r| - 3..] == "..."
  {
    if |text| <= maxLength then text else text[..Max(maxLength, 0)] + "..."
  }

  /** Truncating twice with the same limit is truncating once. */
  lemma TruncateIdempotent(text: string, maxLength: int)
    ensures TruncateText(TruncateText(text, maxLength), maxLength) == TruncateText(text, maxLength)
  {
    var r := TruncateText(text, maxLength);
    if |text| > maxLength {
      var k := Max(maxLength, 0);
      assert r[..k] == text[..k];
    }
  }
}
