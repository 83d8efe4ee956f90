/** The live cost preview shown while the text is typed. */
module CostEstimator {
  import opened Types
  import opened JsText
  import opened Heuristics
  import Utils
  import TextInput
  import SummarizeRoute

  const DefaultMaxCost: real := 0.05

  /** The preview's cap on summary words, looser than the route's. */
  const PreviewWordCap: nat := 2000

  /** What the preview displays. */
  datatype Preview = Preview(
    inputTokens: nat,
    maxOutputTokens: nat,
    outputTokens: nat,
    cost: CostEstimate,
    isOverLimit: bool,
    approaching: bool)

  /** The preview for a text and a ceiling: the output estimate is the smaller of the word budget
      and half the input tokens rounded up; the red warning shows when the total is strictly over
      the ceiling, the yellow one when it is over 80% of it and not over it. */
  function Estimate(text: string, maxCost: real := DefaultMaxCost): (p: Preview)
    ensures p.inputTokens == EstimateInputTokens(text)
    ensures p.outputTokens <= p.maxOutputTokens && p.outputTokens <= CeilDiv(p.inputTokens, 2)
    ensures p.outputTokens == p.maxOutputTokens || p.outputTokens == CeilDiv(p.inputTokens, 2)
    ensures p.maxOutputTokens == MaxOutputTokens(SplitWordCount(text), PreviewWordCap)
    ensures 2 <= p.maxOutputTokens <= 2600
    ensures p.cost == Utils.CalculateCost(p.inputTokens as real, p.outputTokens as real)
    ensures p.isOverLimit <==> p.cost.totalCost > maxCost
    ensures p.approaching <==> !p.isOverLimit && p.cost.totalCost > maxCost * 0.8
    ensures !(p.isOverLimit && p.approaching)
  {
    var estimatedInputTokens := EstimateInputTokens(text);
    var wordCount := SplitWordCount(text);
    Heuristics.MaxOutputTokensRange(wordCount, PreviewWordCap);
    var maxOutputTokens := MaxOutputTokens(wordCount, PreviewWordCap);
    var estimatedOutputTokens := Min(maxOutputTokens, CeilDiv(estimatedInputTokens, 2));
    var costEstimate := Utils.CalculateCost(estimatedInputTokens as real, estimatedOutputTokens as real);
    var isOverLimit := costEstimate.totalCost > maxCost;
    Preview(estimatedInputTokens, maxOutputTokens, estimatedOutputTokens, costEstimate, isOverLimit,
            !isOverLimit && costEstimate.totalCost > maxCost * 0.8)
  }

  /** An empty text is previewed at zero tokens and zero cost. */
  lemma EmptyTextPreview(maxCost: real)
    ensures var p := Estimate([], maxCost);
      p.inputTokens == 0 && p.outputTokens == 0
      && p.cost.inputCost == 0.0 && p.cost.outputCost == 0.0 && p.cost.totalCost == 0.0
  {
    Utils.CostNonNegative(0.0, 0.0, Utils.DefaultModel);
  }

  /** The preview's word count is one for a blank text, where the counter under the text box
      shows zero; otherwise both are the number of words. */
  lemma WordCountDisagreesOnBlank(text: string)
    ensures SplitWordCount(text) == if AllWhitespace(text) then 1 else TextInput.WordCount(text)
    ensures AllWhitespace(text) ==> TextInput.WordCount(text) == 0
  {
    SplitLengthOfTrim(text);
  }

  /** The preview never shows less than the route's pre-call estimate for the same text: its word
      budget is looser and it rounds half tokens up. So a preview within the ceiling means the
      route's pre-call check passes, also for the trimmed text the page sends. */
  lemma PreviewBoundsPreCallEstimate(text: string, maxCost: real)
    ensures SummarizeRoute.PreCallEstimate(text).totalCost <= Estimate(text, maxCost).cost.totalCost
    ensures !Estimate(text, maxCost).isOverLimit ==> SummarizeRoute.PreCallEstimate(text).totalCost <= maxCost
    ensures SummarizeRoute.PreCallEstimate(Trim(text)).totalCost <= Estimate(text, maxCost).cost.totalCost
  {
    var p := Estimate(text, maxCost);
    var e := EstimateInputTokens(text);
    MaxOutputTokensMonotone(SplitWordCount(text), SplitWordCount(text), SummarizeRoute.ServerWordCap, PreviewWordCap);
    assert SummarizeRoute.EstimatedOutputTokens(text) <= p.outputTokens as real;
    Utils.CostMonotone(e as real, SummarizeRoute.EstimatedOutputTokens(text), e as real, p.outputTokens as real, Utils.DefaultModel);
    TrimmedPreCallWithinPreCall(text);
  }

  /** The page sends the trimmed text: trimming never raises the route's pre-call estimate, since
      it keeps every word and removes characters. */
  lemma TrimmedPreCallWithinPreCall(text: string)
    ensures SummarizeRoute.PreCallEstimate(Trim(text)).totalCost <= SummarizeRoute.PreCallEstimate(text).totalCost
  {
    TrimKeepsBudget(text);
    CeilDivMonotone(|Trim(text)|, |text|, 4);
    PreCallMonotone(Trim(text), text);
  }

  /** Of two texts with the same output budget, the one with fewer estimated input tokens has the
      lower pre-call estimate. */
  lemma PreCallMonotone(a: string, b: string)
    requires EstimateInputTokens(a) <= EstimateInputTokens(b)
    requires SummarizeRoute.MaxOutputTokensFor(a) == SummarizeRoute.MaxOutputTokensFor(b)
    ensures SummarizeRoute.PreCallEstimate(a).totalCost <= SummarizeRoute.PreCallEstimate(b).totalCost
  {
    var o1, o2 := SummarizeRoute.EstimatedOutputTokens(a), SummarizeRoute.EstimatedOutputTokens(b);
    assert o1 <= o2;
    Utils.CostMonotone(EstimateInputTokens(a) as real, o1, EstimateInputTokens(b) as real, o2, Utils.DefaultModel);
  }

  /** Trimming keeps the route's output budget: the blank test and the word count are unchanged. */
  lemma TrimKeepsBudget(text: string)
    ensures SummarizeRoute.MaxOutputTokensFor(Trim(text)) == SummarizeRoute.MaxOutputTokensFor(text)
  {
    var t := Trim(text);
    TrimEmptyIffBlank(text);
    WordsOfTrim(text);
    assert AllWhitespace(t) <==> AllWhitespace(text) by {
      if t != [] { assert !IsWhitespace(t[0]); }
    }
  }
}
