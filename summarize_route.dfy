/** The `POST /api/summarize` handler: validates the request, checks an estimated cost against
    the ceiling before calling the summarizer and the actual cost after. */
module SummarizeRoute {
  import opened Types
  import opened JsText
  import opened Heuristics
  import opened OpenAi
  import Utils

  const TextRequired: string := "Text input is required"
  const TemperatureRange: string := "Temperature must be between 0 and 1"
  const InternalError: string := "Internal server error"

  /** The route's cap on summary words. */
  const ServerWordCap: nat := 400

  /** The posted JSON body: `text` may be missing. */
  datatype RequestBody = RequestBody(text: Option<string>, temperature: real)

  /** The responses the route produces. */
  datatype Response =
    | Success(result: SummaryResponse)
    | InvalidInput(error: string)
    | EstimateOverLimit(estimatedCost: real, maxAllowedCost: real)
    | ActualOverLimit(actualCost: real, maxAllowedCost: real)
    | ServerError(error: string)
  {
    function Status(): int
    {
      match this
      case Success(_) => 200
      case ServerError(_) => 500
      case _ => 400
    }
  }

  /** `!text || text.trim().length === 0`: the text is missing, empty or only whitespace. */
  predicate IsBlank(text: Option<string>)
    ensures IsBlank(text) <==> text.None? || AllWhitespace(text.value)
  {
    match text
    case None => true
    case Some(t) => TrimEmptyIffBlank(t); Trim(t) == []
  }

  /** Not `temperature < 0 || temperature > 1`: the closed interval [0, 1]. */
  predicate TemperatureInRange(temperature: real)
    ensures TemperatureInRange(temperature) <==> 0.0 <= temperature <= 1.0
  {
    !(temperature < 0.0 || temperature > 1.0)
  }

  /** The route's `calculateMaxTokens`: the budget for the text's word count under the route's cap.
      It is at least 2 for every text (a blank text still splits into one piece) and at most 520. */
  function MaxOutputTokensFor(text: string): (t: nat)
    ensures t == MaxOutputTokens(if AllWhitespace(text) then 1 else Words(text), ServerWordCap)
    ensures 2 <= t <= 520
  {
    Heuristics.MaxOutputTokensRange(SplitWordCount(text), ServerWordCap);
    MaxOutputTokens(SplitWordCount(text), ServerWordCap)
  }

  /** `Math.min(maxOutputTokens, estimatedTokens / 2)`: not rounded, so possibly half a token. */
  function EstimatedOutputTokens(text: string): (r: real)
    ensures r <= MaxOutputTokensFor(text) as real && r <= EstimateInputTokens(text) as real / 2.0
    ensures r == MaxOutputTokensFor(text) as real || r == EstimateInputTokens(text) as real / 2.0
  {
    var m, half := MaxOutputTokensFor(text) as real, EstimateInputTokens(text) as real / 2.0;
    if m <= half then m else half
  }

  /** The pre-call estimate, priced at the default model whatever tier the summarizer will use. */
  function PreCallEstimate(text: string): (e: Types.CostEstimate)
    ensures e.inputTokens == EstimateInputTokens(text) as real
    ensures e.outputTokens == EstimatedOutputTokens(text)
    ensures Utils.RoundsTo(Utils.Priced(e.inputTokens, 0.0015) + Utils.Priced(e.outputTokens, 0.002), e.totalCost)
  {
    Utils.CalculateCost(EstimateInputTokens(text) as real, EstimatedOutputTokens(text))
  }

  /** The request handed to the summarizer: the trimmed text, the same temperature and the
      route's output budget. */
  function SummarizerRequest(text: string, temperature: real): (r: SummaryRequest)
    ensures r.text == Trim(text) && Words(r.text) == Words(text)
    ensures r.text == [] <==> AllWhitespace(text)
    ensures r.temperature == temperature
    ensures r.maxTokens.Some? && MaxTokensSent(r.maxTokens) == MaxOutputTokensFor(text)
  {
    WordsOfTrim(text);
    TrimEmptyIffBlank(text);
    SummaryRequest(Trim(text), temperature, Some(MaxOutputTokensFor(text) as int))
  }

  /** The catch block: an `Error` becomes a 500 with its message, anything else a generic 500. */
  function ErrorResponse(error: Thrown): (resp: Response)
    ensures resp.Status() == 500
    ensures error.ErrorObject? ==> resp == ServerError(error.message)
    ensures error.OtherValue? ==> resp == ServerError(InternalError)
  {
    match error
    case ErrorObject(message) => ServerError(message)
    case OtherValue => ServerError(InternalError)
  }

  /** `POST`. `sent` records the requests handed to the provider: none unless the request is valid
      and its estimate within the ceiling, then exactly one. A success never exceeds the ceiling,
      neither in estimate nor in actual cost. */
  method Post(body: RequestBody, maxCost: real, provider: ChatRequest -> ProviderOutcome)
    returns (resp: Response, ghost sent: seq<ChatRequest>)
    ensures IsBlank(body.text) ==> resp == InvalidInput(TextRequired) && sent == []
    ensures !IsBlank(body.text) && !TemperatureInRange(body.temperature) ==>
      resp == InvalidInput(TemperatureRange) && sent == []
    ensures !IsBlank(body.text) && TemperatureInRange(body.temperature) ==>
      var text := body.text.value;
      var estimate := PreCallEstimate(text).totalCost;
      if estimate > maxCost then
        resp == EstimateOverLimit(estimate, maxCost) && sent == []
      else
        var chat := ChatRequestFor(SummarizerRequest(text, body.temperature));
        && sent == [chat]
        && match Summarize(SummarizerRequest(text, body.temperature), provider(chat))
           case Rejected(e) => resp == ErrorResponse(e)
           case Resolved(result) =>
             resp == if result.cost > maxCost then ActualOverLimit(result.cost, maxCost) else Success(result)
    ensures sent == [] <==> resp.InvalidInput? || resp.EstimateOverLimit?
    ensures |sent| <= 1
    ensures resp.Success? ==>
      && resp.result.cost <= maxCost
      && PreCallEstimate(body.text.value).totalCost <= maxCost
  {
    sent := [];
    if body.text.None? || Trim(body.text.value) == [] {
      return InvalidInput(TextRequired), sent;
    }
    var text := body.text.value;
    var temperature := body.temperature;
    if temperature < 0.0 || temperature > 1.0 {
      return InvalidInput(TemperatureRange), sent;
    }

    var estimatedTokens := EstimateInputTokens(text);
    var maxOutputTokens := MaxOutputTokens(SplitWordCount(text), ServerWordCap);
    var estimatedOutputTokens := if maxOutputTokens as real <= estimatedTokens as real / 2.0
                                 then maxOutputTokens as real else estimatedTokens as real / 2.0;
    assert maxOutputTokens == MaxOutputTokensFor(text);
    assert estimatedOutputTokens == EstimatedOutputTokens(text);
    var costEstimate := Utils.CalculateCost(estimatedTokens as real, estimatedOutputTokens);
    assert costEstimate == PreCallEstimate(text);
    if costEstimate.totalCost > maxCost {
      return EstimateOverLimit(costEstimate.totalCost, maxCost), sent;
    }

    var request := SummaryRequest(Trim(text), temperature, Some(maxOutputTokens as int));
    assert request == SummarizerRequest(text, temperature);
    var result, calls := GenerateSummary(request, provider);
    sent := sent + calls;
    match result {
      case Rejected(e) =>
        resp := ErrorResponse(e);
      case Resolved(summary) =>
        if summary.cost > maxCost {
          resp := ActualOverLimit(summary.cost, maxCost);
        } else {
          resp := Success(summary);
        }
    }
  }

  /** The output estimate is not rounded: a one-letter text is estimated at half a token. */
  lemma HalfTokenEstimate()
    ensures EstimatedOutputTokens("a") == 0.5
  {
    assert |"a"| == 1;
    assert EstimateInputTokens("a") == 1;
  }

  /** A 4000-character text is estimated at 1000 input tokens: its estimate exceeds a ceiling of
      0.0001 (so the provider is not called) but stays within the default ceiling of 0.05. */
  lemma FourThousandCharacterEstimate(text: string)
    requires |text| == 4000
    ensures 0.0001 < PreCallEstimate(text).totalCost <= 0.05
  {
    var o := EstimatedOutputTokens(text);
    assert EstimateInputTokens(text) == 1000;
    assert 0.0 <= o <= 520.0;
    var exact := Utils.Priced(1000.0, 0.0015) + Utils.Priced(o, 0.002);
    assert 0.0015 <= exact <= 0.0015 + 0.00104;
  }
}
