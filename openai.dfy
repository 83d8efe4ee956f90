/** The summarizer: chooses a model tier from the text's size, asks the provider for a summary
    and prices the usage the provider reports at that tier's rates. */
module OpenAi {
  import opened Types
  import opened Heuristics
  import Utils

  const BaselineModel: string := "gpt-3.5-turbo"
  const MiniModel: string := "gpt-4o-mini"

  /** Texts estimated at more input tokens than this go to the mini tier. */
  const MiniThreshold: nat := 8000

  /** The output-token ceiling sent when the request gives none (or zero). */
  const DefaultMaxTokens: int := 500

  const SystemPrompt: string :=
    "You are a helpful assistant that creates concise, accurate summaries. Focus on the main points and key insights while maintaining clarity and readability."
  const UserPromptPrefix: string := "Please provide a clear and concise summary of the following text:\n\n"
  const NoSummary: string := "No summary generated"
  const NoUsageMessage: string := "No usage information received from OpenAI API"

  /** A model and its price per 1000 input and per 1000 output tokens. */
  datatype Tier = Tier(model: string, inputRate: real, outputRate: real)

  const BaselineTier: Tier := Tier(BaselineModel, 0.0015, 0.002)
  const MiniTier: Tier := Tier(MiniModel, 0.00015, 0.0006)

  /** What is sent to the provider. */
  datatype ChatRequest = ChatRequest(model: string, system: string, user: string, temperature: real, maxTokens: int)

  /** Token usage as the provider reports it. */
  datatype Usage = Usage(promptTokens: nat, completionTokens: nat, totalTokens: nat)

  /** The provider's reply: the first choice's content (absent when there is none), the usage
      (which the provider may omit) and the name of the model that served the request. */
  datatype Completion = Completion(content: Option<string>, usage: Option<Usage>, model: string)

  /** A thrown value: an `Error` with its message, or anything else. */
  datatype Thrown = ErrorObject(message: string) | OtherValue

  /** How the provider call ends: with a completion, or by throwing (network, authentication or
      missing-credential failures). */
  datatype ProviderOutcome = Completed(completion: Completion) | Threw(error: Thrown)

  /** How `generateSummary` settles: it resolves with a response or rejects with a thrown value. */
  datatype Summarized = Resolved(response: SummaryResponse) | Rejected(error: Thrown)

  /** The tier `generateSummary` selects: the mini tier exactly when the text's estimated input
      tokens exceed the threshold. */
  function TierFor(text: string): (tier: Tier)
    ensures tier == MiniTier <==> EstimateInputTokens(text) > MiniThreshold
    ensures tier == BaselineTier <==> EstimateInputTokens(text) <= MiniThreshold
  {
    if EstimateInputTokens(text) > MiniThreshold then MiniTier else BaselineTier
  }

  /** `maxTokens || 500`: an absent or zero ceiling becomes 500, any other value is sent as it is. */
  function MaxTokensSent(maxTokens: Option<int>): (n: int)
    ensures maxTokens == None || maxTokens == Some(0) ==> n == DefaultMaxTokens
    ensures maxTokens.Some? && maxTokens.value != 0 ==> n == maxTokens.value
  {
    match maxTokens
    case Some(m) => if m != 0 then m else DefaultMaxTokens
    case None => DefaultMaxTokens
  }

  /** `choices[0]?.message?.content || 'No summary generated'`: never empty. */
  function SummaryText(content: Option<string>): (summary: string)
    ensures summary != []
    ensures content.Some? && content.value != [] ==> summary == content.value
    ensures content == None || content == Some([]) ==> summary == NoSummary
  {
    if content.Some? && content.value != [] then content.value else NoSummary
  }

  /** The request sent for a summary request: the tier's model, the fixed instructions, the text,
      the caller's temperature and the output ceiling. */
  function ChatRequestFor(request: SummaryRequest): (c: ChatRequest)
    ensures c.model == MiniModel <==> |request.text| > 4 * MiniThreshold
    ensures c.model != MiniModel ==> c.model == BaselineModel
    ensures c.system == SystemPrompt
    ensures |c.user| == |UserPromptPrefix| + |request.text|
    ensures c.user[..|UserPromptPrefix|] == UserPromptPrefix && c.user[|UserPromptPrefix|..] == request.text
    ensures c.temperature == request.temperature
    ensures c.maxTokens == MaxTokensSent(request.maxTokens)
  {
    MiniTierIffLongText(request.text);
    ChatRequest(TierFor(request.text).model, SystemPrompt, UserPromptPrefix + request.text,
                request.temperature, MaxTokensSent(request.maxTokens))
  }

  /** The exact price of a usage at a tier's rates. */
  function ExactCost(usage: Usage, tier: Tier): (c: real)
    ensures c * 1000.0 == usage.promptTokens as real * tier.inputRate + usage.completionTokens as real * tier.outputRate
    ensures tier.inputRate >= 0.0 && tier.outputRate >= 0.0 ==> c >= 0.0
  {
    Utils.Priced(usage.promptTokens as real, tier.inputRate) + Utils.Priced(usage.completionTokens as real, tier.outputRate)
  }

  /** What `generateSummary` settles with once the provider call has ended with `outcome`. */
  function Summarize(request: SummaryRequest, outcome: ProviderOutcome): (r: Summarized)
    ensures outcome.Threw? ==> r == Rejected(outcome.error)
    ensures outcome.Completed? && outcome.completion.usage.None? ==> r == Rejected(ErrorObject(NoUsageMessage))
    ensures r.Resolved? <==> outcome.Completed? && outcome.completion.usage.Some?
    ensures r.Resolved? ==>
      var usage := outcome.completion.usage.value;
      && Utils.RoundsTo(ExactCost(usage, TierFor(request.text)), r.response.cost)
      && r.response.tokensUsed == TokenCounts(usage.promptTokens, usage.completionTokens, usage.totalTokens)
      && r.response.model == outcome.completion.model
      && r.response.summary == SummaryText(outcome.completion.content)
  {
    match outcome
    case Threw(e) => Rejected(e)
    case Completed(c) =>
      match c.usage
      case None => Rejected(ErrorObject(NoUsageMessage))
      case Some(usage) =>
        Resolved(SummaryResponse(
          SummaryText(c.content),
          Utils.Round5(ExactCost(usage, TierFor(request.text))),
          TokenCounts(usage.promptTokens, usage.completionTokens, usage.totalTokens),
          c.model))
  }

  /** `generateSummary`: select the tier, call the provider once and price its reported usage.
      `sent` records every request handed to the provider. */
  method GenerateSummary(request: SummaryRequest, provider: ChatRequest -> ProviderOutcome)
    returns (r: Summarized, ghost sent: seq<ChatRequest>)
    ensures sent == [ChatRequestFor(request)]
    ensures r == Summarize(request, provider(ChatRequestFor(request)))
  {
    var estimatedTokens := EstimateInputTokens(request.text);
    var model := BaselineModel;
    var inputCostRate := 0.0015;
    var outputCostRate := 0.002;
    if estimatedTokens > MiniThreshold {
      model := MiniModel;
      inputCostRate := 0.00015;
      outputCostRate := 0.0006;
    }
    var chat := ChatRequest(model, SystemPrompt, UserPromptPrefix + request.text,
                            request.temperature, MaxTokensSent(request.maxTokens));
    var outcome := provider(chat);
    sent := [chat];
    if outcome.Threw? {
      r := Rejected(outcome.error);
      return;
    }
    var completion := outcome.completion;
    var summary := SummaryText(completion.content);
    if completion.usage.None? {
      r := Rejected(ErrorObject(NoUsageMessage));
      return;
    }
    var usage := completion.usage.value;
    var inputCost := usage.promptTokens as real / 1000.0 * inputCostRate;
    var outputCost := usage.completionTokens as real / 1000.0 * outputCostRate;
    var totalCost := inputCost + outputCost;
    r := Resolved(SummaryResponse(
      summary,
      Utils.Round5(totalCost),
      TokenCounts(usage.promptTokens, usage.completionTokens, usage.totalTokens),
      completion.model));
  }

  /** The mini tier is chosen exactly for texts longer than 32000 characters; a text of exactly
      32000 characters (8000 estimated tokens) stays on the baseline tier. */
  lemma MiniTierIffLongText(text: string)
    ensures TierFor(text) == MiniTier <==> |text| > 4 * MiniThreshold
  {
    EstimateExceedsIff(text, MiniThreshold);
  }

  /** A text longer than one that goes to the mini tier goes there too. */
  lemma TierMonotone(shorter: string, longer: string)
    requires |shorter| <= |longer| && TierFor(shorter) == MiniTier
    ensures TierFor(longer) == MiniTier
  {
    MiniTierIffLongText(shorter);
    MiniTierIffLongText(longer);
  }

  /** For the same usage, the mini tier never costs more than the baseline tier. */
  lemma MiniTierNeverCostlier(usage: Usage)
    ensures Utils.Round5(ExactCost(usage, MiniTier)) <= Utils.Round5(ExactCost(usage, BaselineTier))
  {
    var p, c := usage.promptTokens as real, usage.completionTokens as real;
    assert Utils.Priced(p, 0.00015) <= Utils.Priced(p, 0.0015);
    assert Utils.Priced(c, 0.0006) <= Utils.Priced(c, 0.002);
    Utils.Round5Monotone(ExactCost(usage, MiniTier), ExactCost(usage, BaselineTier));
  }

  /** On the baseline tier the actual cost is what `calculateCost` gives for the usage; the mini
      tier has no entry in the price table, so `calculateCost` would price it at baseline rates. */
  lemma ActualCostAgreesWithCalculator(usage: Usage)
    ensures Utils.Round5(ExactCost(usage, BaselineTier))
         == Utils.CalculateCost(usage.promptTokens as real, usage.completionTokens as real, BaselineModel).totalCost
    ensures MiniModel !in Utils.Pricing
    ensures Utils.RatesFor(MiniModel) == Utils.Rates(BaselineTier.inputRate, BaselineTier.outputRate)
  {
  }
}
