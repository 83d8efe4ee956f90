/** The record shapes exchanged between the page, the route and the summarizer. */
module Types {

  datatype Option<+T> = None | Some(value: T)

  /** What the summarizer is asked to do: the text, the sampling temperature and an optional
      ceiling on the number of output tokens. */
  datatype SummaryRequest = SummaryRequest(text: string, temperature: real, maxTokens: Option<int>)

  /** Token usage as reported back to the caller. */
  datatype TokenCounts = TokenCounts(input: int, output: int, total: int)

  /** A successful summarization: the summary, its cost, the provider's usage and the model that served it. */
  datatype SummaryResponse = SummaryResponse(summary: string, cost: real, tokensUsed: TokenCounts, model: string)

  /** A priced token estimate. Token counts are numbers, not integers: the route prices a
      half-token output estimate. */
  datatype CostEstimate = CostEstimate(
    inputCost: real,
    outputCost: real,
    totalCost: real,
    inputTokens: real,
    outputTokens: real,
    totalTokens: real)
}
