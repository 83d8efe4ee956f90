# ai-summarize: cost estimation and enforcement, modelled in Dafny

The tool summarizes pasted text with a hosted language model and shows what that costs. Its only
rule-based logic is the arithmetic around the single provider call:

- the token heuristics: one token per four characters, one summary word per ten input words
  (capped), 1.3 tokens per summary word;
- `calculateCost`: a per-1000-token price table with a fall-back model and rounding to five
  decimals;
- the summarizer's tier choice (a cheaper model above 8000 estimated tokens) and its pricing of
  the usage the provider reports;
- the `POST /api/summarize` gate: validation, a pre-call estimate checked against a ceiling, the
  provider call, and a post-call check of the actual cost;
- the browser-side live preview with its over-limit and approaching-limit warnings;
- the temperature label and colour, and the character and word counters.

Modules, one per source file:

| module | source |
|---|---|
| `Types` | src/types/index.ts (record shapes only) |
| `JsText` | JavaScript's `trim()` and `split(/\s+/)`, as the counters use them |
| `Heuristics` | the `Math.ceil` token heuristics shared by both `calculateMaxTokens` closures, with the word cap as a parameter |
| `Utils` | src/lib/utils.ts |
| `OpenAi` | src/lib/openai.ts |
| `SummarizeRoute` | src/app/api/summarize/route.ts |
| `CostEstimator` | src/components/CostEstimator.tsx |
| `TemperatureSlider` | src/components/TemperatureSlider.tsx |
| `TextInput` | src/components/TextInput.tsx |

Costs are exact rationals (`real`). `Math.round(x * 100000) / 100000` is `Floor(x * 100000 + 1/2) / 100000`.
Token heuristics are integer ceilings: `ceil(n / d) = (n + d - 1) / d` and `ceil(1.3 p) = ceil(13 p / 10)`.
The provider is a total function from the request the summarizer sends to an outcome. That outcome
is a completion (content, usage, model name) or a thrown value. The route and the summarizer
return a ghost log of the requests handed to the provider, so its length counts the provider calls.

Behaviour of the code that a reader might not expect:

- `calculateCost`'s total is the rounding of the unrounded sum of the two prices, not the sum of
  the two rounded parts, so it can differ from that sum by one unit in the fifth decimal
  (`Utils.TotalIsNotSumOfParts`).
- The route's output estimate `Math.min(maxOutputTokens, estimatedTokens / 2)` is not rounded up,
  so it can be half a token.
- The preview counts one word for blank text. The text box's counter shows zero for the same text.
- The pre-call estimate is always priced at `gpt-3.5-turbo` rates, even when the summarizer will
  use `gpt-4o-mini`. `gpt-4o-mini` has no entry in the price table.
- The route's output budget is at least 2 tokens for every text. A blank text still splits into
  one piece.

## Model

| member | source | states |
|---|---|---|
| `Utils.Round5` | src/lib/utils.ts:31-33 | the result is a whole number of 0.00001 units, above the exact value minus 0.000005 and at most the exact value plus 0.000005 (half-up rounding) |
| `Utils.RoundsToUnique` | src/lib/utils.ts:31-33 | any grid value within that half-open interval is the rounding, so the contract determines the result |
| `Utils.Round5Monotone` | src/lib/utils.ts:31-33 | rounding preserves order |
| `Utils.Round5NonNegative` | src/lib/utils.ts:31-33 | non-negative amounts round to non-negative amounts; zero rounds to zero |
| `Utils.RatesFor` | src/lib/utils.ts:4-24 | a listed model gets its own price-table entry, any other name gets `gpt-3.5-turbo`'s, and both rates are positive |
| `Utils.Priced` | src/lib/utils.ts:26-27 | the price of `tokens` tokens at `rate` per 1000 tokens, times 1000, is `tokens * rate` |
| `Utils.CalculateCost` | src/lib/utils.ts:19-38 | input, output and total cost are each the half-up 5-decimal rounding of their exact value at the model's rates (the total rounds the exact sum); token counts are returned unchanged and `totalTokens` is their sum |
| `Utils.UnknownModelPricedAsDefault` | src/lib/utils.ts:22-24 | a model name missing from the table is priced exactly like the default `gpt-3.5-turbo` |
| `Utils.PricedMonotone` | src/lib/utils.ts:26-27 | at a non-negative rate, more tokens never cost less before rounding |
| `Utils.CostNonNegative` | src/lib/utils.ts:26-33 | for non-negative token counts all three costs are non-negative, and zero tokens cost zero |
| `Utils.CostMonotone` | src/lib/utils.ts:26-33 | for a fixed model, each of the three costs is non-decreasing in the input and in the output tokens |
| `Utils.TotalWithinOneUnitOfParts` | src/lib/utils.ts:28-33 | the rounded total is within one 0.00001 unit of the sum of the rounded parts |
| `Utils.TotalIsNotSumOfParts` | src/lib/utils.ts:28-33 | 3 input and 1 output token give input and output cost 0 and total cost 0.00001, so the total is not always the sum of the parts |
| `Utils.TruncateText` | src/lib/utils.ts:44-47 | a text of at most `maxLength` characters comes back unchanged; a longer one comes back as its first `max(maxLength, 0)` characters followed by "...", `max(maxLength, 0) + 3` characters in all |
| `Utils.TruncateIdempotent` | src/lib/utils.ts:44-47 | truncating a truncated text with the same limit changes nothing |
| `JsText.LeadingWhitespace` | src/components/TextInput.tsx:34 | the number of characters `trim()` removes from the front: the whole text is whitespace up to it, and the character at it (if any) is not |
| `JsText.TrimStart` | src/components/TextInput.tsx:34 | removes exactly the leading whitespace: the result is a suffix preceded only by whitespace and does not start with whitespace |
| `JsText.TrimEnd` | src/components/TextInput.tsx:34 | removes exactly the trailing whitespace: the result is a prefix followed only by whitespace and does not end with whitespace |
| `JsText.Trim` | src/components/TextInput.tsx:34 | `trim()` returns a slice of the text with only whitespace before and after it, neither starting nor ending with whitespace |
| `JsText.TrimSplits` | src/components/TextInput.tsx:34 | a text is its leading whitespace, its trimmed text and its trailing whitespace, concatenated |
| `JsText.TrimEmptyIffBlank` | src/app/api/summarize/route.ts:11 | `trim()` gives the empty string exactly when the text is empty or all whitespace |
| `JsText.RunsAlternate` | src/components/TextInput.tsx:34 | word runs and whitespace runs alternate, so their counts differ only by how the text starts and ends |
| `JsText.WordStartsAppend` | src/components/TextInput.tsx:34 | the words of a concatenation are the words of each part, with a word split across the seam counted once |
| `JsText.NoWordsInWhitespace` | src/components/TextInput.tsx:34 | a blank text has no words |
| `JsText.WordsAtMostLength` | src/components/TextInput.tsx:30-34 | a text has no more words than characters |
| `JsText.WordsIgnorePadding` | src/components/TextInput.tsx:34 | whitespace added at either end does not change the number of words |
| `JsText.WordsOfTrim` | src/components/TextInput.tsx:34 | trimming removes no word |
| `JsText.Words` | src/components/TextInput.tsx:34 | the number of maximal non-whitespace runs is 0 exactly when the text is blank, and at most its length |
| `JsText.SplitLength` | src/components/TextInput.tsx:34 | `split(/\s+/)` yields at least one piece, and on a non-empty text with no whitespace at either end one piece per word |
| `JsText.SplitLengthOfTrim` | src/components/CostEstimator.tsx:17 | `text.trim().split(/\s+/).length` is the number of words, or 1 for blank text |
| `Heuristics.CeilDiv` | src/app/api/summarize/route.ts:35 | `Math.ceil(n / d)` is the least q with d * q >= n |
| `Heuristics.EstimateInputTokens` | src/app/api/summarize/route.ts:35 | `Math.ceil(length / 4)`: the least n with 4n at least the text's length (the same expression is src/components/CostEstimator.tsx:13 and src/lib/openai.ts:30) |
| `Heuristics.SplitWordCount` | src/app/api/summarize/route.ts:27 | `text.trim().split(/\s+/).length` is the number of words, or 1 for a blank text (the same expression is src/components/CostEstimator.tsx:17) |
| `Heuristics.ProportionalWords` | src/app/api/summarize/route.ts:29 | `Math.min(Math.ceil(words / 10), cap)`: at most the cap, and otherwise the least number of summary words that is at least a tenth of the input's words |
| `Heuristics.MaxOutputTokens` | src/app/api/summarize/route.ts:26-32 | `calculateMaxTokens` under a given cap: the least token count that is at least 1.3 times the proportional summary words (the same closure is src/components/CostEstimator.tsx:16-22 with a cap of 2000) |
| `Heuristics.CeilDivMonotone` | src/app/api/summarize/route.ts:29 | the ceiling quotient is non-decreasing in the dividend |
| `Heuristics.EstimateExceedsIff` | src/lib/openai.ts:30-36 | the estimated input tokens exceed a threshold exactly when the text has more than four times that many characters |
| `Heuristics.MaxOutputTokensMonotone` | src/components/CostEstimator.tsx:16-22 | the output budget `ceil(min(ceil(words/10), cap) * 1.3)` grows with the word count and with the cap |
| `Heuristics.MaxOutputTokensRange` | src/components/CostEstimator.tsx:19-21 | with at least one word and a positive cap, the budget lies between 2 and `ceil(1.3 * cap)` (2600 for the preview's cap of 2000) |
| `OpenAi.TierFor` | src/lib/openai.ts:30-40 | the mini tier (0.00015/0.0006) is chosen exactly when the estimated input tokens exceed 8000, the baseline tier (0.0015/0.002) otherwise |
| `OpenAi.MaxTokensSent` | src/lib/openai.ts:55 | an absent or zero `maxTokens` is sent as 500; any other value is sent as it is |
| `OpenAi.SummaryText` | src/lib/openai.ts:58 | the summary is the first choice's content when it is present and non-empty, otherwise "No summary generated"; it is never empty |
| `OpenAi.ChatRequestFor` | src/lib/openai.ts:30-56 | the request sent names `gpt-4o-mini` exactly for texts over 32000 characters and `gpt-3.5-turbo` otherwise, carries the fixed system instructions, a user message that is the fixed prefix followed by the text, the caller's temperature, and the caller's output ceiling, with 500 for an absent or zero one |
| `OpenAi.ExactCost` | src/lib/openai.ts:66-68 | the unrounded cost times 1000 is prompt tokens times the input rate plus completion tokens times the output rate, and it is non-negative at non-negative rates |
| `OpenAi.Summarize` | src/lib/openai.ts:58-79 | a thrown provider error propagates; missing usage rejects with "No usage information received from OpenAI API"; otherwise the cost is the 5-decimal rounding of the usage priced at the selected tier's rates, token counts are copied from the usage (the total is not recomputed), and the model is the provider-reported one |
| `OpenAi.GenerateSummary` | src/lib/openai.ts:22-84 | sends exactly one request, built from the selected tier, the text, the temperature and the output ceiling, and settles as `Summarize` says for the provider's outcome |
| `OpenAi.MiniTierIffLongText` | src/lib/openai.ts:30-36 | the mini tier is chosen exactly for texts longer than 32000 characters; exactly 8000 estimated tokens stays on the baseline tier |
| `OpenAi.TierMonotone` | src/lib/openai.ts:30-36 | if a text goes to the mini tier, every longer text does too |
| `OpenAi.MiniTierNeverCostlier` | src/lib/openai.ts:31-72 | for the same usage, the mini tier's rounded cost never exceeds the baseline tier's |
| `OpenAi.ActualCostAgreesWithCalculator` | src/lib/openai.ts:66-72 | on the baseline tier the actual cost equals `calculateCost`'s total for the usage; `gpt-4o-mini` has no price-table entry, so `calculateCost` would price it at baseline rates |
| `SummarizeRoute.IsBlank` | src/app/api/summarize/route.ts:11 | the blank-text test holds exactly when the text is missing, empty or only whitespace |
| `SummarizeRoute.TemperatureInRange` | src/app/api/summarize/route.ts:18 | the temperature check passes exactly for temperatures in the closed interval [0, 1] |
| `SummarizeRoute.MaxOutputTokensFor` | src/app/api/summarize/route.ts:26-36 | the route's budget is `calculateMaxTokens` with a cap of 400 summary words over the word count (1 for a blank text), and lies in [2, 520] for every text |
| `SummarizeRoute.PreCallEstimate` | src/app/api/summarize/route.ts:34-39 | the pre-call estimate prices `ceil(length / 4)` input tokens and the route's output estimate at `gpt-3.5-turbo` rates (0.0015 and 0.002 per 1000), with the total rounded to five decimals |
| `SummarizeRoute.SummarizerRequest` | src/app/api/summarize/route.ts:54-58 | the summarizer receives the trimmed text (which keeps every word and is empty exactly for blank text), the same temperature, and the route's budget, which the summarizer sends as it is because the budget is never 0 |
| `SummarizeRoute.EstimatedOutputTokens` | src/app/api/summarize/route.ts:37 | the output estimate is the smaller of the output budget and half the estimated input tokens, not rounded |
| `SummarizeRoute.ErrorResponse` | src/app/api/summarize/route.ts:73-87 | every caught value becomes a 500: an `Error` with its own message, anything else with "Internal server error" |
| `SummarizeRoute.Post` | src/app/api/summarize/route.ts:6-88 | blank text gives 400 "Text input is required" and temperature outside [0, 1] gives 400, both before any estimate or provider call; an estimate strictly over the ceiling gives 400 with the estimate and the ceiling and no provider call; otherwise exactly one provider call with the trimmed text, the same temperature and the route's output budget; an actual cost strictly over the ceiling gives 400 with the actual cost; errors give 500; a success is within the ceiling both before and after the call |
| `SummarizeRoute.HalfTokenEstimate` | src/app/api/summarize/route.ts:37 | a one-letter text has an output estimate of half a token |
| `SummarizeRoute.FourThousandCharacterEstimate` | src/app/api/summarize/route.ts:35-51 | a 4000-character text's estimate exceeds a ceiling of 0.0001 and stays within the default ceiling of 0.05 |
| `CostEstimator.Estimate` | src/components/CostEstimator.tsx:11-28 | input tokens are `ceil(length / 4)` of the untrimmed text; the output budget is `calculateMaxTokens` with a cap of 2000 summary words over `text.trim().split(/\s+/).length`, between 2 and 2600; output tokens are at most the budget and at most `ceil(input / 2)`, and equal to one of them; the cost is `calculateCost` at the default model; over-limit holds exactly when the total is strictly over the ceiling; approaching holds exactly when it is not over the limit and the total is over 80% of the ceiling; the two warnings never show together |
| `CostEstimator.EmptyTextPreview` | src/components/CostEstimator.tsx:13-27 | an empty text is previewed at 0 input tokens, 0 output tokens and zero cost |
| `CostEstimator.TrimmedPreCallWithinPreCall` | src/app/api/summarize/route.ts:27-39 | trimming a text never raises the route's pre-call estimate: it keeps every word and removes only characters |
| `CostEstimator.PreCallMonotone` | src/app/api/summarize/route.ts:35-39 | of two texts with the same output budget, the one with fewer estimated input tokens never has a higher pre-call estimate |
| `CostEstimator.TrimKeepsBudget` | src/app/api/summarize/route.ts:26-32 | trimming a text leaves the route's output budget unchanged |
| `CostEstimator.WordCountDisagreesOnBlank` | src/components/CostEstimator.tsx:17 | the preview's word count is the text box's word count, except that blank text counts 1 word in the preview and 0 under the text box |
| `CostEstimator.PreviewBoundsPreCallEstimate` | src/components/CostEstimator.tsx:19-28 | the preview's total cost is never below the route's pre-call estimate for the same text and for its trimmed form, which is what the page sends; so a preview within the ceiling means the pre-call check passes |
| `TemperatureSlider.BandOf` | src/components/TemperatureSlider.tsx:16-21 | `t <= 0.2` is Factual, `0.2 < t <= 0.5` Balanced, `0.5 < t <= 0.8` Creative, `t > 0.8` Very Creative, each an if-and-only-if |
| `TemperatureSlider.TemperatureLabel` | src/components/TemperatureSlider.tsx:16-21 | the label is the name of the temperature's band |
| `TemperatureSlider.TemperatureColor` | src/components/TemperatureSlider.tsx:23-28 | the colour is the temperature's band colour (green, yellow, orange, red) |
| `TemperatureSlider.LabelsMatchColors` | src/components/TemperatureSlider.tsx:16-28 | two temperatures share a label exactly when they share a colour |
| `TemperatureSlider.BandsOrdered` | src/components/TemperatureSlider.tsx:16-21 | a higher temperature never falls in a lower band |
| `TextInput.CharacterCount` | src/components/TextInput.tsx:30 | the character count is 0 exactly for the empty text and never below the number of words |
| `TextInput.CharacterCountOfPadding` | src/components/TextInput.tsx:30 | every character added before or after the text adds one to the count, whitespace included; with the empty text at 0 this makes the count the text's length |
| `TextInput.WordCount` | src/components/TextInput.tsx:34 | the count is the number of maximal non-whitespace runs, 0 exactly for empty or blank text, and never more than the character count |
| `TextInput.WordCountIgnoresPadding` | src/components/TextInput.tsx:34 | whitespace added before or after the text does not change the word count |

## Left out

- The OpenAI client: its lazy global creation and the `OPENAI_API_KEY` check (src/lib/openai.ts:5-20). A missing key, a network failure or an authentication failure is one of the provider's thrown outcomes.
- The provider request itself: the model only records what is sent (model, instructions, text, temperature, `max_tokens`).
- Request parsing and `NextResponse` construction. The body is a `RequestBody` with an optional string text and a numeric temperature. A body that is not JSON throws into the 500 branch. A `text` that is not a string is not modelled: when JavaScript treats it as false (`0`, `false`, `null`) the check at src/app/api/summarize/route.ts:11 answers 400 "Text input is required"; when JavaScript treats it as true, `.trim()` throws a `TypeError` and the answer is a 500 carrying that error's message.
- `SummarizeRoute.Post`: a missing or non-numeric `temperature` (`undefined`, `NaN`) passes the range check in JavaScript because both comparisons are false. Temperatures are reals here, so this gap is not modelled.
- The `console.error` logging in the two catch blocks (src/app/api/summarize/route.ts:74 and src/lib/openai.ts:81): console output only, with no effect on the response or on the value thrown.
- Reading `NEXT_PUBLIC_MAX_COST` through `parseFloat`: the ceiling is a parameter; the preview's default of 0.05 is `CostEstimator.DefaultMaxCost`.
- IEEE-754 floating point: costs and the 1.3 factor are exact here. Float rounding at the half-way points of `x * 100000` is not modelled. Nor is `p * 1.3` landing just above an integer.
- `Utils.RatesFor`: names inherited from `Object.prototype` (such as `"constructor"`) would be found by the JavaScript table lookup; every name outside the three listed models falls back here.
- `Utils.TruncateText`: takes an integer `maxLength`; non-integer or `NaN` limits are not modelled.
- String lengths count Dafny characters (Unicode scalar values), while JavaScript counts UTF-16 code units; characters outside the Basic Multilingual Plane count once here and twice there.
- Formatting: `formatCost`, `toFixed`, `toLocaleString`, and the text of the two cost-exceeded messages (the responses carry the numbers instead).
- `copyToClipboard`, the page component, the summary display, the layout and the Next.js configuration: DOM, React state and rendering only.
