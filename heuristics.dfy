/** The token heuristics used before the provider is called: one token per four characters,
    one summary word per ten words of input, 1.3 tokens per summary word. */
module Heuristics {
  import opened JsText

  /** `Math.ceil(n / d)` on non-negative integers: the least q with d * q >= n. */
  function CeilDiv(n: nat, d: nat): (q: nat)
    requires d > 0
    ensures d * q >= n
    ensures q == 0 || d * (q - 1) < n
  {
    (n + d - 1) / d
  }

  function Min(a: int, b: int): int
  {
    if a <= b then a else b
  }

  /** `Math.ceil(text.length / 4)`: the estimated number of input tokens of a text. */
  function EstimateInputTokens(text: string): (n: nat)
    ensures 4 * n >= |text|
    ensures n == 0 || 4 * (n - 1) < |text|
  {
    CeilDiv(|text|, 4)
  }

  /** `text.trim().split(/\s+/).length`, the word count both estimators use: the number of
      words, except that a blank text still splits into one (empty) piece. */
  function SplitWordCount(text: string): (n: nat)
    ensures n == if AllWhitespace(text) then 1 else Words(text)
    ensures n >= 1
  {
    SplitLengthOfTrim(text);
    SplitLength(Trim(text))
  }

  /** `Math.min(Math.ceil(wordCount / 10), capWords)`: the least number of summary words covering
      a tenth of the input, unless the cap is lower. */
  function ProportionalWords(wordCount: nat, capWords: nat): (p: nat)
    ensures p <= capWords
    ensures p == capWords || 10 * p >= wordCount
    ensures p == 0 || 10 * (p - 1) < wordCount
  {
    Min(CeilDiv(wordCount, 10), capWords)
  }

  /** `Math.ceil(proportionalWords * 1.3)`, written over the integers as a ceiling of 13p / 10:
      the least number of tokens at 1.3 tokens per summary word. */
  function MaxOutputTokens(wordCount: nat, capWords: nat): (t: nat)
    ensures 10 * t >= 13 * ProportionalWords(wordCount, capWords)
    ensures t == 0 || 10 * (t - 1) < 13 * ProportionalWords(wordCount, capWords)
  {
    CeilDiv(13 * ProportionalWords(wordCount, capWords), 10)
  }

  lemma CeilDivMonotone(m: nat, n: nat, d: nat)
    requires m <= n && d > 0
    ensures CeilDiv(m, d) <= CeilDiv(n, d)
  {
    var a, b := CeilDiv(m, d), CeilDiv(n, d);
    if a > 0 {
      assert d * (a - 1) < d * b;
      MulCancel(d, a - 1, b);
    }
  }

  lemma MulCancel(d: int, x: int, y: int)
    requires d > 0 && d * x < d * y
    ensures x < y
  {
    assert d * y - d * x == d * (y - x);
  }

  /** The text-length threshold equivalent of a token threshold: a text is estimated at more than
      `tokens` tokens exactly when it has more than 4 * tokens characters. */
  lemma EstimateExceedsIff(text: string, tokens: nat)
    ensures EstimateInputTokens(text) > tokens <==> |text| > 4 * tokens
  {
    var e := EstimateInputTokens(text);
    if e > tokens {
      assert 4 * (e - 1) >= 4 * tokens;
    }
  }

  /** The output budget grows with the word count and with the cap. */
  lemma MaxOutputTokensMonotone(w1: nat, w2: nat, cap1: nat, cap2: nat)
    requires w1 <= w2 && cap1 <= cap2
    ensures MaxOutputTokens(w1, cap1) <= MaxOutputTokens(w2, cap2)
  {
    CeilDivMonotone(w1, w2, 10);
    CeilDivMonotone(13 * ProportionalWords(w1, cap1), 13 * ProportionalWords(w2, cap2), 10);
  }

  /** With at least one word and a positive cap the budget is between two tokens and the cap's
      own budget, ceil(1.3 * cap). */
  lemma MaxOutputTokensRange(wordCount: nat, capWords: nat)
    requires wordCount >= 1 && capWords >= 1
    ensures 2 <= MaxOutputTokens(wordCount, capWords) <= CeilDiv(13 * capWords, 10)
  {
    var p := ProportionalWords(wordCount, capWords);
    assert p >= 1;
    CeilDivMonotone(13, 13 * p, 10);
    CeilDivMonotone(13 * p, 13 * capWords, 10);
  }
}
