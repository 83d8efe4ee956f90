/** The character and word counters under the text box. */
module TextInput {
  import opened JsText

  /** `value.length`: every character counts, whitespace included, so there are never fewer
      characters than words. */
  function CharacterCount(value: string): (n: nat)
    ensures n == 0 <==> value == []
    ensures Words(value) <= n
  {
    WordsAtMostLength(value, true);
    |value|
  }

  /** `value.trim() ? value.trim().split(/\s+/).length : 0`: the number of words of the text,
      zero exactly when it is blank, and never more than its characters. */
  function WordCount(value: string): (n: nat)
    ensures n == Words(value)
    ensures n == 0 <==> AllWhitespace(value)
    ensures n <= CharacterCount(value)
  {
    SplitLengthOfTrim(value);
    TrimEmptyIffBlank(value);
    WordsAtMostLength(value, true);
    if Trim(value) != [] then SplitLength(Trim(value)) else 0
  }

  /** Every character typed before or after the text counts once, whitespace or not; with the
      empty text counting zero, this makes the count the text's length. */
  lemma CharacterCountOfPadding(before: string, value: string, after: string)
    ensures CharacterCount(before + value + after) == |before| + CharacterCount(value) + |after|
  {
  }

  /** Whitespace typed before or after the text does not change the word count. */
  lemma WordCountIgnoresPadding(before: string, value: string, after: string)
    requires AllWhitespace(before) && AllWhitespace(after)
    ensures WordCount(before + value + after) == WordCount(value)
  {
    WordsIgnorePadding(before, value, after);
  }
}
