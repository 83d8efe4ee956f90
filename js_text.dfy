/** The JavaScript string operations the counters rely on: `trim()` and the number of pieces
    `split(/\s+/)` produces. */
module JsText {

  /** ECMAScript WhiteSpace and LineTerminator code points: exactly what `\s` matches and what
      `trim()` removes. */
  predicate IsWhitespace(c: char) {
    var n := c as int;
    n == 0x09 || n == 0x0A || n == 0x0B || n == 0x0C || n == 0x0D || n == 0x20 || n == 0xA0
    || n == 0x1680 || (0x2000 <= n <= 0x200A) || n == 0x2028 || n == 0x2029 || n == 0x202F
    || n == 0x205F || n == 0x3000 || n == 0xFEFF
  }

  predicate AllWhitespace(s: string) {
    forall i :: 0 <= i < |s| ==> IsWhitespace(s[i])
  }

  /** How many whitespace characters `trim()` removes from the front of `s`: the length of its
      longest whitespace prefix. */
  function LeadingWhitespace(s: string): (k: nat)
    ensures k <= |s| && AllWhitespace(s[..k])
    ensures k == |s| || !IsWhitespace(s[k])
  {
    if s != [] && IsWhitespace(s[0]) then
      var k := LeadingWhitespace(s[1..]);
      WhitespaceBeforeTail(s, k);
      k + 1
    else
      0
  }

  /** `s` without its leading whitespace: a suffix of `s`, preceded only by whitespace. */
  function TrimStart(s: string): (r: string)
    ensures |r| <= |s| && r == s[|s| - |r|..]
    ensures AllWhitespace(s[..|s| - |r|])
    ensures r == [] || !IsWhitespace(r[0])
  {
    s[LeadingWhitespace(s)..]
  }

  /** `s` without its trailing whitespace: a prefix of `s`, followed only by whitespace. */
  function TrimEnd(s: string): (r: string)
    ensures |r| <= |s| && r == s[..|r|]
    ensures AllWhitespace(s[|r|..])
    ensures r == [] || !IsWhitespace(r[|r| - 1])
  {
    if s != [] && IsWhitespace(s[|s| - 1]) then
      var r := TrimEnd(s[..|s| - 1]);
      assert s[..|r|] == s[..|s| - 1][..|r|];
      assert s[|r|..] == s[..|s| - 1][|r|..] + [s[|s| - 1]];
      WhitespaceAppend(s[..|s| - 1][|r|..], [s[|s| - 1]]);
      r
    else
      s
  }

  /** A whitespace character followed by a whitespace prefix of the rest is a whitespace prefix
      of `s`, and the character after it is the one after the prefix of the rest. */
  lemma WhitespaceBeforeTail(s: string, k: nat)
    requires s != [] && IsWhitespace(s[0]) && k <= |s| - 1 && AllWhitespace(s[1..][..k])
    ensures AllWhitespace(s[..k + 1])
    ensures k + 1 < |s| ==> s[k + 1] == s[1..][k]
  {
    assert s[..k + 1] == [s[0]] + s[1..][..k];
    WhitespaceAppend([s[0]], s[1..][..k]);
  }

  lemma WhitespaceAppend(a: string, b: string)
    requires AllWhitespace(a) && AllWhitespace(b)
    ensures AllWhitespace(a + b)
  {
    forall i | 0 <= i < |a + b|
      ensures IsWhitespace((a + b)[i])
    {
      if i < |a| {
        assert (a + b)[i] == a[i];
      } else {
        assert (a + b)[i] == b[i - |a|];
      }
    }
  }

  /** `s.trim()`: the slice of `s` left after removing whitespace at both ends; it neither starts
      nor ends with whitespace. */
  function Trim(s: string): (r: string)
    ensures LeadingWhitespace(s) + |r| <= |s|
    ensures r == s[LeadingWhitespace(s)..LeadingWhitespace(s) + |r|]
    ensures AllWhitespace(s[..LeadingWhitespace(s)])
    ensures AllWhitespace(s[LeadingWhitespace(s) + |r|..])
    ensures r == [] || (!IsWhitespace(r[0]) && !IsWhitespace(r[|r| - 1]))
  {
    var k := LeadingWhitespace(s);
    var t := TrimStart(s);
    assert t == s[k..];
    var r := TrimEnd(t);
    SuffixPrefix(s, k, t, r);
    assert r != [] ==> !IsWhitespace(r[0]);
    r
  }

  /** A prefix `r` of the suffix `t` of `s` starting at `k` is the slice of `s` from `k`, and what
      follows `r` in `t` is what follows it in `s`. */
  lemma SuffixPrefix(s: string, k: nat, t: string, r: string)
    requires k <= |s| && t == s[k..] && |r| <= |t| && r == t[..|r|]
    ensures k + |r| <= |s| && r == s[k..k + |r|] && t[|r|..] == s[k + |r|..]
    ensures r != [] ==> r[0] == t[0]
  {
  }

  /** Number of maximal non-whitespace runs in `s`, given whether the character before `s` was
      whitespace. */
  function WordStarts(s: string, afterSpace: bool): nat
  {
    if s == [] then 0
    else (if afterSpace && !IsWhitespace(s[0]) then 1 else 0) + WordStarts(s[1..], IsWhitespace(s[0]))
  }

  /** Number of maximal whitespace runs in `s`, given whether the character before `s` was
      whitespace. */
  function SpaceStarts(s: string, afterSpace: bool): nat
  {
    if s == [] then 0
    else (if !afterSpace && IsWhitespace(s[0]) then 1 else 0) + SpaceStarts(s[1..], IsWhitespace(s[0]))
  }

  /** Whether the last character seen, after reading `s`, was whitespace. */
  function EndsInSpace(s: string, afterSpace: bool): bool
  {
    if s == [] then afterSpace else IsWhitespace(s[|s| - 1])
  }

  /** The number of words of `s`: its maximal runs of non-whitespace characters. */
  function Words(s: string): (n: nat)
    ensures n == 0 <==> AllWhitespace(s)
    ensures n <= |s|
  {
    WordsAtMostLength(s, true);
    if AllWhitespace(s) then
      NoWordsInWhitespace(s, true);
      WordStarts(s, true)
    else
      SomeWordUnlessBlank(s, true);
      WordStarts(s, true)
  }

  /** `s.split(/\s+/).length`: every maximal whitespace run is one separator match, and n matches
      cut the string into n + 1 pieces (empty pieces included). */
  function SplitLength(s: string): (n: nat)
    ensures n >= 1
    ensures s != [] && !IsWhitespace(s[0]) && !IsWhitespace(s[|s| - 1]) ==> n == Words(s)
  {
    if s != [] && !IsWhitespace(s[0]) && !IsWhitespace(s[|s| - 1]) then
      PiecesOfTrimmed(s);
      1 + SpaceStarts(s, false)
    else
      1 + SpaceStarts(s, false)
  }

  /** Runs of the two kinds alternate, so their counts differ by how the string begins and ends. */
  lemma {:induction false} RunsAlternate(s: string, afterSpace: bool)
    ensures WordStarts(s, afterSpace) + (if afterSpace then 0 else 1)
         == SpaceStarts(s, afterSpace) + (if EndsInSpace(s, afterSpace) then 0 else 1)
  {
    if s != [] {
      RunsAlternate(s[1..], IsWhitespace(s[0]));
      assert EndsInSpace(s[1..], IsWhitespace(s[0])) == EndsInSpace(s, afterSpace);
    }
  }

  lemma {:induction false} WordStartsAppend(a: string, b: string, afterSpace: bool)
    ensures WordStarts(a + b, afterSpace) == WordStarts(a, afterSpace) + WordStarts(b, EndsInSpace(a, afterSpace))
  {
    if a == [] {
      assert a + b == b;
    } else {
      assert (a + b)[1..] == a[1..] + b;
      WordStartsAppend(a[1..], b, IsWhitespace(a[0]));
      assert EndsInSpace(a[1..], IsWhitespace(a[0])) == EndsInSpace(a, afterSpace);
    }
  }

  lemma {:induction false} NoWordsInWhitespace(s: string, afterSpace: bool)
    requires AllWhitespace(s)
    ensures WordStarts(s, afterSpace) == 0
  {
    if s != [] {
      NoWordsInWhitespace(s[1..], IsWhitespace(s[0]));
    }
  }

  /** Right after whitespace, a string that is not blank starts at least one word. */
  lemma {:induction false} SomeWordUnlessBlank(s: string, afterSpace: bool)
    requires afterSpace && !AllWhitespace(s)
    ensures WordStarts(s, afterSpace) >= 1
  {
    if IsWhitespace(s[0]) {
      assert !AllWhitespace(s[1..]);
      SomeWordUnlessBlank(s[1..], true);
    }
  }

  /** On a string that neither starts nor ends with whitespace, the whitespace runs are exactly
      the gaps between its words, so `split(/\s+/)` yields one piece per word. */
  lemma PiecesOfTrimmed(t: string)
    requires t != [] && !IsWhitespace(t[0]) && !IsWhitespace(t[|t| - 1])
    ensures 1 + SpaceStarts(t, false) == WordStarts(t, true)
  {
    RunsAlternate(t, true);
    assert SpaceStarts(t, true) == SpaceStarts(t, false);
  }

  /** A string has no more words than characters. */
  lemma {:induction false} WordsAtMostLength(s: string, afterSpace: bool)
    ensures WordStarts(s, afterSpace) <= |s|
  {
    if s != [] {
      WordsAtMostLength(s[1..], IsWhitespace(s[0]));
    }
  }

  /** Whitespace added at either end of a string does not change its word count. */
  lemma WordsIgnorePadding(before: string, s: string, after: string)
    requires AllWhitespace(before) && AllWhitespace(after)
    ensures Words(before + s + after) == Words(s)
  {
    WordStartsAppend(before + s, after, true);
    WordStartsAppend(before, s, true);
    NoWordsInWhitespace(before, true);
    NoWordsInWhitespace(after, EndsInSpace(before + s, true));
  }

  /** A string is its leading whitespace, its trimmed text and its trailing whitespace. */
  lemma TrimSplits(s: string)
    ensures var k := LeadingWhitespace(s);
      s == s[..k] + Trim(s) + s[k + |Trim(s)|..]
  {
    var k, r := LeadingWhitespace(s), Trim(s);
    var j := k + |r|;
    assert r == s[k..j];
    SliceSplit(s, k, j);
  }

  lemma SliceSplit(s: string, i: nat, j: nat)
    requires i <= j <= |s|
    ensures s == s[..i] + s[i..j] + s[j..]
  {
  }

  /** `trim()` removes no word. */
  lemma WordsOfTrim(s: string)
    ensures Words(Trim(s)) == Words(s)
  {
    var k, r := LeadingWhitespace(s), Trim(s);
    TrimSplits(s);
    WordsIgnorePadding(s[..k], r, s[k + |r|..]);
  }

  /** `trim()` yields the empty string exactly for blank strings. */
  lemma TrimEmptyIffBlank(s: string)
    ensures Trim(s) == [] <==> AllWhitespace(s)
  {
    var k, r := LeadingWhitespace(s), Trim(s);
    if r == [] {
      assert TrimStart(s) == [];
      assert s[..k] == s;
    } else {
      assert r[0] == s[k];
    }
  }


  /** `s.trim().split(/\s+/).length` is the word count of `s`, except that a blank `s` gives one
      (empty) piece. */
  lemma SplitLengthOfTrim(s: string)
    ensures SplitLength(Trim(s)) == if AllWhitespace(s) then 1 else Words(s)
  {
    TrimEmptyIffBlank(s);
    WordsOfTrim(s);
  }
}
