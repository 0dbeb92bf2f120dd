/** The field validators of the demographics form. */
module Validators {
  import opened Filters

  /** The five age ranges the spinner offers. */
  const AgeOptions: seq<string> := ["18-24", "25-34", "35-44", "45-54", "55+"]

  /** The spinner's initial text, shown until a range is picked. */
  const AgePrompt: string := "Select age range"

  /** Python's `str.lstrip()`: leading whitespace removed. */
  function TrimStart(s: string): (r: string)
    ensures |r| <= |s|
  {
    if s != [] && IsWhitespace(s[0]) then TrimStart(s[1..]) else s
  }

  /** Python's `str.rstrip()`: trailing whitespace removed. */
  function TrimEnd(s: string): (r: string)
    ensures |r| <= |s|
  {
    if s != [] && IsWhitespace(s[|s| - 1]) then TrimEnd(s[..|s| - 1]) else s
  }

  /** Python's `str.strip()`. */
  function Strip(s: string): (r: string)
    ensures |r| <= |s|
  {
    TrimEnd(TrimStart(s))
  }

  /** `s` is whitespace followed by `TrimStart(s)`, which does not start with whitespace. */
  lemma {:induction false} TrimStartFacts(s: string)
    ensures var r := TrimStart(s);
      && |r| <= |s| && r == s[|s| - |r|..]
      && (forall k :: 0 <= k < |s| - |r| ==> IsWhitespace(s[k]))
      && (r != [] ==> !IsWhitespace(r[0]))
  {
    if s != [] && IsWhitespace(s[0]) {
      TrimStartFacts(s[1..]);
    }
  }

  /** `s` is `TrimEnd(s)` followed by whitespace, and `TrimEnd(s)` does not end with whitespace. */
  lemma {:induction false} TrimEndFacts(s: string)
    ensures var r := TrimEnd(s);
      && |r| <= |s| && r == s[..|r|]
      && (forall k :: |r| <= k < |s| ==> IsWhitespace(s[k]))
      && (r != [] ==> !IsWhitespace(r[|r| - 1]))
  {
    if s != [] && IsWhitespace(s[|s| - 1]) {
      TrimEndFacts(s[..|s| - 1]);
    }
  }

  /** Stripping removes whitespace at both ends and nowhere else: the result
      is a run of `s` after `i` whitespace characters, empty exactly when `s`
      is all whitespace, and otherwise bounded by non-whitespace characters. */
  lemma StripFacts(s: string)
    ensures var r, i := Strip(s), |s| - |TrimStart(s)|;
      && (r == [] <==> forall k :: 0 <= k < |s| ==> IsWhitespace(s[k]))
      && (r != [] ==> !IsWhitespace(r[0]) && !IsWhitespace(r[|r| - 1]))
      && i + |r| <= |s| && r == s[i..i + |r|]
      && (forall k :: 0 <= k < i ==> IsWhitespace(s[k]))
      && (forall k :: i + |r| <= k < |s| ==> IsWhitespace(s[k]))
  {
    var t := TrimStart(s);
    var r := TrimEnd(t);
    var i := |s| - |t|;
    TrimStartFacts(s);
    TrimEndFacts(t);
    forall k | i + |r| <= k < |s| ensures IsWhitespace(s[k]) {
      assert s[k] == t[k - i];
    }
  }

  /** The anchored pattern `^[A-Za-z][A-Za-z\s'\-]*$`. */
  function MatchesNamePattern(t: string): (ok: bool)
    ensures ok ==> All(t, IsNameChar)
  {
    |t| > 0 && IsAsciiLetter(t[0]) && forall i :: 1 <= i < |t| ==> IsNameChar(t[i])
  }

  /** `_valid_name`: the stripped text is non-empty and matches the pattern. */
  function ValidName(value: string): (ok: bool)
    ensures ok ==> |value| > 0
  {
    var stripped := Strip(value);
    stripped != [] && MatchesNamePattern(stripped)
  }

  /** `_valid_age`: the spinner shows one of the five ranges. */
  function ValidAge(ageText: string): (ok: bool)
    ensures ok ==> 3 <= |ageText| <= 5
  {
    ageText in AgeOptions
  }

  /** Some letter of `value` is preceded by whitespace alone. */
  predicate FirstVisibleIsLetter(value: string) {
    exists k :: 0 <= k < |value| && IsAsciiLetter(value[k]) && forall j :: 0 <= j < k ==> IsWhitespace(value[j])
  }

  /** A name is valid exactly when all of its characters are name characters
      and its first non-whitespace character is a letter. So the empty
      string, whitespace alone, and text whose first visible character is a
      digit or punctuation are rejected. */
  lemma ValidNameIff(value: string)
    ensures ValidName(value) <==> All(value, IsNameChar) && FirstVisibleIsLetter(value)
  {
    if ValidName(value) {
      ValidNameOnlyIf(value);
    }
    if All(value, IsNameChar) && FirstVisibleIsLetter(value) {
      ValidNameIf(value);
    }
  }

  lemma ValidNameOnlyIf(value: string)
    requires ValidName(value)
    ensures All(value, IsNameChar) && FirstVisibleIsLetter(value)
  {
    var t := TrimStart(value);
    var r := Strip(value);
    var i := |value| - |t|;
    StripFacts(value);
    assert r[0] == value[i];
    forall k | 0 <= k < |value| ensures IsNameChar(value[k]) {
      if i <= k < i + |r| {
        assert value[k] == r[k - i];
      }
    }
  }

  lemma ValidNameIf(value: string)
    requires All(value, IsNameChar) && FirstVisibleIsLetter(value)
    ensures ValidName(value)
  {
    var t := TrimStart(value);
    var r := Strip(value);
    var i := |value| - |t|;
    StripFacts(value);
    var k :| 0 <= k < |value| && IsAsciiLetter(value[k]) && forall j :: 0 <= j < k ==> IsWhitespace(value[j]);
    assert !IsWhitespace(value[k]);
    assert r != [];
    assert r[0] == value[i] && !IsWhitespace(r[0]);
    assert i == k;
    assert r[0] == value[k];
    forall m | 1 <= m < |r| ensures IsNameChar(r[m]) {
      assert r[m] == value[i + m];
    }
  }

  /** The prompt is never a valid age. */
  lemma PromptIsNotAnAge()
    ensures !ValidAge(AgePrompt)
  {
    assert AgePrompt[0] == 'S';
    forall o | o in AgeOptions ensures o != AgePrompt {
      assert o[0] != 'S';
    }
  }
}
