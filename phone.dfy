/** The phone normaliser: digit extraction and the `(AAA) PPP-LLLL` display form. */
module Phone {
  import opened Filters

  /** `_extract_digits`: the digits of `text`, in order (removes every match of `\D`). */
  function ExtractDigits(text: string): (digits: string)
    ensures All(digits, IsDigit)
    ensures |digits| <= |text|
  {
    Keep(text, IsDigit)
  }

  /** Digit extraction keeps exactly the digits of the text, in order. */
  lemma ExtractDigitsExact(text: string, c: char)
    ensures multiset(ExtractDigits(text))[c] == if IsDigit(c) then multiset(text)[c] else 0
    ensures IsSubsequence(ExtractDigits(text), text)
  {
    KeepCount(text, IsDigit, c);
    KeepIsSubsequence(text, IsDigit);
  }

  /** Python's `s[lo:hi]` for `0 <= lo <= hi`: both bounds are clamped to the length. */
  function Slice(s: string, lo: nat, hi: nat): (r: string)
    requires lo <= hi
    ensures |r| == (if hi <= |s| then hi else |s|) - (if lo <= |s| then lo else |s|)
  {
    var h := if hi <= |s| then hi else |s|;
    var l := if lo <= |s| then lo else |s|;
    s[l..h]
  }

  /** `_format_phone`: splits into area (first 3), prefix (next 3) and line
      (the rest) and renders `(area) prefix-line`. Python's slicing makes it
      total; the form only calls it with exactly 10 digits. */
  function FormatPhone(digits: string): (r: string)
    ensures |digits| == 10 ==>
      && |r| == 14
      && r[0] == '(' && r[4] == ')' && r[5] == ' ' && r[9] == '-'
      && r[1..4] == digits[..3] && r[6..9] == digits[3..6] && r[10..] == digits[6..]
  {
    "(" + Slice(digits, 0, 3) + ") " + Slice(digits, 3, 6) + "-" + Slice(digits, 6, |digits| + 6)
  }

  /** What focus loss does to the phone text: reformat when it holds exactly
      10 digits, otherwise leave it as typed. */
  function NormalizeOnBlur(text: string): (r: string)
    ensures |ExtractDigits(text)| != 10 ==> r == text
    ensures |ExtractDigits(text)| == 10 ==> |r| == 14 && r[0] == '(' && r[4] == ')' && r[5] == ' ' && r[9] == '-'
  {
    var digits := ExtractDigits(text);
    if |digits| == 10 then FormatPhone(digits) else text
  }

  /** `_valid_phone`: the text holds exactly 10 digits, whatever punctuation surrounds them. */
  function ValidPhone(text: string): (ok: bool)
    ensures ok ==> |text| >= 10
  {
    |ExtractDigits(text)| == 10
  }

  /** Round trip: extracting the digits of a formatted number gives back the
      digits, for a digit string of any length. */
  lemma ExtractFormatRoundTrip(digits: string)
    requires All(digits, IsDigit)
    ensures ExtractDigits(FormatPhone(digits)) == digits
  {
    var n := |digits|;
    var a, b, c := Slice(digits, 0, 3), Slice(digits, 3, 6), Slice(digits, 6, n + 6);
    assert a + b + c == digits;
    assert All(a, IsDigit) && All(b, IsDigit) && All(c, IsDigit);
    KeepAllKept(a, IsDigit);
    KeepAllKept(b, IsDigit);
    KeepAllKept(c, IsDigit);
    var s1 := "(" + a;
    KeepAppend("(", a, IsDigit);
    assert Keep(s1, IsDigit) == a;
    var s2 := s1 + ") " + b;
    KeepAppend(s1, ") ", IsDigit);
    KeepAppend(s1 + ") ", b, IsDigit);
    assert Keep(s2, IsDigit) == a + b;
    var s3 := s2 + "-" + c;
    KeepAppend(s2, "-", IsDigit);
    KeepAppend(s2 + "-", c, IsDigit);
    assert Keep(s3, IsDigit) == a + b + c;
    assert FormatPhone(digits) == s3;
  }

  /** A formatted digit string is acceptable phone-field text. */
  lemma FormatPhoneChars(digits: string)
    requires All(digits, IsDigit)
    ensures All(FormatPhone(digits), IsPhoneChar)
  {
    var n := |digits|;
    var r := FormatPhone(digits);
    var a, b, c := Slice(digits, 0, 3), Slice(digits, 3, 6), Slice(digits, 6, n + 6);
    assert r == "(" + a + ") " + b + "-" + c;
    forall i | 0 <= i < |r| ensures IsPhoneChar(r[i]) {
      if i == 0 || i == |a| + 1 || i == |a| + 2 || i == |a| + |b| + 3 {
      } else if i < |a| + 1 {
        assert r[i] == a[i - 1];
      } else if i < |a| + |b| + 3 {
        assert r[i] == b[i - |a| - 3];
      } else {
        assert r[i] == c[i - |a| - |b| - 4];
      }
    }
  }

  /** Focus loss keeps the digits, so it never changes whether the phone is valid. */
  lemma NormalizeKeepsDigits(text: string)
    ensures ExtractDigits(NormalizeOnBlur(text)) == ExtractDigits(text)
    ensures ValidPhone(NormalizeOnBlur(text)) == ValidPhone(text)
  {
    if |ExtractDigits(text)| == 10 {
      ExtractFormatRoundTrip(ExtractDigits(text));
    }
  }

  /** Re-formatting already formatted text changes nothing. */
  lemma NormalizeIdempotent(text: string)
    ensures NormalizeOnBlur(NormalizeOnBlur(text)) == NormalizeOnBlur(text)
  {
    NormalizeKeepsDigits(text);
  }

  /** Text that is already in display form is left as it is. */
  lemma FormattedIsFixedPoint(digits: string)
    requires |digits| == 10 && All(digits, IsDigit)
    ensures NormalizeOnBlur(FormatPhone(digits)) == FormatPhone(digits)
  {
    ExtractFormatRoundTrip(digits);
  }

  /** Focus loss keeps the phone field inside its character class. */
  lemma NormalizeKeepsPhoneChars(text: string)
    requires All(text, IsPhoneChar)
    ensures All(NormalizeOnBlur(text), IsPhoneChar)
  {
    if |ExtractDigits(text)| == 10 {
      FormatPhoneChars(ExtractDigits(text));
    }
  }
}
