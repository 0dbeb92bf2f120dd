/** Character classes and the input filters of the demographics form.
    Each filter deletes, one character at a time, every character outside
    its class, which is what a regular-expression substitution of a
    negated character class by "" does. */
module Filters {

  /** Whitespace as Python's `\s` and `str.isspace` see it on ASCII:
      space, tab to carriage return, and the four separators 0x1C..0x1F. */
  predicate IsWhitespace(c: char) {
    c == ' ' || ('\t' <= c <= '\r') || ('\U{1C}' <= c <= '\U{1F}')
  }

  predicate IsAsciiLetter(c: char) {
    ('A' <= c <= 'Z') || ('a' <= c <= 'z')
  }

  predicate IsDigit(c: char) {
    '0' <= c <= '9'
  }

  /** The class `[A-Za-z\s'\-]` kept in the name fields. */
  function IsNameChar(c: char): (ok: bool)
    ensures ok ==> !IsDigit(c)
  {
    IsAsciiLetter(c) || IsWhitespace(c) || c == '\'' || c == '-'
  }

  /** The class `[0-9()\-\s]` kept in the phone field. */
  function IsPhoneChar(c: char): (ok: bool)
    ensures IsDigit(c) ==> ok
    ensures ok ==> !IsAsciiLetter(c)
  {
    IsDigit(c) || c == '(' || c == ')' || c == '-' || IsWhitespace(c)
  }

  /** Every character of `s` is in the class `p`. */
  predicate All(s: string, p: char -> bool) {
    forall i :: 0 <= i < |s| ==> p(s[i])
  }

  /** `a` can be obtained from `b` by deleting characters. */
  predicate IsSubsequence(a: string, b: string) {
    a == [] || (b != [] && ((a[0] == b[0] && IsSubsequence(a[1..], b[1..])) || IsSubsequence(a, b[1..])))
  }

  /** Deletes every character of `s` outside the class `p`. */
  function Keep(s: string, p: char -> bool): (r: string)
    ensures |r| <= |s|
    ensures All(r, p)
  {
    if s == [] then []
    else (if p(s[0]) then [s[0]] else []) + Keep(s[1..], p)
  }

  /** `_name_input_filter`: what is left of an inserted substring in a name field. */
  function FilterName(substring: string): (r: string)
    ensures All(r, IsNameChar)
    ensures |r| <= |substring|
  {
    Keep(substring, IsNameChar)
  }

  /** `_phone_input_filter`: what is left of an inserted substring in the phone field. */
  function FilterPhone(substring: string): (r: string)
    ensures All(r, IsPhoneChar)
    ensures |r| <= |substring|
  {
    Keep(substring, IsPhoneChar)
  }

  /** Inserting text of a class into text of that class stays in the class. */
  lemma InsertKeepsClass(text: string, at: nat, kept: string, p: char -> bool)
    requires at <= |text| && All(text, p) && All(kept, p)
    ensures All(text[..at] + kept + text[at..], p)
  {
    var updated := text[..at] + kept + text[at..];
    forall i | 0 <= i < |updated| ensures p(updated[i]) {
      if i < at {
        assert updated[i] == text[i];
      } else if i < at + |kept| {
        assert updated[i] == kept[i - at];
      } else {
        assert updated[i] == text[i - |kept|];
      }
    }
  }

  /** Deleting a range of text of a class leaves text of that class. */
  lemma DeleteKeepsClass(text: string, from: nat, to: nat, p: char -> bool)
    requires from <= to <= |text| && All(text, p)
    ensures All(text[..from] + text[to..], p)
  {
    var updated := text[..from] + text[to..];
    forall i | 0 <= i < |updated| ensures p(updated[i]) {
      if i < from {
        assert updated[i] == text[i];
      } else {
        assert updated[i] == text[i + to - from];
      }
    }
  }

  /** The name filter keeps exactly the name characters of its input, in order. */
  lemma FilterNameExact(substring: string, c: char)
    ensures multiset(FilterName(substring))[c] == if IsNameChar(c) then multiset(substring)[c] else 0
    ensures IsSubsequence(FilterName(substring), substring)
  {
    KeepCount(substring, IsNameChar, c);
    KeepIsSubsequence(substring, IsNameChar);
  }

  /** The phone filter keeps exactly the phone characters of its input, in order. */
  lemma FilterPhoneExact(substring: string, c: char)
    ensures multiset(FilterPhone(substring))[c] == if IsPhoneChar(c) then multiset(substring)[c] else 0
    ensures IsSubsequence(FilterPhone(substring), substring)
  {
    KeepCount(substring, IsPhoneChar, c);
    KeepIsSubsequence(substring, IsPhoneChar);
  }

  /** Filtering a concatenation filters each part: filtering every inserted
      piece separately gives the same text as filtering all of it at once. */
  lemma {:induction false} KeepAppend(a: string, b: string, p: char -> bool)
    ensures Keep(a + b, p) == Keep(a, p) + Keep(b, p)
  {
    if a == [] {
      assert a + b == b;
    } else {
      var head := if p(a[0]) then [a[0]] else [];
      assert (a + b)[0] == a[0] && (a + b)[1..] == a[1..] + b;
      calc {
        Keep(a + b, p);
        head + Keep(a[1..] + b, p);
        { KeepAppend(a[1..], b, p); }
        head + (Keep(a[1..], p) + Keep(b, p));
        (head + Keep(a[1..], p)) + Keep(b, p);
      }
    }
  }

  /** Text already inside the class passes through unchanged. */
  lemma {:induction false} KeepAllKept(s: string, p: char -> bool)
    requires All(s, p)
    ensures Keep(s, p) == s
  {
    if s != [] {
      KeepAllKept(s[1..], p);
    }
  }

  /** Filtering twice is filtering once. */
  lemma KeepIdempotent(s: string, p: char -> bool)
    ensures Keep(Keep(s, p), p) == Keep(s, p)
  {
    KeepAllKept(Keep(s, p), p);
  }

  /** Exactly the characters outside the class are removed: every kept
      character occurs as often as in the input, every other one not at all. */
  lemma {:induction false} KeepCount(s: string, p: char -> bool, c: char)
    ensures multiset(Keep(s, p))[c] == if p(c) then multiset(s)[c] else 0
  {
    if s != [] {
      assert s == [s[0]] + s[1..];
      assert multiset(s) == multiset([s[0]]) + multiset(s[1..]);
      KeepCount(s[1..], p, c);
    }
  }

  /** The kept characters stay in their original order. */
  lemma {:induction false} KeepIsSubsequence(s: string, p: char -> bool)
    ensures IsSubsequence(Keep(s, p), s)
  {
    if s != [] {
      KeepIsSubsequence(s[1..], p);
      var rest := Keep(s[1..], p);
      if p(s[0]) {
        var r := [s[0]] + rest;
        assert Keep(s, p) == r && r[0] == s[0] && r[1..] == rest;
        assert IsSubsequence(r, s);
      } else {
        assert Keep(s, p) == rest;
        assert IsSubsequence(rest, s);
      }
    }
  }
}
