/** Concrete behaviour of the form on sample inputs. */
module Scenarios {
  import opened Filters
  import opened Phone
  import opened Validators
  import opened LabelOrder
  import opened Form

  /** Hyphens, apostrophes and inner spaces are accepted in a name. */
  lemma AcceptedNames()
    ensures ValidName("Mary-Jane") && ValidName("O'Brien") && ValidName("Anna Maria") && ValidName("  Jane ")
  {
    LetterFirst("Mary-Jane");
    LetterFirst("O'Brien");
    LetterFirst("Anna Maria");
    assert IsAsciiLetter("  Jane "[2]) && IsWhitespace("  Jane "[0]) && IsWhitespace("  Jane "[1]);
    ValidNameIf("  Jane ");
  }

  /** A name of name characters that starts with a letter is valid. */
  lemma LetterFirst(name: string)
    requires |name| > 0 && IsAsciiLetter(name[0]) && All(name, IsNameChar)
    ensures ValidName(name)
  {
    ValidNameIf(name);
  }

  /** Empty text, whitespace alone and a leading digit or punctuation mark are rejected. */
  lemma RejectedNames()
    ensures !ValidName("") && !ValidName("   ") && !ValidName("9Lives") && !ValidName("-Ann") && !ValidName(" 'Ann")
  {
    ValidNameIff("");
    ValidNameIff("   ");
    ValidNameIff("9Lives");
    ValidNameIff("-Ann");
    ValidNameIff(" 'Ann");
    assert !FirstVisibleIsLetter("9Lives") by {
      forall k | 0 <= k < 6 && IsAsciiLetter("9Lives"[k]) ensures !IsWhitespace("9Lives"[0]) { }
    }
  }

  lemma TenDigitsExtracted()
    ensures ExtractDigits("5551234567") == "5551234567"
  {
    assert All("5551234567", IsDigit);
    KeepAllKept("5551234567", IsDigit);
  }

  lemma TenDigitsRendered()
    ensures FormatPhone("5551234567") == "(555) 123-4567"
  {
    var typed := "5551234567";
    assert Slice(typed, 0, 3) == "555";
    assert Slice(typed, 3, 6) == "123";
    assert Slice(typed, 6, 16) == "4567";
  }

  /** Ten typed digits are reformatted on focus loss. */
  lemma TenDigitsFormatted()
    ensures NormalizeOnBlur("5551234567") == "(555) 123-4567"
  {
    TenDigitsExtracted();
    TenDigitsRendered();
  }

  /** Six typed digits are left as typed on focus loss, and the phone stays invalid. */
  lemma SixDigitsKept()
    ensures NormalizeOnBlur("555123") == "555123" && !ValidPhone("555123")
  {
    var typed := "555123";
    assert ExtractDigits(typed) == typed by {
      assert All(typed, IsDigit);
      KeepAllKept(typed, IsDigit);
    }
  }

  /** The digits of the display form are the typed digits. */
  lemma DisplayDigits()
    ensures ExtractDigits("(555) 123-4567") == "5551234567"
  {
    assert All("5551234567", IsDigit);
    ExtractFormatRoundTrip("5551234567");
    TenDigitsRendered();
  }

  /** A sample entry (Jane, Doe, 25-34, Non-binary, (555) 123-4567) is ready to submit. */
  lemma JaneDoeReady()
    ensures Ready("Jane", "Doe", "25-34", {"Non-binary"}, "(555) 123-4567")
  {
    LetterFirst("Jane");
    LetterFirst("Doe");
    DisplayDigits();
  }

  /** The payload of that sample submission. */
  lemma JaneDoePayload()
    ensures BuildPayload("Jane", "Doe", "25-34", {"Non-binary"}, "(555) 123-4567")
         == Payload("Jane", "Doe", "25-34", ["Non-binary"], "(555) 123-4567")
  {
    assert Strip("Jane") == "Jane";
    assert Strip("Doe") == "Doe";
    var sorted := SortedLabels({"Non-binary"});
    assert |sorted| == 1 && sorted[0] in {"Non-binary"};
    DisplayDigits();
    TenDigitsRendered();
  }
}
