/** The form state machine: the widget state of `DemographicsForm`, its
    event handlers, the submit-readiness flag and the submitted payload. */
module Form {
  import opened Filters
  import opened Phone
  import opened Validators
  import opened LabelOrder

  datatype Option<T> = None | Some(value: T)

  /** The three text inputs. */
  datatype TextField = FirstName | LastName | PhoneNumber

  /** The dictionary `_payload` builds. */
  datatype Payload = Payload(
    firstName: string,
    lastName: string,
    ageRange: string,
    gendersSelected: seq<string>,
    phoneNumber: string)

  /** The input filter installed on each text field. */
  function FieldFilter(f: TextField, substring: string): (r: string)
    ensures All(r, FieldClass(f))
    ensures |r| <= |substring|
  {
    if f == PhoneNumber then FilterPhone(substring) else FilterName(substring)
  }

  /** The character class each text field is kept in by its filter. */
  function FieldClass(f: TextField): char -> bool {
    if f == PhoneNumber then IsPhoneChar else IsNameChar
  }

  /** The conjunction `_update_submit_state` computes. */
  function Ready(first: string, last: string, age: string, genders: set<string>, phone: string): (ok: bool)
    ensures ok ==> |first| > 0 && |last| > 0 && genders != {} && |phone| >= 10
  {
    ValidName(first) && ValidName(last) && ValidAge(age) && genders != {} && ValidPhone(phone)
  }

  /** `_payload`: stripped names, the age text, the genders in sorted order,
      and the phone in display form when it holds 10 digits (as typed otherwise). */
  function BuildPayload(first: string, last: string, age: string, genders: set<string>, phone: string): (p: Payload)
    ensures p.firstName == Strip(first) && p.lastName == Strip(last) && p.ageRange == age
    ensures |p.gendersSelected| == |genders| && StrictlySorted(p.gendersSelected)
    ensures forall g :: g in p.gendersSelected <==> g in genders
    ensures ValidPhone(phone) ==> p.phoneNumber == FormatPhone(ExtractDigits(phone))
    ensures ValidPhone(phone) ==> |p.phoneNumber| == 14 && ExtractDigits(p.phoneNumber) == ExtractDigits(phone)
    ensures !ValidPhone(phone) ==> p.phoneNumber == phone
  {
    var digits := ExtractDigits(phone);
    var formatted := if |digits| == 10 then FormatPhone(digits) else phone;
    ExtractFormatRoundTrip(digits);
    Payload(Strip(first), Strip(last), age, SortedLabels(genders), formatted)
  }

  /** What a ready form submits: two names that start with a letter and
      carry no surrounding whitespace, one of the age ranges, at least one
      gender, and a phone number in `(AAA) PPP-LLLL` form. */
  lemma ReadyPayload(first: string, last: string, age: string, genders: set<string>, phone: string)
    requires Ready(first, last, age, genders, phone)
    ensures var p := BuildPayload(first, last, age, genders, phone);
      && MatchesNamePattern(p.firstName) && !IsWhitespace(p.firstName[|p.firstName| - 1])
      && MatchesNamePattern(p.lastName) && !IsWhitespace(p.lastName[|p.lastName| - 1])
      && p.ageRange in AgeOptions
      && |p.gendersSelected| > 0
      && p.phoneNumber == FormatPhone(ExtractDigits(phone))
      && NormalizeOnBlur(p.phoneNumber) == p.phoneNumber
  {
    StripFacts(first);
    StripFacts(last);
    FormattedIsFixedPoint(ExtractDigits(phone));
  }

  class DemographicsForm {
    var firstName: string
    var lastName: string
    var ageText: string
    var phoneText: string
    var selectedGenders: set<string>
    var submitDisabled: bool

    /** Each text field holds only characters of its class, and the flag
        is the negation of readiness. */
    ghost predicate Valid()
      reads this
    {
      && All(firstName, IsNameChar)
      && All(lastName, IsNameChar)
      && All(phoneText, IsPhoneChar)
      && submitDisabled == !Ready(firstName, lastName, ageText, selectedGenders, phoneText)
    }

    function Text(f: TextField): string
      reads this
    {
      match f
      case FirstName => firstName
      case LastName => lastName
      case PhoneNumber => phoneText
    }

    /** The form as first shown: empty fields, the age prompt, no gender,
        submit disabled. */
    constructor ()
      ensures Valid()
      ensures firstName == "" && lastName == "" && phoneText == ""
      ensures ageText == AgePrompt && selectedGenders == {}
      ensures submitDisabled
    {
      firstName, lastName, phoneText := "", "", "";
      ageText := AgePrompt;
      selectedGenders := {};
      submitDisabled := true;
      new;
      PromptIsNotAnAge();
      UpdateSubmitState();
    }

    /** `_update_submit_state`. */
    method UpdateSubmitState()
      modifies this`submitDisabled
      ensures submitDisabled == !Ready(firstName, lastName, ageText, selectedGenders, phoneText)
    {
      submitDisabled := !Ready(firstName, lastName, ageText, selectedGenders, phoneText);
    }

    /** Typing or pasting `substring` at cursor `at`: the field's input
        filter drops the disallowed characters, the rest is inserted, and
        the text-change handler recomputes readiness. */
    method InsertText(f: TextField, at: nat, substring: string)
      requires Valid()
      requires at <= |Text(f)|
      modifies this
      ensures Valid()
      ensures Text(f) == old(Text(f))[..at] + FieldFilter(f, substring) + old(Text(f))[at..]
      ensures forall g :: g != f ==> Text(g) == old(Text(g))
      ensures ageText == old(ageText) && selectedGenders == old(selectedGenders)
    {
      var kept := FieldFilter(f, substring);
      var text := Text(f);
      var updated := text[..at] + kept + text[at..];
      InsertKeepsClass(text, at, kept, FieldClass(f));
      match f {
        case FirstName => firstName := updated;
        case LastName => lastName := updated;
        case PhoneNumber => phoneText := updated;
      }
      UpdateSubmitState();
    }

    /** Deleting the characters in `[from, to)` (backspace, cut): nothing is
        filtered, readiness is recomputed. */
    method DeleteText(f: TextField, from: nat, to: nat)
      requires Valid()
      requires from <= to <= |Text(f)|
      modifies this
      ensures Valid()
      ensures Text(f) == old(Text(f))[..from] + old(Text(f))[to..]
      ensures forall g :: g != f ==> Text(g) == old(Text(g))
      ensures ageText == old(ageText) && selectedGenders == old(selectedGenders)
    {
      var text := Text(f);
      var updated := text[..from] + text[to..];
      DeleteKeepsClass(text, from, to, FieldClass(f));
      match f {
        case FirstName => firstName := updated;
        case LastName => lastName := updated;
        case PhoneNumber => phoneText := updated;
      }
      UpdateSubmitState();
    }

    /** `on_age_selected`: the spinner's text becomes `value`. */
    method SelectAge(value: string)
      requires Valid()
      modifies this
      ensures Valid()
      ensures ageText == value
      ensures firstName == old(firstName) && lastName == old(lastName) && phoneText == old(phoneText)
      ensures selectedGenders == old(selectedGenders)
    {
      ageText := value;
      UpdateSubmitState();
    }

    /** `on_gender_toggle`: an active box adds its label, an inactive one
        removes it; no other label and no text changes. */
    method ToggleGender(gender: string, active: bool)
      requires Valid()
      modifies this
      ensures Valid()
      ensures selectedGenders == if active then old(selectedGenders) + {gender} else old(selectedGenders) - {gender}
      ensures firstName == old(firstName) && lastName == old(lastName) && phoneText == old(phoneText)
      ensures ageText == old(ageText)
    {
      if active {
        selectedGenders := selectedGenders + {gender};
      } else {
        selectedGenders := selectedGenders - {gender};
      }
      UpdateSubmitState();
    }

    /** `on_phone_focus`: on focus loss a phone with exactly 10 digits is
        rewritten in display form; the digits, and so the readiness flag,
        are unchanged either way. */
    method PhoneFocusChanged(focused: bool)
      requires Valid()
      modifies this
      ensures Valid()
      ensures phoneText == if focused then old(phoneText) else NormalizeOnBlur(old(phoneText))
      ensures ExtractDigits(phoneText) == ExtractDigits(old(phoneText))
      ensures submitDisabled == old(submitDisabled)
      ensures firstName == old(firstName) && lastName == old(lastName)
      ensures ageText == old(ageText) && selectedGenders == old(selectedGenders)
    {
      if !focused {
        var digits := ExtractDigits(phoneText);
        if |digits| == 10 {
          var formatted := FormatPhone(digits);
          phoneText := formatted;
        }
        NormalizeKeepsDigits(old(phoneText));
        NormalizeKeepsPhoneChars(old(phoneText));
      }
      UpdateSubmitState();
    }

    /** `submit_form`: nothing while disabled, the payload otherwise. */
    method Submit() returns (result: Option<Payload>)
      requires Valid()
      ensures submitDisabled ==> result == None
      ensures !submitDisabled ==> result == Some(BuildPayload(firstName, lastName, ageText, selectedGenders, phoneText))
      ensures result.Some? ==> Ready(firstName, lastName, ageText, selectedGenders, phoneText)
    {
      if submitDisabled {
        return None;
      }
      result := Some(BuildPayload(firstName, lastName, ageText, selectedGenders, phoneText));
    }
  }
}
