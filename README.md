# Demographics form: validation and submit-readiness engine

A Dafny model of the logic inside `DemographicsForm` (a Kivy demographics
entry form): the input filters that silently drop disallowed characters from
every inserted piece of text, the phone normaliser that extracts digits and
renders `(AAA) PPP-LLLL`, the field validators (names, age range, gender set,
phone), and the form state machine whose handlers recompute the
`submit_disabled` flag after every change and whose submit action produces
the payload.

Modules, one per component:

- `Filters` (`filters.dfy`): character classes, the generic filter `Keep`,
  `FilterName` and `FilterPhone`, with lemmas saying the filters keep exactly
  the allowed characters in order, are idempotent, and distribute over
  concatenation (filtering each inserted piece equals filtering the whole text).
- `Phone` (`phone.dfy`): `ExtractDigits`, `FormatPhone` (total, with Python's
  clamped slicing), `NormalizeOnBlur` (what focus loss does to the text) and
  `ValidPhone`, with the format/extract round trip and the focus-loss lemmas.
- `Validators` (`validators.dfy`): `Strip` (Python's `str.strip`), the name
  pattern, `ValidName`, `ValidAge`, and a characterisation of `ValidName`
  directly on the unstripped text.
- `LabelOrder` (`label_order.dfy`): Python's string order and `sorted` over a
  set of labels, proved to give each element once in strictly increasing order.
- `Form` (`form.dfy`): `Ready`, `BuildPayload`, and the class
  `DemographicsForm` whose fields mirror the widget state (two names, the age
  spinner text, the phone text, the gender set, the flag). Its object
  invariant `Valid()` says each text field holds only characters of its
  filter's class and `submitDisabled == !Ready(...)`; every handler keeps it.
- `Scenarios` (`scenarios.dfy`): the behaviour on concrete inputs (names
  accepted and rejected, a 10-digit and a 6-digit phone on focus loss, the
  Jane Doe submission).

`_format_phone` is total (Python slicing never fails), so `FormatPhone` has
no precondition and its layout facts are stated for 10 digits.

## Model

| member | source | states |
|---|---|---|
| Filters.IsNameChar | main.py:309 | `c` is in the class `[A-Za-z\s'\-]` the name filter keeps; no digit is a name character |
| Filters.IsPhoneChar | main.py:310 | `c` is in the class `[0-9()\-\s]` the phone filter keeps; every digit is one and no letter is |
| Filters.Keep | main.py:309-310 | the result contains only characters of the class and is no longer than the input |
| Filters.FilterName | main.py:334-335 | the name filter's output contains only ASCII letters, whitespace, `'` and `-` |
| Filters.FilterPhone | main.py:337-338 | the phone filter's output contains only digits, `(`, `)`, `-` and whitespace |
| Filters.KeepAppend | main.py:334-338 | filtering a concatenation equals concatenating the filtered parts, so filtering each inserted piece gives the same text as filtering it all |
| Filters.KeepAllKept | main.py:334-338 | text already inside the class passes the filter unchanged |
| Filters.KeepIdempotent | main.py:334-338 | applying a filter twice gives the same result as applying it once |
| Filters.KeepCount | main.py:309-310 | each allowed character occurs in the output as often as in the input, each other character not at all |
| Filters.KeepIsSubsequence | main.py:309-310 | the output is a subsequence of the input: the kept characters stay in order |
| Filters.FilterNameExact | main.py:334-335 | the name filter keeps every name character as often as it occurs, drops every other character, and keeps the order |
| Filters.FilterPhoneExact | main.py:337-338 | the phone filter keeps every phone character as often as it occurs, drops every other character, and keeps the order |
| Filters.InsertKeepsClass | main.py:334-338 | inserting filtered text into a field whose text is in the class keeps the field in the class |
| Filters.DeleteKeepsClass | main.py:340-345 | deleting a range from a field whose text is in the class keeps the field in the class |
| Phone.ExtractDigits | main.py:375-376 | the result consists of digits only and is no longer than the input |
| Phone.ExtractDigitsExact | main.py:375-376 | digit extraction keeps every digit as often as it occurs, drops everything else, and keeps the order |
| Phone.FormatPhone | main.py:378-380 | for 10 digits the result has length 14 with `(` at 0, `)` at 4, a space at 5, `-` at 9, and the digits 3/3/4 in the gaps |
| Phone.NormalizeOnBlur | main.py:347-355 | on focus loss text with other than 10 digits is kept as typed; 10 digits become a 14-character `(AAA) PPP-LLLL` rendering |
| Phone.ValidPhone | main.py:371-373 | the phone is valid exactly when its text holds 10 digits, so it is at least 10 characters long |
| Phone.ExtractFormatRoundTrip | main.py:375-380 | extracting the digits of a formatted digit string gives the digit string back |
| Phone.FormatPhoneChars | main.py:378-380 | a formatted digit string contains only phone-field characters |
| Phone.NormalizeKeepsDigits | main.py:347-355 | focus loss keeps the digits of the phone text, and therefore its validity |
| Phone.NormalizeIdempotent | main.py:347-355 | a second focus loss changes nothing |
| Phone.FormattedIsFixedPoint | main.py:349-353 | re-formatting already formatted 10-digit text is a no-op |
| Phone.NormalizeKeepsPhoneChars | main.py:347-355 | focus loss keeps the phone text inside the phone filter's class |
| Validators.TrimStart | main.py:368 | `lstrip`: leading whitespace removed, never longer than the input |
| Validators.TrimEnd | main.py:368 | `rstrip`: trailing whitespace removed, never longer than the input |
| Validators.Strip | main.py:368 | `strip`: `rstrip` after `lstrip`, never longer than the input |
| Validators.TrimStartFacts | main.py:368 | the input is whitespace followed by the left-stripped text, which does not start with whitespace |
| Validators.TrimEndFacts | main.py:368 | the input is the right-stripped text followed by whitespace, which does not end with whitespace |
| Validators.StripFacts | main.py:368 | stripping removes whitespace at both ends only; the result is empty exactly when the input is all whitespace |
| Validators.MatchesNamePattern | main.py:312 | the text matches `^[A-Za-z][A-Za-z\s'\-]*$`: non-empty, a letter first, name characters throughout |
| Validators.ValidName | main.py:367-369 | holds exactly when `Strip(value)` is non-empty and matches the name pattern; a valid name is non-empty |
| Validators.ValidAge | main.py:382-383 | holds exactly when the spinner text is one of the five age options, which are 3 to 5 characters long |
| Validators.ValidNameIff | main.py:367-369 | a name is valid exactly when every character is a name character and its first non-whitespace character is an ASCII letter |
| Validators.ValidNameOnlyIf | main.py:367-369 | a valid name has only name characters and a letter as first visible character |
| Validators.ValidNameIf | main.py:367-369 | name characters with a letter as first visible character make a valid name |
| Validators.PromptIsNotAnAge | main.py:382-383 | the spinner's prompt is not one of the age options |
| LabelOrder.Below | main.py:406 | Python's `<` on strings: code point by code point, a proper prefix first; nothing sorts below the empty string |
| LabelOrder.BelowIrreflexive | main.py:406 | no string sorts before itself |
| LabelOrder.BelowAsymmetric | main.py:406 | two strings never sort before each other |
| LabelOrder.BelowTransitive | main.py:406 | string order is transitive |
| LabelOrder.BelowTotal | main.py:406 | of two different strings one sorts before the other |
| LabelOrder.LeastExists | main.py:406 | every non-empty set of strings has a least element |
| LabelOrder.LeastUnique | main.py:406 | the least element is unique |
| LabelOrder.Least | main.py:406 | the chosen element is in the set and below every other element |
| LabelOrder.SortedLabels | main.py:406 | `sorted` of a set lists each element exactly once in strictly increasing order |
| Form.FieldFilter | main.py:324-329 | the filter installed on a field yields only characters of that field's class and never lengthens the input |
| Form.Ready | main.py:385-397 | both names valid, the age an option, at least one gender, a valid phone; so both names and the phone are non-empty and some gender is chosen |
| Form.BuildPayload | main.py:399-408 | the payload holds the stripped names, the age text, the genders sorted and complete, and the phone rendered by `FormatPhone` from its digits (14 characters, same digits) when it has 10 digits, as typed otherwise |
| Form.ReadyPayload | main.py:385-408 | a ready form submits names that start with a letter and end without whitespace, an age option, at least one gender and a phone already in display form |
| Form.DemographicsForm.constructor | main.py:297-317 | the initial form has empty fields, the age prompt, no gender, and submit disabled |
| Form.DemographicsForm.UpdateSubmitState | main.py:385-397 | the flag becomes the negation of `Ready`, the five-way conjunction of the validators |
| Form.DemographicsForm.InsertText | main.py:334-345 | typing inserts the filtered substring at the cursor, leaves every other field alone, and recomputes the flag |
| Form.DemographicsForm.DeleteText | main.py:340-345 | deleting a range removes it, leaves every other field alone, and recomputes the flag |
| Form.DemographicsForm.SelectAge | main.py:357-358 | the age text becomes the selection, nothing else changes, the flag is recomputed |
| Form.DemographicsForm.ToggleGender | main.py:360-365 | an active toggle adds the label, an inactive one removes it, no other field changes, the flag is recomputed |
| Form.DemographicsForm.PhoneFocusChanged | main.py:347-355 | on focus loss 10 digits are rewritten in display form and other text is kept; the digits and the flag never change |
| Form.DemographicsForm.Submit | main.py:410-413 | a disabled form submits nothing; an enabled one is ready and submits its payload |
| Scenarios.AcceptedNames | main.py:367-369 | `Mary-Jane`, `O'Brien`, `Anna Maria` and `  Jane ` are valid names |
| Scenarios.LetterFirst | main.py:367-369 | name characters starting with a letter form a valid name |
| Scenarios.RejectedNames | main.py:367-369 | the empty string, blanks, `9Lives`, `-Ann` and ` 'Ann` are rejected |
| Scenarios.TenDigitsExtracted | main.py:375-376 | the digits of `5551234567` are `5551234567` |
| Scenarios.TenDigitsRendered | main.py:378-380 | `5551234567` renders as `(555) 123-4567` |
| Scenarios.TenDigitsFormatted | main.py:347-355 | focus loss turns `5551234567` into `(555) 123-4567` |
| Scenarios.SixDigitsKept | main.py:347-355 | focus loss leaves `555123` as typed, and it is not a valid phone |
| Scenarios.DisplayDigits | main.py:375-376 | the digits of `(555) 123-4567` are `5551234567` |
| Scenarios.JaneDoeReady | main.py:385-397 | Jane / Doe / 25-34 / Non-binary / (555) 123-4567 is ready to submit |
| Scenarios.JaneDoePayload | main.py:399-408 | the payload is `Jane` / `Doe` / `25-34` / `[Non-binary]` / `(555) 123-4567` |

## Left out

- Kivy window and device configuration (`configure_kivy`, `DeviceConfig`), the KV layout string and its loading: setup and styling with no logic; the five gender labels only reach the logic as arguments of `ToggleGender`.
- Widget binding and the `Clock.schedule_once` deferral: handlers are modelled as direct method calls; the constructor performs the one recomputation that `_bind_inputs` does.
- The `_formatting_phone` re-entrancy flag: it exists because assigning the phone text fires the text observer; focus loss is modelled as one atomic step ending in one recomputation, which gives the same final state.
- `print(payload)` and stopping the application in `submit_form`, and `cancel_form`: output and application lifecycle; the payload is returned instead and cancel has no state to model.
- The TextInput widget's own editing behaviour beyond the input filter (cursor movement, undo, selection): edits are modelled as an insertion at a cursor inside the text and a deletion of a range; the `from_undo` argument of the filters is ignored by the source too.
- The spinner only ever shows the prompt or one of its values; `SelectAge` accepts any text, which `ValidAge` then judges.
- Unicode: whitespace is the ASCII set that Python's `\s` and `str.strip` accept (space, tab to carriage return, 0x1C to 0x1F) and digits are `0` to `9`; non-ASCII whitespace and digits are not modelled.
