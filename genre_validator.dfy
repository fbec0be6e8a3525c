/** GenreValidator: the rule chain on a genre's name, with bounds 1 and 255. */
module GenreValidator {
  import opened Wrappers
  import opened Validation
  import opened DomainExceptions
  import opened ValidationHandlers
  import opened JavaStrings

  const NullMessage: string := "'name' should not be null"
  const BlankMessage: string := "'name' should not be blank"
  const LengthMessage: string := "'name' should be between 1 and 255 characters"
  const MinLength: nat := 1
  const MaxLength: nat := 255

  /** A name every rule accepts: non-null, not blank, and 1 to 255 UTF-16 units once trimmed. */
  predicate IsValidName(name: Option<string>) {
    name.Some? && !IsBlank(name.value) && MinLength <= Length(Trim(name.value)) <= MaxLength
  }

  /** `validate()`: the error it appends, if any. Each rule returns early, so at most one fires. */
  function NameError(name: Option<string>): (r: Option<Error>)
    ensures r.None? <==> IsValidName(name)
    ensures name.None? ==> r == Some(Error(NullMessage))
    ensures name.Some? && IsBlank(name.value) ==> r == Some(Error(BlankMessage))
    ensures name.Some? && !IsBlank(name.value) && !IsValidName(name) ==> r == Some(Error(LengthMessage))
  {
    if name.None? then Some(Error(NullMessage))
    else if IsBlank(name.value) then Some(Error(BlankMessage))
    else
      var nameLength := Length(Trim(name.value));
      if nameLength < 1 || nameLength > 255 then Some(Error(LengthMessage)) else None
  }

  /** `validate()` under a handler: nothing happens for a valid name; otherwise exactly one error is
      appended, so a throwing handler raises with that one error. */
  function Validate(name: Option<string>, h: Handler): (r: Result<Handler, Failure>)
    ensures NameError(name).None? ==> r == Success(h)
    ensures r.Failure? <==> NameError(name).Some? && h.Throwing?
    ensures r.Failure? ==> r.error == Domain([NameError(name).value])
    ensures r.Success? && NameError(name).Some? ==> r.value.Accumulating? && Errors(r.value) == Errors(h) + [NameError(name).value]
  {
    match NameError(name)
    case None => Success(h)
    case Some(e) => Append(h, e)
  }

  /** Names of printable ASCII without spaces pass exactly when they have 1 to 255 characters. */
  lemma {:induction false} PrintableNameBounds(s: string)
    requires forall i | 0 <= i < |s| :: '!' <= s[i] <= '~'
    ensures NameError(Some(s)).None? <==> MinLength <= |s| <= MaxLength
  {
    assert Trim(s) == s;
    assert Length(s) == |s|;
    if |s| > 0 {
      assert !IsWhitespace(s[0]);
    }
  }

  /** The "shorter than 1" branch is reachable: U+0000 is not white space, so the name is not blank,
      but trim removes it. */
  lemma NulNameFailsLengthRule()
    ensures NameError(Some("\0")) == Some(Error(LengthMessage))
  {
    assert !IsWhitespace('\0');
    assert Trim("\0") == "";
  }

  /** The literals the domain tests expect instead of the code's. */
  const TestBlankMessage: string := "'name' should not be empty"
  const TestLengthMessage: string := "'name' must be between 1 and 255 characters"

  /** The code's blank and length messages are not the ones the tests expect. */
  lemma MessagesDifferFromTests()
    ensures BlankMessage != TestBlankMessage
    ensures LengthMessage != TestLengthMessage
  {
    assert BlankMessage[21] != TestBlankMessage[21];
    assert |LengthMessage| != |TestLengthMessage|;
  }
}
