/**
 * The field rules that the register, login and profile pages repeat word for
 * word: a required name of at least two characters after trimming, and a
 * required email that must match `^[^\s@]+@[^\s@]+\.[^\s@]+$` (checked on
 * the untrimmed value).
 */
module FormRules {
  import opened Wrappers
  import opened Text

  /**
   * The error for a name field: "required" when nothing is left after
   * trimming, "at least 2 characters" when one character is left, and no
   * error exactly when two or more are left.
   */
  function NameError(value: string, fieldName: string): (r: Option<string>)
    ensures Trim(value) == [] ==> r == Some(fieldName + " is required")
    ensures |Trim(value)| == 1 ==> r == Some(fieldName + " must be at least 2 characters")
    ensures r.None? <==> |Trim(value)| >= 2
  {
    if Trim(value) == [] then Some(fieldName + " is required")
    else if |Trim(value)| < 2 then Some(fieldName + " must be at least 2 characters")
    else None
  }

  /** A name is "required" exactly when it is all whitespace. */
  lemma NameRequiredIffBlank(value: string, fieldName: string)
    ensures AllSpace(value) ==> NameError(value, fieldName) == Some(fieldName + " is required")
    ensures !AllSpace(value) ==> NameError(value, fieldName) != Some(fieldName + " is required")
  {
    TrimEmptyIffAllSpace(value);
    if !AllSpace(value) && |Trim(value)| == 1 {
      var m := fieldName + " must be at least 2 characters";
      var req := fieldName + " is required";
      assert m[|fieldName| + 1] != req[|fieldName| + 1];
    }
  }

  /**
   * The error for an email field: "required" when nothing is left after
   * trimming, otherwise "valid email address" unless the untrimmed value
   * matches the pattern.
   */
  function EmailError(value: string): (r: Option<string>)
    ensures Trim(value) == [] ==> r == Some("Email is required")
    ensures Trim(value) != [] && !MatchesEmailPattern(value) ==> r == Some("Please enter a valid email address")
    ensures r.None? <==> MatchesEmailPattern(value)
  {
    if Trim(value) == [] then Some("Email is required")
    else if !MatchesEmailPattern(value) then Some("Please enter a valid email address")
    else None
  }

  /** An email passes exactly when it has the shape local@domain.tld with no whitespace and one '@'. */
  lemma EmailAcceptedIffWellFormed(value: string)
    ensures EmailError(value).None? <==> EmailGrammar(value)
  {
    EmailPatternIsGrammar(value);
    if MatchesEmailPattern(value) {
      assert !IsSpace(value[0]);
      TrimEmptyIffAllSpace(value);
    }
  }

  /** A well-formed email has no surrounding whitespace, so trimming it changes nothing. */
  lemma WellFormedEmailIsTrimmed(value: string)
    requires EmailGrammar(value)
    ensures Trim(value) == value
  {
    EmailPatternIsGrammar(value);
    assert NoSpace(value);
    TrimOfTrimmed(value);
  }
}
