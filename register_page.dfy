/**
 * The registration page: its per-field rules, the error record `validateForm`
 * fills, the request it submits, and the page state that input changes and
 * submission update. The outcome of the `register` call is a parameter.
 */
module Register {
  import opened Wrappers
  import opened Text
  import opened Domain
  import opened FormRules
  import Schemas

  /** The inputs of the form, by their `name` attribute. */
  datatype FormField = FirstName | LastName | Email | Password | ConfirmPassword | Level | AgreeToTerms

  /** A key of the error record: one per input, plus the general error. */
  datatype ErrorKey = On(field: FormField) | General

  datatype RegisterForm = RegisterForm(
    firstName: string,
    lastName: string,
    email: string,
    password: string,
    confirmPassword: string,
    experienceLevel: string,
    agreeToTerms: bool)

  const InitialForm := RegisterForm("", "", "", "", "", "BEGINNER", false)

  const CompositionMessage :=
    "Password must contain at least one uppercase letter, one lowercase letter, and one number"

  // ---------------------------------------------------------------------------
  // Rules

  /**
   * The password rules in priority order, so at most one message: empty, then
   * shorter than 8, then missing a lower-case letter, an upper-case letter or
   * a digit (all three reachable from one position within a single line).
   */
  function PasswordError(password: string): (r: Option<string>)
    ensures password == "" ==> r == Some("Password is required")
    ensures 0 < |password| < 8 ==> r == Some("Password must be at least 8 characters")
    ensures |password| >= 8 && !MatchesPasswordPattern(password) ==> r == Some(CompositionMessage)
    ensures r.None? <==> |password| >= 8 && MatchesPasswordPattern(password)
  {
    if password == "" then Some("Password is required")
    else if |password| < 8 then Some("Password must be at least 8 characters")
    else if !MatchesPasswordPattern(password) then Some(CompositionMessage)
    else None
  }

  /** For a password typed on one line, the composition rule is "contains each of the three classes". */
  lemma PasswordAcceptedOnOneLine(password: string)
    requires SingleLine(password)
    ensures PasswordError(password).None? <==>
      |password| >= 8 && Contains(password, Lower) && Contains(password, Upper) && Contains(password, Digit)
  {
    PasswordPatternOnOneLine(password);
  }

  /** The confirmation is required and must equal the password exactly. */
  function ConfirmError(password: string, confirm: string): (r: Option<string>)
    ensures confirm == "" ==> r == Some("Please confirm your password")
    ensures confirm != "" && confirm != password ==> r == Some("Passwords do not match")
    ensures r.None? <==> confirm != "" && confirm == password
  {
    if confirm == "" then Some("Please confirm your password")
    else if password != confirm then Some("Passwords do not match")
    else None
  }

  /** The experience level only fails when it is the empty string. */
  function LevelError(level: string): (r: Option<string>)
    ensures r.Some? <==> level == ""
  {
    if level == "" then Some("Please select your experience level") else None
  }

  /** An unchecked terms box always yields the terms error. */
  function TermsError(agree: bool): (r: Option<string>)
    ensures r.Some? <==> !agree
  {
    if !agree then Some("You must agree to the terms and conditions") else None
  }

  function FieldError(f: RegisterForm, field: FormField): Option<string> {
    match field
    case FirstName => NameError(f.firstName, "First name")
    case LastName => NameError(f.lastName, "Last name")
    case Email => EmailError(f.email)
    case Password => PasswordError(f.password)
    case ConfirmPassword => ConfirmError(f.password, f.confirmPassword)
    case Level => LevelError(f.experienceLevel)
    case AgreeToTerms => TermsError(f.agreeToTerms)
  }

  /** The page's error record: at most one message per input, and a general message. */
  datatype RegisterErrors = RegisterErrors(
    firstName: Option<string>,
    lastName: Option<string>,
    email: Option<string>,
    password: Option<string>,
    confirmPassword: Option<string>,
    experienceLevel: Option<string>,
    agreeToTerms: Option<string>,
    general: Option<string>)
  {
    function Get(key: ErrorKey): Option<string> {
      match key
      case General => general
      case On(field) =>
        match field
        case FirstName => firstName
        case LastName => lastName
        case Email => email
        case Password => password
        case ConfirmPassword => confirmPassword
        case Level => experienceLevel
        case AgreeToTerms => agreeToTerms
    }

    /** The record with the entry for `key` removed. */
    function Without(key: ErrorKey): (e: RegisterErrors)
      ensures e.Get(key).None?
      ensures forall other :: other != key ==> e.Get(other) == Get(other)
    {
      match key
      case General => this.(general := None)
      case On(field) =>
        match field
        case FirstName => this.(firstName := None)
        case LastName => this.(lastName := None)
        case Email => this.(email := None)
        case Password => this.(password := None)
        case ConfirmPassword => this.(confirmPassword := None)
        case Level => this.(experienceLevel := None)
        case AgreeToTerms => this.(agreeToTerms := None)
    }

    /** `Object.keys(errors).length === 0`. */
    predicate IsEmpty() {
      && firstName.None? && lastName.None? && email.None? && password.None?
      && confirmPassword.None? && experienceLevel.None? && agreeToTerms.None? && general.None?
    }

    lemma EmptyIffNoEntry()
      ensures IsEmpty() <==> forall key :: Get(key).None?
    {
      if IsEmpty() {
        forall key ensures Get(key).None? {
        }
      } else {
        assert Get(On(FirstName)).Some? || Get(On(LastName)).Some? || Get(On(Email)).Some?
          || Get(On(Password)).Some? || Get(On(ConfirmPassword)).Some? || Get(On(Level)).Some?
          || Get(On(AgreeToTerms)).Some? || Get(General).Some?;
      }
    }
  }

  const NoErrors := RegisterErrors(None, None, None, None, None, None, None, None)

  /** `e` is the error record `validateForm` computes for `f`: each input's rule result, and no general entry. */
  ghost predicate Reports(e: RegisterErrors, f: RegisterForm) {
    && e.general.None?
    && forall field :: e.Get(On(field)) == FieldError(f, field)
  }

  /** What each field's rule demands of the form. */
  ghost predicate FieldOk(f: RegisterForm, field: FormField) {
    match field
    case FirstName => |Trim(f.firstName)| >= 2
    case LastName => |Trim(f.lastName)| >= 2
    case Email => EmailGrammar(f.email)
    case Password => |f.password| >= 8 && MatchesPasswordPattern(f.password)
    case ConfirmPassword => f.confirmPassword != "" && f.confirmPassword == f.password
    case Level => f.experienceLevel != ""
    case AgreeToTerms => f.agreeToTerms
  }

  /** An input's rule gives no message exactly when the form meets what that rule demands. */
  lemma FieldErrorIff(f: RegisterForm, field: FormField)
    ensures FieldError(f, field).None? <==> FieldOk(f, field)
  {
    match field {
      case FirstName =>
      case LastName =>
      case Email => EmailAcceptedIffWellFormed(f.email);
      case Password =>
      case ConfirmPassword =>
      case Level =>
      case AgreeToTerms =>
    }
  }

  /** Every rule of the page passes. */
  ghost predicate Accepts(f: RegisterForm) {
    && |Trim(f.firstName)| >= 2
    && |Trim(f.lastName)| >= 2
    && EmailGrammar(f.email)
    && |f.password| >= 8 && MatchesPasswordPattern(f.password)
    && f.confirmPassword == f.password
    && f.experienceLevel != ""
    && f.agreeToTerms
  }

  lemma AcceptsIffAllFieldsOk(f: RegisterForm)
    ensures Accepts(f) <==> forall field :: FieldOk(f, field)
  {
    if !Accepts(f) {
      if !FieldOk(f, FirstName) {
      } else if !FieldOk(f, LastName) {
      } else if !FieldOk(f, Email) {
      } else if !FieldOk(f, Password) {
      } else if !FieldOk(f, ConfirmPassword) {
      } else if !FieldOk(f, Level) {
      } else {
        assert !FieldOk(f, AgreeToTerms);
      }
    }
  }

  /** The error record is empty exactly when every rule of the page passes. */
  lemma NoErrorsIffAccepted(e: RegisterErrors, f: RegisterForm)
    requires Reports(e, f)
    ensures e.IsEmpty() <==> Accepts(f)
  {
    e.EmptyIffNoEntry();
    AcceptsIffAllFieldsOk(f);
    forall field ensures e.Get(On(field)).None? <==> FieldOk(f, field) {
      FieldErrorIff(f, field);
    }
    if !e.IsEmpty() {
      var key :| e.Get(key).Some?;
      assert !FieldOk(f, key.field);
    }
  }

  // ---------------------------------------------------------------------------
  // The submitted request

  /** The request body: email and names trimmed, password and level verbatim. */
  function Payload(f: RegisterForm): (d: RegisterData)
    ensures d.password == f.password && d.experienceLevel == f.experienceLevel
    ensures d.email == Trim(f.email) && d.firstName == Trim(f.firstName) && d.lastName == Trim(f.lastName)
  {
    RegisterData(Trim(f.email), f.password, Trim(f.firstName), Trim(f.lastName), f.experienceLevel)
  }

  /** The request body as the server's registration schema receives it. */
  function AsServerInput(d: RegisterData): Schemas.RegistrationInput {
    Schemas.RegistrationInput(
      Schemas.Present(d.email), Schemas.Present(d.password), Schemas.Present(d.firstName),
      Schemas.Present(d.lastName), Schemas.Present(d.experienceLevel))
  }

  /**
   * A form the page accepts sends exactly the email that was typed, and the
   * server schema accepts its request whenever the server's email format
   * accepts that email and the level is one of the four enumeration values.
   */
  lemma AcceptedFormPassesServerSchema(fmt: Schemas.Formats, f: RegisterForm)
    requires Accepts(f)
    requires fmt.isEmail(f.email) && ParseExperienceLevel(f.experienceLevel).Some?
    ensures Payload(f).email == f.email
    ensures Schemas.ParseRegistration(fmt, AsServerInput(Payload(f))).Ok?
  {
    WellFormedEmailIsTrimmed(f.email);
  }

  /**
   * The server is weaker than the page on passwords: "abcdefgh" passes the
   * schema's length rule but fails the page's composition rule.
   */
  lemma ServerAcceptsPasswordPageRejects()
    ensures Schemas.CheckString(Schemas.Present("abcdefgh"), 8, "password", "Password must be at least 8 characters") == []
    ensures PasswordError("abcdefgh") == Some(CompositionMessage)
  {
    var s := "abcdefgh";
    assert !MatchesPasswordPattern(s) by {
      forall p | 0 <= p <= |s| ensures !LookaheadAt(s, p, Upper) {
        forall k | p <= k < |s| ensures !InClass(s[k], Upper) {
        }
      }
    }
  }

  /** The form after an input named `field` changed: a checkbox takes `checked`, every other input `value`. */
  function WithInput(f: RegisterForm, field: FormField, value: string, checked: bool): RegisterForm {
    match field
    case FirstName => f.(firstName := value)
    case LastName => f.(lastName := value)
    case Email => f.(email := value)
    case Password => f.(password := value)
    case ConfirmPassword => f.(confirmPassword := value)
    case Level => f.(experienceLevel := value)
    case AgreeToTerms => f.(agreeToTerms := checked)
  }

  /** `validateForm`'s body: the record filled one rule at a time, in the page's order. */
  method CollectErrors(f: RegisterForm) returns (errors: RegisterErrors)
    ensures Reports(errors, f)
  {
    errors := NoErrors;
    errors := errors.(firstName := NameError(f.firstName, "First name"));
    errors := errors.(lastName := NameError(f.lastName, "Last name"));
    errors := errors.(email := EmailError(f.email));
    errors := errors.(password := PasswordError(f.password));
    errors := errors.(confirmPassword := ConfirmError(f.password, f.confirmPassword));
    errors := errors.(experienceLevel := LevelError(f.experienceLevel));
    errors := errors.(agreeToTerms := TermsError(f.agreeToTerms));
  }

  // ---------------------------------------------------------------------------
  // Page state

  class RegisterPage {
    var form: RegisterForm
    var errors: RegisterErrors
    var isSubmitting: bool
    /** Where the page navigated, once registration succeeded. */
    var navigatedTo: Option<string>

    constructor()
      ensures form == InitialForm && errors == NoErrors && !isSubmitting && navigatedTo == None
    {
      form := InitialForm;
      errors := NoErrors;
      isSubmitting := false;
      navigatedTo := None;
    }

    /** Runs every rule, records the failures, and reports whether there were none. */
    method ValidateForm() returns (ok: bool)
      modifies this
      ensures Reports(errors, form)
      ensures ok <==> Accepts(form)
      ensures form == old(form) && isSubmitting == old(isSubmitting) && navigatedTo == old(navigatedTo)
    {
      var f := form;
      var collected := CollectErrors(f);
      ok := collected.IsEmpty();
      NoErrorsIffAccepted(collected, f);
      errors := collected;
    }

    /** Stores the new input and clears that input's error; every other error stays. */
    method HandleInputChange(field: FormField, value: string, checked: bool)
      modifies this
      ensures form == WithInput(old(form), field, value, checked)
      ensures errors.Get(On(field)).None? || errors.Get(On(field)) == Some("")
      ensures forall key :: key != On(field) ==> errors.Get(key) == old(errors).Get(key)
      ensures isSubmitting == old(isSubmitting) && navigatedTo == old(navigatedTo)
    {
      form := WithInput(form, field, value, checked);
      if errors.Get(On(field)).Some? && errors.Get(On(field)).value != "" {
        errors := errors.Without(On(field));
      }
    }

    /**
     * Submits the form. An invalid form records its errors and sends nothing.
     * A valid one sends `Payload(form)`; `outcome` is what the `register` call
     * did: success navigates to the dashboard, failure records the general error.
     */
    method HandleSubmit(outcome: Result<(), string>) returns (sent: Option<RegisterData>)
      modifies this
      ensures form == old(form)
      ensures sent.Some? <==> Accepts(form)
      ensures sent.None? ==> Reports(errors, form) && isSubmitting == old(isSubmitting) && navigatedTo == old(navigatedTo)
      ensures sent.Some? ==> sent.value == Payload(form) && !isSubmitting
      ensures sent.Some? && outcome.Ok? ==> errors == NoErrors && navigatedTo == Some("/dashboard")
      ensures sent.Some? && outcome.Err? ==>
        errors == NoErrors.(general := Some(if outcome.error != "" then outcome.error else "Registration failed. Please try again."))
        && navigatedTo == old(navigatedTo)
    {
      var f := form;
      var collected := CollectErrors(f);
      NoErrorsIffAccepted(collected, f);
      if !collected.IsEmpty() {
        errors := collected;
        return None;
      }
      isSubmitting := true;
      errors := NoErrors;
      sent := Some(Payload(f));
      match outcome {
        case Ok(_) =>
          navigatedTo := Some("/dashboard");
        case Err(message) =>
          errors := NoErrors.(general := Some(if message != "" then message else "Registration failed. Please try again."));
      }
      isSubmitting := false;
    }
  }
}
