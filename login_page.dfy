/**
 * The login page: its two field rules, the error record `validateForm` fills,
 * the credentials it submits, where it redirects afterwards, and the page
 * state that input changes and submission update. The outcome of the `login`
 * call is a parameter.
 */
module Login {
  import opened Wrappers
  import opened Text
  import opened Domain
  import opened FormRules
  import Schemas

  datatype LoginField = Email | Password

  /** A key of the error record: one per input, plus the general error. */
  datatype ErrorKey = On(field: LoginField) | General

  datatype LoginForm = LoginForm(email: string, password: string)

  const InitialForm := LoginForm("", "")

  /** The default destination once logged in. */
  const DefaultTarget := "/dashboard"

  /**
   * Where the page goes after logging in: the `from` path the router handed
   * over when it is a non-empty string, the dashboard otherwise.
   */
  function RedirectTarget(fromPath: Option<string>): (r: string)
    ensures Truthy(fromPath) ==> r == fromPath.value
    ensures !Truthy(fromPath) ==> r == DefaultTarget
  {
    if fromPath.Some? && fromPath.value != "" then fromPath.value else DefaultTarget
  }

  /** The target is never the empty path, whatever the router passed. */
  lemma RedirectTargetNonEmpty(fromPath: Option<string>)
    ensures RedirectTarget(fromPath) != ""
  {
  }

  /** The password is only required to be non-empty; it is not trimmed. */
  function PasswordError(password: string): (r: Option<string>)
    ensures r.Some? <==> password == ""
    ensures r.Some? ==> r.value == "Password is required"
  {
    if password == "" then Some("Password is required") else None
  }

  /**
   * Every non-empty password of spaces only passes the login page, while a
   * name of spaces only is "required" on every page.
   */
  lemma BlankPasswordPasses(blank: string, fieldName: string)
    requires blank != [] && AllSpace(blank)
    ensures PasswordError(blank).None?
    ensures NameError(blank, fieldName) == Some(fieldName + " is required")
  {
    NameRequiredIffBlank(blank, fieldName);
  }

  /** The page's error record. */
  datatype LoginErrors = LoginErrors(email: Option<string>, password: Option<string>, general: Option<string>)
  {
    function Get(key: ErrorKey): Option<string> {
      match key
      case On(Email) => email
      case On(Password) => password
      case General => general
    }

    /** The record with the entry for `key` removed. */
    function Without(key: ErrorKey): (e: LoginErrors)
      ensures e.Get(key).None?
      ensures forall other :: other != key ==> e.Get(other) == Get(other)
    {
      match key
      case On(Email) => this.(email := None)
      case On(Password) => this.(password := None)
      case General => this.(general := None)
    }

    /** `Object.keys(errors).length === 0`. */
    predicate IsEmpty() {
      email.None? && password.None? && general.None?
    }
  }

  const NoErrors := LoginErrors(None, None, None)

  /** `e` is the error record `validateForm` computes for `f`. */
  ghost predicate Reports(e: LoginErrors, f: LoginForm) {
    e == LoginErrors(EmailError(f.email), PasswordError(f.password), None)
  }

  /** Both rules of the page pass. */
  ghost predicate Accepts(f: LoginForm) {
    EmailGrammar(f.email) && f.password != ""
  }

  /** The error record is empty exactly when both rules pass. */
  lemma NoErrorsIffAccepted(e: LoginErrors, f: LoginForm)
    requires Reports(e, f)
    ensures e.IsEmpty() <==> Accepts(f)
  {
    EmailAcceptedIffWellFormed(f.email);
  }

  /** The credentials sent: the email trimmed, the password verbatim. */
  function Credentials(f: LoginForm): (c: LoginCredentials)
    ensures c.email == Trim(f.email) && c.password == f.password
  {
    LoginCredentials(Trim(f.email), f.password)
  }

  /** The credentials as the server's login schema receives them. */
  function AsServerInput(c: LoginCredentials): Schemas.LoginInput {
    Schemas.LoginInput(Schemas.Present(c.email), Schemas.Present(c.password))
  }

  /**
   * An accepted form sends exactly the typed email, and the server's login
   * schema accepts the credentials whenever its email format accepts that
   * email: the page's password rule is the schema's.
   */
  lemma AcceptedFormPassesServerSchema(fmt: Schemas.Formats, f: LoginForm)
    requires Accepts(f) && fmt.isEmail(f.email)
    ensures Credentials(f).email == f.email
    ensures Schemas.ParseLogin(fmt, AsServerInput(Credentials(f))) == Ok(LoginCredentials(f.email, f.password))
  {
    WellFormedEmailIsTrimmed(f.email);
  }

  /** `validateForm`'s body: the record filled one rule at a time. */
  method CollectErrors(f: LoginForm) returns (errors: LoginErrors)
    ensures Reports(errors, f)
  {
    errors := NoErrors;
    errors := errors.(email := EmailError(f.email));
    errors := errors.(password := PasswordError(f.password));
  }

  function WithInput(f: LoginForm, field: LoginField, value: string): LoginForm {
    match field
    case Email => f.(email := value)
    case Password => f.(password := value)
  }

  class LoginPage {
    var form: LoginForm
    var errors: LoginErrors
    var isSubmitting: bool
    /** Where the page navigated, once login succeeded. */
    var navigatedTo: Option<string>
    /** The redirect target, fixed when the page is rendered. */
    const from: string

    constructor(fromPath: Option<string>)
      ensures from == RedirectTarget(fromPath)
      ensures form == InitialForm && errors == NoErrors && !isSubmitting && navigatedTo == None
    {
      from := RedirectTarget(fromPath);
      form := InitialForm;
      errors := NoErrors;
      isSubmitting := false;
      navigatedTo := None;
    }

    /** Runs both rules, records the failures, and reports whether there were none. */
    method ValidateForm() returns (ok: bool)
      modifies this
      ensures Reports(errors, form)
      ensures ok <==> Accepts(form)
      ensures form == old(form) && isSubmitting == old(isSubmitting) && navigatedTo == old(navigatedTo)
    {
      var f := form;
      var collected := CollectErrors(f);
      ok := collected.IsEmpty();
      NoErrorsIffAccepted(collected, f);
      errors := collected;
    }

    /** Stores the new input and clears that input's error; every other error stays. */
    method HandleInputChange(field: LoginField, value: string)
      modifies this
      ensures form == WithInput(old(form), field, value)
      ensures errors.Get(On(field)).None? || errors.Get(On(field)) == Some("")
      ensures forall key :: key != On(field) ==> errors.Get(key) == old(errors).Get(key)
      ensures isSubmitting == old(isSubmitting) && navigatedTo == old(navigatedTo)
    {
      form := WithInput(form, field, value);
      if errors.Get(On(field)).Some? && errors.Get(On(field)).value != "" {
        errors := errors.Without(On(field));
      }
    }

    /**
     * Submits the form. An invalid form records its errors and sends nothing.
     * A valid one sends `Credentials(form)`; `outcome` is what the `login`
     * call did: success navigates to `from`, failure records the general error.
     */
    method HandleSubmit(outcome: Result<(), string>) returns (sent: Option<LoginCredentials>)
      modifies this
      ensures form == old(form)
      ensures sent.Some? <==> Accepts(form)
      ensures sent.None? ==> Reports(errors, form) && isSubmitting == old(isSubmitting) && navigatedTo == old(navigatedTo)
      ensures sent.Some? ==> sent.value == Credentials(form) && sent.value.email == form.email && !isSubmitting
      ensures sent.Some? && outcome.Ok? ==> errors == NoErrors && navigatedTo == Some(from)
      ensures sent.Some? && outcome.Err? ==>
        errors == NoErrors.(general := Some(if outcome.error != "" then outcome.error else "Login failed. Please try again."))
        && navigatedTo == old(navigatedTo)
    {
      var f := form;
      var collected := CollectErrors(f);
      NoErrorsIffAccepted(collected, f);
      if !collected.IsEmpty() {
        errors := collected;
        return None;
      }
      isSubmitting := true;
      errors := NoErrors;
      WellFormedEmailIsTrimmed(f.email);
      sent := Some(Credentials(f));
      match outcome {
        case Ok(_) =>
          navigatedTo := Some(from);
        case Err(message) =>
          errors := NoErrors.(general := Some(if message != "" then message else "Login failed. Please try again."));
      }
      isSubmitting := false;
    }
  }
}
