/**
 * The profile page: the two link patterns it checks, the error record
 * `validateForm` fills, the partial update it sends, the form it fills from
 * the signed-in user, the achievement counters it shows, and the page state
 * that input changes and submission update. The outcome of the
 * `updateProfile` call is a parameter.
 */
module Profile {
  import opened Wrappers
  import opened Text
  import opened Domain
  import opened FormRules
  import Schemas

  // ---------------------------------------------------------------------------
  // The link patterns

  /** `https?:\/\/`: one of the two schemes. */
  predicate IsScheme(t: string) {
    t == "http://" || t == "https://"
  }

  /** `(www\.)?linkedin\.com\/in\/`: one of the two hosts with the profile path. */
  predicate IsLinkedInHost(t: string) {
    t == "www.linkedin.com/in/" || t == "linkedin.com/in/"
  }

  /** A character of `[a-zA-Z0-9-]`. */
  predicate IsHandleChar(c: char) {
    IsAsciiLower(c) || IsAsciiUpper(c) || IsAsciiDigit(c) || c == '-'
  }

  /** `[a-zA-Z0-9-]+`. */
  predicate IsHandle(t: string) {
    |t| >= 1 && forall k :: 0 <= k < |t| ==> IsHandleChar(t[k])
  }

  /**
   * The strings `^https?:\/\/(www\.)?linkedin\.com\/in\/[a-zA-Z0-9-]+\/?$`
   * matches: a scheme, a host, a handle and an optional final slash, in that
   * order and covering the whole string.
   */
  ghost predicate LinkedInGrammar(s: string) {
    exists i, j, k :: 0 <= i <= j <= k <= |s|
      && IsScheme(s[..i]) && IsLinkedInHost(s[i..j]) && IsHandle(s[j..k]) && (s[k..] == [] || s[k..] == "/")
  }

  /** What follows the scheme, if `s` starts with one. */
  function AfterScheme(s: string): (r: Option<string>)
    ensures r.Some? ==> |r.value| <= |s|
  {
    if HasPrefix(s, "https://") then Some(s[8..])
    else if HasPrefix(s, "http://") then Some(s[7..])
    else None
  }

  /** What follows the host and profile path, if `t` starts with them. */
  function AfterLinkedInHost(t: string): (r: Option<string>)
    ensures r.Some? ==> |r.value| <= |t|
  {
    if HasPrefix(t, "www.linkedin.com/in/") then Some(t[20..])
    else if HasPrefix(t, "linkedin.com/in/") then Some(t[16..])
    else None
  }

  /** `[a-zA-Z0-9-]+\/?$` on what is left. */
  predicate IsHandleWithSlash(h: string) {
    IsHandle(h) || (|h| >= 2 && h[|h| - 1] == '/' && IsHandle(h[..|h| - 1]))
  }

  /** The LinkedIn pattern, matched left to right with no backtracking. */
  predicate MatchesLinkedInPattern(s: string) {
    match AfterScheme(s)
    case None => false
    case Some(t) =>
      match AfterLinkedInHost(t)
      case None => false
      case Some(h) => IsHandleWithSlash(h)
  }

  lemma LinkedInPatternSound(s: string)
    requires MatchesLinkedInPattern(s)
    ensures LinkedInGrammar(s)
  {
    var t := AfterScheme(s).value;
    var i := |s| - |t|;
    assert s[..i] == "http://" || s[..i] == "https://";
    assert t == s[i..];
    var h := AfterLinkedInHost(t).value;
    var j := i + (|t| - |h|);
    assert t[..|t| - |h|] == s[i..j];
    assert h == s[j..];
    var k := if IsHandle(h) then |s| else |s| - 1;
    assert s[j..k] == (if IsHandle(h) then h else h[..|h| - 1]);
    assert s[k..] == [] || s[k..] == "/" by {
      if !IsHandle(h) {
        assert s[k..] == [h[|h| - 1]];
      }
    }
  }

  /** The two schemes differ at index 4, so a scheme prefix decides what `AfterScheme` strips. */
  lemma SchemeDecides(s: string, i: nat)
    requires i <= |s| && IsScheme(s[..i])
    ensures AfterScheme(s) == Some(s[i..])
  {
    assert s[4] == s[..i][4];
    assert HasPrefix(s, "https://") ==> s[..8][4] == s[4];
  }

  /** The two hosts differ at index 0, so a host between `i` and `j` decides what `AfterLinkedInHost` strips. */
  lemma HostDecides(s: string, i: nat, j: nat)
    requires i <= j <= |s| && IsLinkedInHost(s[i..j])
    ensures AfterLinkedInHost(s[i..]) == Some(s[j..])
  {
    var t := s[i..];
    assert t[..j - i] == s[i..j] && t[j - i..] == s[j..];
    assert t[0] == s[i..j][0];
    assert HasPrefix(t, "www.linkedin.com/in/") ==> t[..20][0] == t[0];
  }

  /** A handle between `j` and `k` followed by nothing or by one slash is what `IsHandleWithSlash` accepts. */
  lemma HandleDecides(s: string, j: nat, k: nat)
    requires j <= k <= |s| && IsHandle(s[j..k]) && (s[k..] == [] || s[k..] == "/")
    ensures IsHandleWithSlash(s[j..])
  {
    var h := s[j..];
    if s[k..] == [] {
      assert h == s[j..k];
    } else {
      assert h[..|h| - 1] == s[j..k];
      assert h[|h| - 1] == s[k..][0];
    }
  }

  /** A scheme, a host and a handle with an optional slash, cut at `i`, `j` and `k`, pass the matcher. */
  lemma LinkedInPartsMatch(s: string, i: nat, j: nat, k: nat)
    requires i <= j <= k <= |s|
    requires IsScheme(s[..i]) && IsLinkedInHost(s[i..j]) && IsHandle(s[j..k]) && (s[k..] == [] || s[k..] == "/")
    ensures MatchesLinkedInPattern(s)
  {
    SchemeDecides(s, i);
    HostDecides(s, i, j);
    HandleDecides(s, j, k);
  }

  lemma LinkedInPatternComplete(s: string)
    requires LinkedInGrammar(s)
    ensures MatchesLinkedInPattern(s)
  {
    var i, j, k :| 0 <= i <= j <= k <= |s|
      && IsScheme(s[..i]) && IsLinkedInHost(s[i..j]) && IsHandle(s[j..k]) && (s[k..] == [] || s[k..] == "/");
    LinkedInPartsMatch(s, i, j, k);
  }

  /** The hand-written matcher accepts exactly the strings of the LinkedIn pattern. */
  lemma LinkedInPatternIsGrammar(s: string)
    ensures MatchesLinkedInPattern(s) <==> LinkedInGrammar(s)
  {
    if MatchesLinkedInPattern(s) {
      LinkedInPatternSound(s);
    }
    if LinkedInGrammar(s) {
      LinkedInPatternComplete(s);
    }
  }

  /**
   * The strings `^https?:\/\/.+` matches (it has no `$`): a scheme followed
   * by at least one character that `.` accepts, i.e. not a line terminator.
   */
  ghost predicate PortfolioGrammar(s: string) {
    exists i :: 0 <= i < |s| && IsScheme(s[..i]) && !IsLineTerminator(s[i])
  }

  /** The portfolio pattern: the character right after the scheme exists and is not a line terminator. */
  predicate MatchesPortfolioPattern(s: string) {
    || (HasPrefix(s, "http://") && |s| > 7 && !IsLineTerminator(s[7]))
    || (HasPrefix(s, "https://") && |s| > 8 && !IsLineTerminator(s[8]))
  }

  /** The portfolio matcher accepts exactly the strings of the portfolio pattern. */
  lemma PortfolioPatternIsGrammar(s: string)
    ensures MatchesPortfolioPattern(s) <==> PortfolioGrammar(s)
  {
    if MatchesPortfolioPattern(s) {
      var i := if HasPrefix(s, "http://") && |s| > 7 && !IsLineTerminator(s[7]) then 7 else 8;
      assert IsScheme(s[..i]);
    }
    if PortfolioGrammar(s) {
      var i :| 0 <= i < |s| && IsScheme(s[..i]) && !IsLineTerminator(s[i]);
      assert HasPrefix(s, s[..i]);
    }
  }

  /** A bare scheme is not a portfolio URL: `.+` needs a character after it. */
  lemma BareSchemeIsNotPortfolio()
    ensures !MatchesPortfolioPattern("https://") && !MatchesPortfolioPattern("http://")
    ensures MatchesPortfolioPattern("https://x") && MatchesPortfolioPattern("http:// ")
  {
    assert "https://"[..7] != "http://" by {
      assert "https://"[..7][4] == 's';
    }
    assert "https://x"[..8] == "https://";
    assert "http:// "[..7] == "http://";
  }

  // ---------------------------------------------------------------------------
  // Rules

  /** An empty LinkedIn value passes; any other must match the LinkedIn pattern. */
  function LinkedInError(value: string): (r: Option<string>)
    ensures r.None? <==> value == "" || MatchesLinkedInPattern(value)
    ensures r.Some? ==> r.value == "Please enter a valid LinkedIn profile URL"
  {
    if value != "" && !MatchesLinkedInPattern(value) then Some("Please enter a valid LinkedIn profile URL") else None
  }

  /** An empty portfolio value passes; any other must match the portfolio pattern. */
  function PortfolioError(value: string): (r: Option<string>)
    ensures r.None? <==> value == "" || MatchesPortfolioPattern(value)
    ensures r.Some? ==> r.value == "Please enter a valid URL"
  {
    if value != "" && !MatchesPortfolioPattern(value) then Some("Please enter a valid URL") else None
  }

  datatype ProfileField = FirstName | LastName | Bio | CurrentRole | Location | LinkedinProfile | PortfolioUrl

  datatype ErrorKey = On(field: ProfileField) | General

  datatype ProfileForm = ProfileForm(
    firstName: string,
    lastName: string,
    bio: string,
    currentRole: string,
    location: string,
    linkedinProfile: string,
    portfolioUrl: string)

  const EmptyForm := ProfileForm("", "", "", "", "", "", "")

  /** `user.x || ''`. */
  function OrEmpty(s: Option<string>): (r: string)
    ensures r != "" <==> Truthy(s)
    ensures Truthy(s) ==> r == s.value
  {
    if s.Some? then s.value else ""
  }

  /** The form filled from the signed-in user, every missing field as the empty string. */
  function FormFromUser(u: AuthUser): (f: ProfileForm)
    ensures f.firstName == OrEmpty(u.firstName) && f.lastName == OrEmpty(u.lastName)
    ensures f.bio == OrEmpty(u.bio) && f.currentRole == OrEmpty(u.currentRole)
    ensures f.location == OrEmpty(u.location)
    ensures f.linkedinProfile == OrEmpty(u.linkedinProfile) && f.portfolioUrl == OrEmpty(u.portfolioUrl)
  {
    ProfileForm(OrEmpty(u.firstName), OrEmpty(u.lastName), OrEmpty(u.bio), OrEmpty(u.currentRole),
                OrEmpty(u.location), OrEmpty(u.linkedinProfile), OrEmpty(u.portfolioUrl))
  }

  /** The page's error record: one entry per input, and a general message. */
  datatype ProfileErrors = ProfileErrors(
    firstName: Option<string>,
    lastName: Option<string>,
    bio: Option<string>,
    currentRole: Option<string>,
    location: Option<string>,
    linkedinProfile: Option<string>,
    portfolioUrl: Option<string>,
    general: Option<string>)
  {
    function Get(key: ErrorKey): Option<string> {
      match key
      case General => general
      case On(field) =>
        match field
        case FirstName => firstName
        case LastName => lastName
        case Bio => bio
        case CurrentRole => currentRole
        case Location => location
        case LinkedinProfile => linkedinProfile
        case PortfolioUrl => portfolioUrl
    }

    /** The record with the entry for `key` removed. */
    function Without(key: ErrorKey): (e: ProfileErrors)
      ensures e.Get(key).None?
      ensures forall other :: other != key ==> e.Get(other) == Get(other)
    {
      match key
      case General => this.(general := None)
      case On(field) =>
        match field
        case FirstName => this.(firstName := None)
        case LastName => this.(lastName := None)
        case Bio => this.(bio := None)
        case CurrentRole => this.(currentRole := None)
        case Location => this.(location := None)
        case LinkedinProfile => this.(linkedinProfile := None)
        case PortfolioUrl => this.(portfolioUrl := None)
    }

    /** `Object.keys(errors).length === 0`. */
    predicate IsEmpty() {
      && firstName.None? && lastName.None? && bio.None? && currentRole.None?
      && location.None? && linkedinProfile.None? && portfolioUrl.None? && general.None?
    }
  }

  const NoErrors := ProfileErrors(None, None, None, None, None, None, None, None)

  /** `e` is the error record `validateForm` computes for `f`: bio, role and location are never checked. */
  ghost predicate Reports(e: ProfileErrors, f: ProfileForm) {
    e == ProfileErrors(
      NameError(f.firstName, "First name"), NameError(f.lastName, "Last name"), None, None, None,
      LinkedInError(f.linkedinProfile), PortfolioError(f.portfolioUrl), None)
  }

  /** Every rule of the page passes. */
  ghost predicate Accepts(f: ProfileForm) {
    && |Trim(f.firstName)| >= 2
    && |Trim(f.lastName)| >= 2
    && (f.linkedinProfile == "" || LinkedInGrammar(f.linkedinProfile))
    && (f.portfolioUrl == "" || PortfolioGrammar(f.portfolioUrl))
  }

  /** The error record is empty exactly when every rule of the page passes. */
  lemma NoErrorsIffAccepted(e: ProfileErrors, f: ProfileForm)
    requires Reports(e, f)
    ensures e.IsEmpty() <==> Accepts(f)
  {
    LinkedInPatternIsGrammar(f.linkedinProfile);
    PortfolioPatternIsGrammar(f.portfolioUrl);
  }

  /** `validateForm`'s body: the record filled one rule at a time, in the page's order. */
  method CollectErrors(f: ProfileForm) returns (errors: ProfileErrors)
    ensures Reports(errors, f)
  {
    errors := NoErrors;
    errors := errors.(firstName := NameError(f.firstName, "First name"));
    errors := errors.(lastName := NameError(f.lastName, "Last name"));
    errors := errors.(linkedinProfile := LinkedInError(f.linkedinProfile));
    errors := errors.(portfolioUrl := PortfolioError(f.portfolioUrl));
  }

  // ---------------------------------------------------------------------------
  // The update payload

  /** One field of the update: the trimmed value, present only when it is non-empty. */
  function Sent(value: string): (r: Option<string>)
    ensures r.Some? ==> r.value == Trim(value) && r.value != ""
    ensures r.None? ==> Trim(value) == ""
  {
    if Trim(value) != "" then Some(Trim(value)) else None
  }

  /** A field is sent exactly when it is not all whitespace, and sending is idempotent on what is sent. */
  lemma SentIffNotBlank(value: string)
    ensures Sent(value).Some? <==> !AllSpace(value)
    ensures Sent(value).Some? ==> Sent(Sent(value).value) == Sent(value)
  {
    TrimEmptyIffAllSpace(value);
    TrimIdempotent(value);
  }

  /** `updateData`, built one field at a time. */
  method BuildUpdate(f: ProfileForm) returns (u: ProfileUpdate)
    ensures u == ProfileUpdate(Sent(f.firstName), Sent(f.lastName), Sent(f.bio), Sent(f.currentRole),
                               Sent(f.location), Sent(f.linkedinProfile), Sent(f.portfolioUrl))
  {
    u := ProfileUpdate(None, None, None, None, None, None, None);
    if Trim(f.firstName) != "" { u := u.(firstName := Some(Trim(f.firstName))); }
    if Trim(f.lastName) != "" { u := u.(lastName := Some(Trim(f.lastName))); }
    if Trim(f.bio) != "" { u := u.(bio := Some(Trim(f.bio))); }
    if Trim(f.currentRole) != "" { u := u.(currentRole := Some(Trim(f.currentRole))); }
    if Trim(f.location) != "" { u := u.(location := Some(Trim(f.location))); }
    if Trim(f.linkedinProfile) != "" { u := u.(linkedinProfile := Some(Trim(f.linkedinProfile))); }
    if Trim(f.portfolioUrl) != "" { u := u.(portfolioUrl := Some(Trim(f.portfolioUrl))); }
  }

  /**
   * For an accepted form both names are sent, and a LinkedIn value is sent
   * exactly as typed (the pattern admits no whitespace).
   */
  lemma AcceptedUpdateKeepsNamesAndLinkedIn(f: ProfileForm)
    requires Accepts(f)
    ensures Sent(f.firstName).Some? && Sent(f.lastName).Some?
    ensures f.linkedinProfile != "" ==> Sent(f.linkedinProfile) == Some(f.linkedinProfile)
  {
    if f.linkedinProfile != "" {
      LinkedInPatternIsGrammar(f.linkedinProfile);
      LinkedInIsTrimmed(f.linkedinProfile);
    }
  }

  /** A LinkedIn URL starts with `h` and ends with a handle character or a slash, so trimming keeps it whole. */
  lemma LinkedInIsTrimmed(s: string)
    requires MatchesLinkedInPattern(s)
    ensures Trim(s) == s
  {
    var t := AfterScheme(s).value;
    var h := AfterLinkedInHost(t).value;
    assert s[0] == 'h' by {
      assert s[0] == s[..7][0];
    }
    assert h == s[|s| - |h|..] by {
      assert t == s[|s| - |t|..];
      assert h == t[|t| - |h|..];
    }
    assert s[|s| - 1] == h[|h| - 1];
    if IsHandle(h) {
      assert IsHandleChar(h[|h| - 1]);
    }
    TrimOfTrimmed(s);
  }

  /** The update as the server's profile schema receives it: fields not sent are absent. */
  function AsServerInput(u: ProfileUpdate): Schemas.ProfileUpdateInput {
    Schemas.ProfileUpdateInput(
      Present(u.firstName), Present(u.lastName), Present(u.bio), Present(u.currentRole),
      Present(u.location), Present(u.linkedinProfile), Present(u.portfolioUrl))
  }

  function Present(s: Option<string>): Schemas.Field<string> {
    if s.Some? then Schemas.Present(s.value) else Schemas.Absent
  }

  /**
   * The server's profile schema takes the update back unchanged whenever its
   * URL format accepts the links sent; nothing else can make it fail.
   */
  lemma UpdatePassesServerSchema(fmt: Schemas.Formats, u: ProfileUpdate)
    ensures Schemas.ParseProfileUpdate(fmt, AsServerInput(u)).Ok? <==>
      (u.linkedinProfile.Some? ==> fmt.isUrl(u.linkedinProfile.value))
      && (u.portfolioUrl.Some? ==> fmt.isUrl(u.portfolioUrl.value))
    ensures Schemas.ParseProfileUpdate(fmt, AsServerInput(u)).Ok? ==>
      Schemas.ParseProfileUpdate(fmt, AsServerInput(u)).value == u
  {
  }

  // ---------------------------------------------------------------------------
  // Achievements

  datatype Achievement = Achievement(title: string, earned: bool, progress: nat, total: nat)

  /** `[...].filter(Boolean).length`. */
  function CountTruthy(xs: seq<Option<string>>): (n: nat)
    ensures n <= |xs|
  {
    if xs == [] then 0 else (if Truthy(xs[0]) then 1 else 0) + CountTruthy(xs[1..])
  }

  /** Every entry is truthy exactly when the count reaches the length. */
  lemma {:induction false} CountTruthyAll(xs: seq<Option<string>>)
    ensures CountTruthy(xs) == |xs| <==> forall i :: 0 <= i < |xs| ==> Truthy(xs[i])
  {
    if xs != [] {
      CountTruthyAll(xs[1..]);
      assert forall i :: 1 <= i < |xs| ==> xs[i] == xs[1..][i - 1];
    }
  }

  /** Some entry is truthy exactly when the count is positive. */
  lemma {:induction false} CountTruthySome(xs: seq<Option<string>>)
    ensures CountTruthy(xs) >= 1 <==> exists i :: 0 <= i < |xs| && Truthy(xs[i])
  {
    if xs != [] {
      CountTruthySome(xs[1..]);
      if Truthy(xs[0]) {
      } else if CountTruthy(xs[1..]) >= 1 {
        var i :| 0 <= i < |xs[1..]| && Truthy(xs[1..][i]);
        assert Truthy(xs[i + 1]);
      } else {
        assert forall i :: 1 <= i < |xs| ==> xs[i] == xs[1..][i - 1];
      }
    }
  }

  /** The three badges of the profile page. */
  function Achievements(u: AuthUser): (r: seq<Achievement>)
    ensures |r| == 3
    ensures r[0].total == 3 && r[1].total == 2 && r[2].total == 2
    ensures forall i :: 0 <= i < |r| ==> r[i].progress <= r[i].total
  {
    [ Achievement("Profile Complete",
        Truthy(u.firstName) && Truthy(u.lastName) && Truthy(u.bio),
        CountTruthy([u.firstName, u.lastName, u.bio]), 3),
      Achievement("Social Connected",
        Truthy(u.linkedinProfile) || Truthy(u.portfolioUrl),
        CountTruthy([u.linkedinProfile, u.portfolioUrl]), 2),
      Achievement("Professional Ready",
        Truthy(u.currentRole) && Truthy(u.location),
        CountTruthy([u.currentRole, u.location]), 2) ]
  }

  /**
   * "Profile Complete" and "Professional Ready" are earned exactly when their
   * progress is full; "Social Connected" as soon as its progress is one.
   */
  lemma AchievementsEarnedIffProgress(u: AuthUser)
    ensures Achievements(u)[0].earned <==> Achievements(u)[0].progress == Achievements(u)[0].total
    ensures Achievements(u)[1].earned <==> Achievements(u)[1].progress >= 1
    ensures Achievements(u)[2].earned <==> Achievements(u)[2].progress == Achievements(u)[2].total
  {
    var a := [u.firstName, u.lastName, u.bio];
    var b := [u.linkedinProfile, u.portfolioUrl];
    var c := [u.currentRole, u.location];
    CountTruthyAll(a);
    CountTruthySome(b);
    CountTruthyAll(c);
    assert Truthy(a[0]) && Truthy(a[1]) && Truthy(a[2]) ==> forall i :: 0 <= i < |a| ==> Truthy(a[i]);
    assert Truthy(c[0]) && Truthy(c[1]) ==> forall i :: 0 <= i < |c| ==> Truthy(c[i]);
  }

  // ---------------------------------------------------------------------------
  // Page state

  function WithInput(f: ProfileForm, field: ProfileField, value: string): ProfileForm {
    match field
    case FirstName => f.(firstName := value)
    case LastName => f.(lastName := value)
    case Bio => f.(bio := value)
    case CurrentRole => f.(currentRole := value)
    case Location => f.(location := value)
    case LinkedinProfile => f.(linkedinProfile := value)
    case PortfolioUrl => f.(portfolioUrl := value)
  }

  const SuccessMessage := "Profile updated successfully!"

  class ProfilePage {
    var form: ProfileForm
    var errors: ProfileErrors
    var isSubmitting: bool
    var successMessage: string

    constructor()
      ensures form == EmptyForm && errors == NoErrors && !isSubmitting && successMessage == ""
    {
      form := EmptyForm;
      errors := NoErrors;
      isSubmitting := false;
      successMessage := "";
    }

    /** The effect that runs when the signed-in user changes: a present user refills the form. */
    method LoadUser(user: Option<AuthUser>)
      modifies this
      ensures user.Some? ==> form == FormFromUser(user.value)
      ensures user.None? ==> form == old(form)
      ensures errors == old(errors) && isSubmitting == old(isSubmitting) && successMessage == old(successMessage)
    {
      if user.Some? {
        form := FormFromUser(user.value);
      }
    }

    /** Runs every rule, records the failures, and reports whether there were none. */
    method ValidateForm() returns (ok: bool)
      modifies this
      ensures Reports(errors, form)
      ensures ok <==> Accepts(form)
      ensures form == old(form) && isSubmitting == old(isSubmitting) && successMessage == old(successMessage)
    {
      var f := form;
      var collected := CollectErrors(f);
      ok := collected.IsEmpty();
      NoErrorsIffAccepted(collected, f);
      errors := collected;
    }

    /** Stores the new input, clears that input's error and the success message; every other error stays. */
    method HandleInputChange(field: ProfileField, value: string)
      modifies this
      ensures form == WithInput(old(form), field, value)
      ensures errors.Get(On(field)).None? || errors.Get(On(field)) == Some("")
      ensures forall key :: key != On(field) ==> errors.Get(key) == old(errors).Get(key)
      ensures successMessage == "" && isSubmitting == old(isSubmitting)
    {
      form := WithInput(form, field, value);
      if errors.Get(On(field)).Some? && errors.Get(On(field)).value != "" {
        errors := errors.Without(On(field));
      }
      if successMessage != "" {
        successMessage := "";
      }
    }

    /**
     * Submits the form. An invalid form records its errors and sends nothing.
     * A valid one sends the non-blank fields trimmed; `outcome` is what the
     * `updateProfile` call did: success shows the success message, failure
     * records the general error.
     */
    method HandleSubmit(outcome: Result<(), string>) returns (sent: Option<ProfileUpdate>)
      modifies this
      ensures form == old(form)
      ensures sent.Some? <==> Accepts(form)
      ensures sent.None? ==> Reports(errors, form) && isSubmitting == old(isSubmitting) && successMessage == old(successMessage)
      ensures sent.Some? ==> !isSubmitting && sent.value == ProfileUpdate(
        Sent(form.firstName), Sent(form.lastName), Sent(form.bio), Sent(form.currentRole),
        Sent(form.location), Sent(form.linkedinProfile), Sent(form.portfolioUrl))
      ensures sent.Some? && outcome.Ok? ==> errors == NoErrors && successMessage == SuccessMessage
      ensures sent.Some? && outcome.Err? ==>
        errors == NoErrors.(general := Some(if outcome.error != "" then outcome.error else "Profile update failed. Please try again."))
        && successMessage == ""
    {
      var f := form;
      var collected := CollectErrors(f);
      NoErrorsIffAccepted(collected, f);
      if !collected.IsEmpty() {
        errors := collected;
        return None;
      }
      isSubmitting := true;
      errors := NoErrors;
      successMessage := "";
      var update := BuildUpdate(f);
      sent := Some(update);
      match outcome {
        case Ok(_) =>
          successMessage := SuccessMessage;
        case Err(message) =>
          errors := NoErrors.(general := Some(if message != "" then message else "Profile update failed. Please try again."));
      }
      isSubmitting := false;
    }
  }
}
