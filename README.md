# InternshipKaro: a Dafny model of its validators, authentication and visual-enhancement bookkeeping

InternshipKaro is a learning platform with a React front end, an Express
back end, and a shared package of zod schemas. This project models, in
Dafny, the parts of it whose behaviour can be stated exactly, and proves
properties about them.

## Validators
- The form rules of the register, login and profile pages. These are ordered
  checks over trimmed strings, the hand-written email regular expression, the
  password lookaheads, and the LinkedIn and portfolio URL patterns.
- The error record each page's `validateForm` fills in, the payload each page
  submits, and the page state that input changes and submission update.
- The server's zod schemas, written as parsers that return either the parsed
  record or a list of issues.

## Authentication lifecycle
- **Server.** The `/auth` routes run over an abstract user table: one map from
  row id to row, and a unique index from email to row id. Password hashing,
  comparison and JWT signing are uninterpreted. A token is its payload plus
  the secret that signed it, so the access/refresh separation can be checked.
- **Client.** The `AuthProvider` keeps a session: the two tokens in key/value
  storage, the `user`/`tokens`/`isLoading` state, and the 401 interceptor with
  its `_retry` flag.

## Visual-enhancement bookkeeping
- The configuration manager: partial-update merge, device and reduced-motion
  overrides, and the `visualConfig` storage entry.
- The system's `initialized` flag and its global singleton.
- The animation manager's element-to-handle registries.
- The image manager: lazy-image registry, srcset builder, gallery list and
  comparison component.
- The in-browser test runner, with its result list and summary.

## Modules and files
There is one Dafny module per source file:

| module | file |
|---|---|
| `Register` | `register_page.dfy` |
| `Login` | `login_page.dfy` |
| `Profile` | `profile_page.dfy` |
| `Session` | `auth_context.dfy` |
| `AuthRoutes` | `auth_routes.dfy` |
| `Schemas` | `schemas.dfy` |
| `ConfigManager` | `visual_config.dfy` |
| `VisualSystem` | `visual_system.dfy` |
| `Animations` | `animation_manager.dfy` |
| `Images` | `image_manager.dfy` |
| `BrowserTests` | `test_helpers.dfy` |

Some modules collect shared pieces:
- `Text` (`text.dfy`): JavaScript whitespace, `trim`, and the email and password regular expressions.
- `Domain` (`domain.dfy`): the shared enumerations and records.
- `FormRules` (`form_rules.dfy`): the name and email rules that the three pages share.
- `Wrappers` (`wrappers.dfy`): `Option` and `Result`.

## What is stateful
- Code the source runs by mutating state is modelled as classes. Their
  methods have `modifies` clauses and state the whole new state: the page
  components, the `AuthProvider`, the route handlers over the user table, and
  every manager.
- Loops stay loops, each with its invariants:
  - the staggered registration;
  - the intersection-observer callback;
  - the manager-availability check.
- Pure code is modelled as functions with lemmas:
  - the rules;
  - the schemas;
  - `generateTokens`;
  - `getReverseAnimation`;
  - the srcset builder;
  - the summary.

## Behaviour that follows the code
**Refreshing with an access token.**
- The refresh route verifies the token with the refresh secret before it
  looks at the token's `type`.
- So when the two secrets differ, an access token fails its signature check
  and gets 401 "Invalid or expired refresh token", not "Invalid token type".
- The type check decides only when both secrets are equal
  (`AuthRoutes.AccessTokenNeverRefreshes`).

**Missing user rows.**
- `PUT /profile` and `POST /logout` for a user whose row is gone make the
  update throw, which gives 500, not 404. Only `GET /profile` answers 404.

**Automatic retry and the refresh call.**
- The 401 interceptor refreshes and resends each request at most once
  (`Session.AuthProvider.RefreshAtMostOncePerRequest`).
- The interceptor sits on the shared HTTP client, so the refresh call that
  it makes goes through it as well. When the server answers that call with
  401, the interceptor refreshes again with the same stored token. It never
  settles, and nothing changes while it waits
  (`Session.RejectedRefreshNeverSettles`).
  - The refresh route answers every rejected token with 401, so this is the
    usual path for a stale refresh token.
  - A `login` or `register` caught in it keeps `isLoading` true.
  - A `logout` caught in it never clears the session.
- With no tokens stored, any 401 answer fails with "No refresh token
  available" and leaves nobody signed in (`Session.UnauthorizedWithoutTokens`).
  So a wrong password at login shows that message, not the server's
  "Invalid email or password".
- The interceptor's `logout` comes from the provider's first render, when it
  held no tokens. So after a failed refresh it clears the session without
  calling the logout route.
- The mount-time profile request is sent before the response interceptor is
  installed. The provider's effects run in order, and the client fixes a
  request's interceptors when the request is made. A 401 there is therefore
  not refreshed: it clears the tokens.

**Turning reduced motion off.**
- When the reduced-motion preference turns off, parallax and the 300 ms
  duration come back even on a device whose override had turned them down
  (`ConfigManager.RestoreUndoesDeviceOverride`).

**Cleanup.**
- `destroy` on the visual system cleans up only the image manager. The
  animation manager's registries survive.

## Model

| member | source | states |
|---|---|---|
| Text.TrimStart | packages/frontend/src/pages/RegisterPage.tsx:59 | the leading-whitespace strip never lengthens its input |
| Text.TrimStartDropsSpace | packages/frontend/src/pages/RegisterPage.tsx:59 | `trim` keeps a suffix that does not start with whitespace and drops only whitespace in front of it |
| Text.TrimEnd | packages/frontend/src/pages/RegisterPage.tsx:59 | the trailing-whitespace strip never lengthens its input |
| Text.TrimEndDropsSpace | packages/frontend/src/pages/RegisterPage.tsx:59 | `trim` keeps a prefix that does not end with whitespace and drops only whitespace after it |
| Text.Trim | packages/frontend/src/pages/RegisterPage.tsx:59 | `String.prototype.trim` never lengthens its input |
| Text.TrimEndsAreNotSpace | packages/frontend/src/pages/RegisterPage.tsx:59-61 | a trimmed string is empty or starts and ends with a non-whitespace character |
| Text.TrimIsMiddle | packages/frontend/src/pages/RegisterPage.tsx:59-61 | the trimmed string is a contiguous piece of the original with only whitespace around it |
| Text.TrimEmptyIffAllSpace | packages/frontend/src/pages/RegisterPage.tsx:59 | `!value.trim()` holds exactly when the value is all whitespace |
| Text.TrimOfTrimmed | packages/frontend/src/pages/RegisterPage.tsx:59 | a string with no whitespace at either end is its own trim |
| Text.TrimIdempotent | packages/frontend/src/pages/RegisterPage.tsx:59-61 | trimming twice equals trimming once |
| Text.IndexOf | packages/frontend/src/pages/RegisterPage.tsx:75 | the index of the first occurrence of a character, or the length when it does not occur |
| Text.EmailPatternSound | packages/frontend/src/pages/RegisterPage.tsx:75 | every string the one-pass email check accepts has the shape `[^\s@]+@[^\s@]+\.[^\s@]+` |
| Text.EmailPatternComplete | packages/frontend/src/pages/RegisterPage.tsx:75 | every string of that shape passes the one-pass check |
| Text.EmailPatternIsGrammar | packages/frontend/src/pages/RegisterPage.tsx:75 | the one-pass check matches exactly the regular expression's language |
| Text.PasswordPatternOnOneLine | packages/frontend/src/pages/RegisterPage.tsx:84 | on one line the three lookaheads mean that a lower-case letter, an upper-case letter and a digit all occur |
| Text.PasswordPatternNeedsAllClasses | packages/frontend/src/pages/RegisterPage.tsx:84 | any match implies that each of the three classes occurs |
| Text.PasswordPatternSplitAcrossLines | packages/frontend/src/pages/RegisterPage.tsx:84 | "aB", a newline, then "1" contains all three classes but fails the pattern, because `.` stops at line ends |
| Text.ToLowerAscii | packages/frontend/src/lib/visual-enhancement/config.ts:106-109 | the `i` flag folds exactly the ASCII upper-case letters to lower case |
| Domain.ParseExperienceLevel | packages/shared/src/types/index.ts:101-106 | the level whose wire name is the string, and the only one |
| Domain.ParseDifficulty | packages/shared/src/types/index.ts:108-112 | defined exactly on the three difficulty names, and then the level whose wire name is the string |
| Domain.ParseLessonType | packages/shared/src/types/index.ts:127-134 | defined exactly on the six lesson type names, and then the type whose wire name is the string |
| Domain.ParseAssessmentType | packages/shared/src/types/index.ts:136-142 | defined exactly on the five assessment type names, and then the type whose wire name is the string |
| Schemas.TypeIssue | packages/shared/src/schemas/index.ts:11-15 | a field yields no issue exactly when it is present with the right type |
| Schemas.CheckString | packages/shared/src/schemas/index.ts:12-14 | `z.string().min(n)` passes exactly a present string of length at least n |
| Schemas.CheckOptionalString | packages/shared/src/schemas/index.ts:24-30 | an optional string passes when absent, or present and (when a format is given) of that format |
| Schemas.CheckNumber | packages/shared/src/schemas/index.ts:39 | a required number passes exactly when present and satisfying its refinements |
| Schemas.CheckOptionalNumber | packages/shared/src/schemas/index.ts:72-73 | an optional or defaulted number passes when absent or when it satisfies its refinements |
| Schemas.CheckEnum | packages/shared/src/schemas/index.ts:15 | `z.nativeEnum` passes exactly the enumeration's string values |
| Schemas.CheckOptionalBool | packages/shared/src/schemas/index.ts:58 | a defaulted boolean passes unless it has the wrong type |
| Schemas.OptionOf | packages/shared/src/schemas/index.ts:24-30 | an optional field's parsed value is present exactly when the field was sent, and equal to it |
| Schemas.WithDefault | packages/shared/src/schemas/index.ts:40 | `.default(d)` yields the sent value when present and d otherwise |
| Schemas.ParseRegistration | packages/shared/src/schemas/index.ts:10-16 | accepts exactly a well-formed email, a password of length 8 or more, two non-empty names and one of the four levels, and passes them through unchanged; a rejection carries at least one issue |
| Schemas.ParseLogin | packages/shared/src/schemas/index.ts:18-21 | accepts exactly a well-formed email and a non-empty password, returned unchanged |
| Schemas.ParseProfileUpdate | packages/shared/src/schemas/index.ts:23-31 | accepts when every field is absent or a string and each present link is a URL; the result holds exactly the fields sent |
| Schemas.ElementIssues | packages/shared/src/schemas/index.ts:42 | an array of strings has no issue exactly when every element is a string |
| Schemas.Values | packages/shared/src/schemas/index.ts:42 | the parsed array has the same length and elements as the one sent |
| Schemas.CheckSkills | packages/shared/src/schemas/index.ts:41-43 | the skill list passes exactly when it is a non-empty array of strings |
| Schemas.ParseCourse | packages/shared/src/schemas/index.ts:34-44 | accepts exactly a non-empty title, a description of 10 or more characters, a difficulty, positive hours and at least one skill; the result carries the sent title, description, long description, difficulty, hours and skills in order, and the language defaults to "en" |
| Schemas.ParseModule | packages/shared/src/schemas/index.ts:46-51 | accepts exactly a non-empty title, a non-negative integer order index and a positive duration; the result carries the sent title, description, order index and duration |
| Schemas.ContentIssues | packages/shared/src/schemas/index.ts:59-63 | the lesson content passes exactly when its type is a lesson type and its metadata, if sent, is a record |
| Schemas.ParseLesson | packages/shared/src/schemas/index.ts:53-64 | accepts exactly a non-empty title, a lesson type, a positive duration, a non-negative integer order index, a boolean or absent `isOptional` and content with a lesson type and a record or absent metadata; the result carries the sent title, types, duration, order index and the content's unchecked `data` and its `metadata`, and `isOptional` defaults to false |
| Schemas.ParseAssessment | packages/shared/src/schemas/index.ts:67-75 | accepts exactly the seven field conditions; the result carries the sent title, description and type, the passing score is the sent integer in [0, 100], attempts are the sent positive integer or 3, a time limit is present exactly when sent and is then the sent positive integer, and `isProctored` defaults to false |
| Schemas.OptionalEnumIssues | packages/shared/src/schemas/index.ts:95 | an optional enumeration passes when absent or when it is one of the values |
| Schemas.OptionalArrayIssues | packages/shared/src/schemas/index.ts:96 | an optional string array passes when absent or when every element is a string |
| Schemas.RangeIssues | packages/shared/src/schemas/index.ts:97-102 | the duration range passes unless it, its min or its max has the wrong type |
| Schemas.ParseCourseSearch | packages/shared/src/schemas/index.ts:93-106 | accepts exactly when each of the seven optional fields is absent or well formed (rating in [1, 5], page a positive integer, limit a positive integer of at most 50); query, rating, difficulty, skills and the duration range with its bounds are the values sent; page defaults to 1 and limit to 20 |
| FormRules.NameError | packages/frontend/src/pages/RegisterPage.tsx:59-70 | "required" for a blank name, "at least 2 characters" when one character is left after trimming, no error otherwise |
| FormRules.NameRequiredIffBlank | packages/frontend/src/pages/RegisterPage.tsx:59-63 | the "required" message appears exactly when the name is all whitespace |
| FormRules.EmailError | packages/frontend/src/pages/RegisterPage.tsx:73-77 | "required" when the trimmed email is empty; otherwise "valid email address" exactly when the untrimmed value fails the pattern |
| FormRules.EmailAcceptedIffWellFormed | packages/frontend/src/pages/LoginPage.tsx:39-43 | an email passes exactly when it has the shape local@domain.tld with no whitespace and one '@' |
| FormRules.WellFormedEmailIsTrimmed | packages/frontend/src/pages/RegisterPage.tsx:139 | a well-formed email is its own trim, so the trimmed email sent is the one typed |
| Register.PasswordError | packages/frontend/src/pages/RegisterPage.tsx:80-86 | the password rules apply in priority order (empty, shorter than 8, composition), so there is at most one message; no message exactly when the length is at least 8 and the pattern matches |
| Register.PasswordAcceptedOnOneLine | packages/frontend/src/pages/RegisterPage.tsx:84 | a one-line password passes exactly when it has 8 or more characters, including a lower-case letter, an upper-case letter and a digit |
| Register.ConfirmError | packages/frontend/src/pages/RegisterPage.tsx:89-93 | an empty confirmation gives "Please confirm your password"; any difference gives "Passwords do not match"; no message exactly when it equals the password |
| Register.LevelError | packages/frontend/src/pages/RegisterPage.tsx:96-98 | the level fails exactly when it is the empty string |
| Register.TermsError | packages/frontend/src/pages/RegisterPage.tsx:101-103 | an unchecked terms box yields the terms error, and only then |
| Register.RegisterErrors.Without | packages/frontend/src/pages/RegisterPage.tsx:119-124 | removing one key's error leaves every other key's entry unchanged |
| Register.RegisterErrors.EmptyIffNoEntry | packages/frontend/src/pages/RegisterPage.tsx:106 | `Object.keys(errors).length === 0` exactly when no key has an entry |
| Register.FieldErrorIff | packages/frontend/src/pages/RegisterPage.tsx:58-103 | each input's rule gives no message exactly when the form meets that input's requirement |
| Register.AcceptsIffAllFieldsOk | packages/frontend/src/pages/RegisterPage.tsx:58-103 | the form is accepted exactly when every input's requirement holds |
| Register.NoErrorsIffAccepted | packages/frontend/src/pages/RegisterPage.tsx:105-106 | the error record is empty exactly when every rule passes |
| Register.Payload | packages/frontend/src/pages/RegisterPage.tsx:138-144 | the email and the names are trimmed; the password and the level are sent verbatim |
| Register.AcceptedFormPassesServerSchema | packages/frontend/src/pages/RegisterPage.tsx:138-144 | an accepted form sends exactly the typed email, and the server schema accepts it when its email format and enumeration accept the values |
| Register.ServerAcceptsPasswordPageRejects | packages/shared/src/schemas/index.ts:12 | "abcdefgh" passes the server's length rule but fails the page's composition rule |
| Register.CollectErrors | packages/frontend/src/pages/RegisterPage.tsx:55-103 | the record filled rule by rule is each input's rule result, with no general entry |
| Register.RegisterPage.constructor | packages/frontend/src/pages/RegisterPage.tsx:33-46 | the initial form, no errors, not submitting |
| Register.RegisterPage.ValidateForm | packages/frontend/src/pages/RegisterPage.tsx:55-107 | records every rule's result and returns true exactly when all rules pass |
| Register.RegisterPage.HandleInputChange | packages/frontend/src/pages/RegisterPage.tsx:109-125 | stores the new input (`checked` for the checkbox) and clears only that input's error |
| Register.RegisterPage.HandleSubmit | packages/frontend/src/pages/RegisterPage.tsx:127-155 | sends nothing unless the form is accepted; otherwise sends the payload, then navigates to the dashboard on success or records the general error on failure |
| Login.RedirectTarget | packages/frontend/src/pages/LoginPage.tsx:33 | the `from` path when it is a non-empty string, the dashboard otherwise |
| Login.RedirectTargetNonEmpty | packages/frontend/src/pages/LoginPage.tsx:33 | the redirect target is never empty |
| Login.PasswordError | packages/frontend/src/pages/LoginPage.tsx:46-48 | the password fails exactly when it is empty, untrimmed |
| Login.BlankPasswordPasses | packages/frontend/src/pages/LoginPage.tsx:46-48 | every non-empty password of spaces passes the login page, while a name of spaces is "required" |
| Login.LoginErrors.Without | packages/frontend/src/pages/LoginPage.tsx:62-67 | removing one key's error leaves every other key's entry unchanged |
| Login.NoErrorsIffAccepted | packages/frontend/src/pages/LoginPage.tsx:50-51 | the error record is empty exactly when both rules pass |
| Login.Credentials | packages/frontend/src/pages/LoginPage.tsx:81-84 | the email is trimmed and the password is sent verbatim |
| Login.AcceptedFormPassesServerSchema | packages/frontend/src/pages/LoginPage.tsx:81-84 | an accepted form sends the typed email, and the server's login schema returns the credentials unchanged when its email format accepts them |
| Login.CollectErrors | packages/frontend/src/pages/LoginPage.tsx:35-48 | the record filled rule by rule is each rule's result |
| Login.LoginPage.constructor | packages/frontend/src/pages/LoginPage.tsx:23-33 | empty form, no errors, and the redirect target fixed from the router state |
| Login.LoginPage.ValidateForm | packages/frontend/src/pages/LoginPage.tsx:35-52 | records both rules' results and returns true exactly when both pass |
| Login.LoginPage.HandleInputChange | packages/frontend/src/pages/LoginPage.tsx:54-68 | stores the new input and clears only that input's error |
| Login.LoginPage.HandleSubmit | packages/frontend/src/pages/LoginPage.tsx:70-95 | sends nothing unless accepted; otherwise sends the credentials, then navigates to the target on success or records the general error on failure |
| Profile.AfterScheme | packages/frontend/src/pages/ProfilePage.tsx:148 | stripping the scheme never lengthens the string |
| Profile.AfterLinkedInHost | packages/frontend/src/pages/ProfilePage.tsx:148 | stripping the host and `/in/` never lengthens the string |
| Profile.LinkedInPatternSound | packages/frontend/src/pages/ProfilePage.tsx:148 | every string the matcher accepts is a scheme, a host, a handle and an optional final slash |
| Profile.SchemeDecides | packages/frontend/src/pages/ProfilePage.tsx:148 | a scheme prefix decides what the matcher strips |
| Profile.HostDecides | packages/frontend/src/pages/ProfilePage.tsx:148 | a host between two cut points decides what the matcher strips |
| Profile.HandleDecides | packages/frontend/src/pages/ProfilePage.tsx:148 | a handle followed by nothing or one slash is accepted as the end |
| Profile.LinkedInPartsMatch | packages/frontend/src/pages/ProfilePage.tsx:148 | any scheme, host and handle cut at three points pass the matcher |
| Profile.LinkedInPatternComplete | packages/frontend/src/pages/ProfilePage.tsx:148 | every string of the pattern's language passes the matcher |
| Profile.LinkedInPatternIsGrammar | packages/frontend/src/pages/ProfilePage.tsx:148-150 | the matcher accepts exactly `^https?:\/\/(www\.)?linkedin\.com\/in\/[a-zA-Z0-9-]+\/?$` |
| Profile.PortfolioPatternIsGrammar | packages/frontend/src/pages/ProfilePage.tsx:153-155 | the matcher accepts exactly `^https?:\/\/.+`: a scheme and then a character that is not a line terminator |
| Profile.BareSchemeIsNotPortfolio | packages/frontend/src/pages/ProfilePage.tsx:153 | "https://" and "http://" fail; one more character after either passes |
| Profile.LinkedInError | packages/frontend/src/pages/ProfilePage.tsx:148-150 | an empty LinkedIn value passes; any other passes exactly when it matches the pattern |
| Profile.PortfolioError | packages/frontend/src/pages/ProfilePage.tsx:153-155 | an empty portfolio value passes; any other passes exactly when it matches the pattern |
| Profile.OrEmpty | packages/frontend/src/pages/ProfilePage.tsx:68-74 | `x \|\| ''` is non-empty exactly when x is truthy, and then it is x |
| Profile.FormFromUser | packages/frontend/src/pages/ProfilePage.tsx:65-76 | every form field is the user's field, or '' when the user's is missing or empty |
| Profile.ProfileErrors.Without | packages/frontend/src/pages/ProfilePage.tsx:169-174 | removing one key's error leaves every other key's entry unchanged |
| Profile.NoErrorsIffAccepted | packages/frontend/src/pages/ProfilePage.tsx:157-158 | the error record is empty exactly when every rule passes |
| Profile.CollectErrors | packages/frontend/src/pages/ProfilePage.tsx:130-155 | the record filled rule by rule holds each checked input's result; bio, role and location are never checked |
| Profile.Sent | packages/frontend/src/pages/ProfilePage.tsx:197-203 | a field is sent only when its trimmed value is non-empty, and then as that trimmed value |
| Profile.SentIffNotBlank | packages/frontend/src/pages/ProfilePage.tsx:197-203 | a field is sent exactly when it is not all whitespace; sending what was sent changes nothing |
| Profile.BuildUpdate | packages/frontend/src/pages/ProfilePage.tsx:195-203 | the update holds, for each of the seven fields, exactly its sent value |
| Profile.AcceptedUpdateKeepsNamesAndLinkedIn | packages/frontend/src/pages/ProfilePage.tsx:197-202 | an accepted form always sends both names, and sends a LinkedIn value exactly as typed |
| Profile.LinkedInIsTrimmed | packages/frontend/src/pages/ProfilePage.tsx:202 | a matching LinkedIn URL is its own trim |
| Profile.UpdatePassesServerSchema | packages/shared/src/schemas/index.ts:23-31 | the server schema returns the update unchanged exactly when its URL format accepts the links sent |
| Profile.CountTruthy | packages/frontend/src/pages/ProfilePage.tsx:243 | `filter(Boolean).length` never exceeds the list's length |
| Profile.CountTruthyAll | packages/frontend/src/pages/ProfilePage.tsx:242-243 | the count reaches the length exactly when every entry is truthy |
| Profile.CountTruthySome | packages/frontend/src/pages/ProfilePage.tsx:250-251 | the count is positive exactly when some entry is truthy |
| Profile.Achievements | packages/frontend/src/pages/ProfilePage.tsx:237-262 | three badges with totals 3, 2 and 2, whose progress never exceeds the total |
| Profile.AchievementsEarnedIffProgress | packages/frontend/src/pages/ProfilePage.tsx:242-259 | "Profile Complete" and "Professional Ready" are earned exactly at full progress, "Social Connected" at progress 1 or more |
| Profile.ProfilePage.constructor | packages/frontend/src/pages/ProfilePage.tsx:50-62 | empty form, no errors, no success message |
| Profile.ProfilePage.LoadUser | packages/frontend/src/pages/ProfilePage.tsx:65-77 | a present user refills the form from the user; no user leaves it as it was |
| Profile.ProfilePage.ValidateForm | packages/frontend/src/pages/ProfilePage.tsx:130-159 | records every rule's result and returns true exactly when all pass |
| Profile.ProfilePage.HandleInputChange | packages/frontend/src/pages/ProfilePage.tsx:161-180 | stores the input, clears only its error, and clears the success message |
| Profile.ProfilePage.HandleSubmit | packages/frontend/src/pages/ProfilePage.tsx:182-214 | sends nothing unless accepted; otherwise sends the non-blank fields trimmed, then shows success or records the general error |
| Session.StoredTokens | packages/frontend/src/contexts/AuthContext.tsx:84-97 | tokens read back exactly when both entries hold non-empty strings, with the entries' values and expiry '15m' |
| Session.WithTokens | packages/frontend/src/contexts/AuthContext.tsx:99-102 | sets the two token entries and keeps every other entry |
| Session.WithoutTokens | packages/frontend/src/contexts/AuthContext.tsx:104-107 | removes the two token entries and keeps every other entry |
| Session.StoreThenGet | packages/frontend/src/contexts/AuthContext.tsx:84-102 | storing tokens and reading them back gives the same two strings, unless one is empty |
| Session.ClearThenGet | packages/frontend/src/contexts/AuthContext.tsx:84-107 | after clearing, nothing reads back |
| Session.StoreThenClear | packages/frontend/src/contexts/AuthContext.tsx:99-107 | clearing after storing leaves what clearing alone leaves |
| Session.Installed | packages/frontend/src/contexts/AuthContext.tsx:288-293 | the provider holds the session and its tokens read back from storage |
| Session.SignedOut | packages/frontend/src/contexts/AuthContext.tsx:299-302 | no user, no tokens, nothing stored |
| Session.SignOutAbsorbs | packages/frontend/src/contexts/AuthContext.tsx:288-302 | signing out after installing a session equals signing out |
| Session.SignedOutTwice | packages/frontend/src/contexts/AuthContext.tsx:174-177 | signing out twice equals signing out once |
| Session.RefreshEnding | packages/frontend/src/contexts/AuthContext.tsx:277-305 | with nothing stored the refresh throws "No refresh token available"; a 401 answer hangs; a success returns; a declined answer throws its error or "Token refresh failed"; another thrown error is rethrown |
| Session.Settles | packages/frontend/src/contexts/AuthContext.tsx:157-183 | an answer other than a 401 settles as it is |
| Session.RetryUsesRefreshedToken | packages/frontend/src/contexts/AuthContext.tsx:166-173 | the interceptor retries exactly after a successful refresh with a non-empty access token, and with that token as the bearer |
| Session.FailedRefreshSignsOut | packages/frontend/src/contexts/AuthContext.tsx:174-178 | a refresh that throws rejects with its error and leaves no user, no tokens and nothing stored |
| Session.RejectedRefreshNeverSettles | packages/frontend/src/contexts/AuthContext.tsx:163-167 | with tokens stored and the refresh answered with 401, every call answered with 401 stays pending and the state is unchanged |
| Session.UnauthorizedWithoutTokens | packages/frontend/src/contexts/AuthContext.tsx:163-181 | with nothing stored, a 401 answer fails with "No refresh token available", shown as the login message, and signs out |
| Session.SignedOutAfterCall | packages/frontend/src/contexts/AuthContext.tsx:242-256 | signing out after any intercepted call equals signing out at once |
| Session.Authorization | packages/frontend/src/contexts/AuthContext.tsx:109-115 | the header `Bearer <token>` is set exactly when a non-empty access token is stored |
| Session.FailureMessage | packages/frontend/src/contexts/AuthContext.tsx:201-210 | the thrown message is the response's error, then the error's message, then the fallback, and it is never empty |
| Session.PageFallbackUnreachable | packages/frontend/src/pages/LoginPage.tsx:88-91 | the message thrown by login or register is never empty, so the pages' own fallbacks never show |
| Session.Request.constructor | packages/frontend/src/contexts/AuthContext.tsx:163 | a new request has not been retried |
| Session.AuthProvider.constructor | packages/frontend/src/contexts/AuthContext.tsx:120-122 | no user, no tokens, loading |
| Session.AuthProvider.StoreTokens | packages/frontend/src/contexts/AuthContext.tsx:99-102 | storage gains the two tokens and nothing else changes |
| Session.AuthProvider.ClearTokens | packages/frontend/src/contexts/AuthContext.tsx:104-107 | storage loses the two tokens and nothing else changes |
| Session.AuthProvider.Call | packages/frontend/src/contexts/AuthContext.tsx:157-183 | a call through the interceptor settles as `Settles` says and leaves the state `AfterCall` says |
| Session.AuthProvider.InitializeAuth | packages/frontend/src/contexts/AuthContext.tsx:126-154 | with stored tokens, a good profile answer sets the user and any other answer clears the tokens; without stored tokens nothing changes; loading always ends |
| Session.AuthProvider.SignIn | packages/frontend/src/contexts/AuthContext.tsx:190-240 | the call goes through the interceptor; when it settles with a success the session is held and stored, otherwise the thrown message is the non-empty failure message; loading ends exactly when the call settles |
| Session.AuthProvider.Login | packages/frontend/src/contexts/AuthContext.tsx:190-214 | without a 401 a success installs the returned user and tokens and stores the tokens, and a failure gives the login message; a 401 with nothing stored fails with "No refresh token available" and signs out; after a 401 with tokens stored and a refresh that settles, the retry decides: a success installs the session the retry returned over the refreshed state, and a failure leaves that state with the message; it hangs, loading, exactly when a 401 meets a refresh answered with 401 |
| Session.AuthProvider.Register | packages/frontend/src/contexts/AuthContext.tsx:216-240 | without a 401 a success installs the returned user and tokens and stores the tokens, and a failure gives the registration message; a 401 with nothing stored fails with "No refresh token available" and signs out; after a 401 with tokens stored and a refresh that settles, the retry decides: a success installs the session the retry returned over the refreshed state, and a failure leaves that state with the message; it hangs, loading, exactly when a 401 meets a refresh answered with 401 |
| Session.AuthProvider.Logout | packages/frontend/src/contexts/AuthContext.tsx:242-256 | posts only while tokens are held; once the call settles there is no user, no tokens and nothing stored; a call that never settles changes nothing |
| Session.AuthProvider.UpdateProfile | packages/frontend/src/contexts/AuthContext.tsx:258-275 | the call goes through the interceptor; a success replaces the user in the state the call left; a failure gives the profile message; loading never changes |
| Session.AuthProvider.RefreshToken | packages/frontend/src/contexts/AuthContext.tsx:277-305 | sends the stored refresh token; no stored tokens throws "No refresh token available"; success installs the new session; a 401 answer re-enters the interceptor and never settles; any other failure clears storage, tokens and user and is rethrown |
| Session.AuthProvider.OnResponseError | packages/frontend/src/contexts/AuthContext.tsx:157-183 | refreshes exactly on a 401 for a request not yet retried, marking it; then waits, rejects with the refresh error after signing out, retries with the stored token, or rejects with the original error, as `InterceptorReaction` says |
| Session.AuthProvider.RefreshAtMostOncePerRequest | packages/frontend/src/contexts/AuthContext.tsx:163-165 | a request that fails twice causes at most one refresh, and exactly one when it was not yet marked |
| AuthRoutes.EnvOr | packages/backend/src/routes/auth.ts:12-15 | `process.env.X \|\| fallback`: the variable when set and non-empty, the fallback otherwise |
| AuthRoutes.ConfigFrom | packages/backend/src/routes/auth.ts:12-15 | the four JWT settings with their fallbacks |
| AuthRoutes.FallbackSecretsDiffer | packages/backend/src/routes/auth.ts:12-13 | without the environment the access and refresh secrets differ |
| AuthRoutes.GenerateTokens | packages/backend/src/routes/auth.ts:18-32 | an access token under the access secret and a refresh token under the refresh secret, both naming the user |
| AuthRoutes.Verify | packages/backend/src/routes/auth.ts:206 | a token verifies exactly when it was signed with the given secret and has not expired, and then decodes to itself |
| AuthRoutes.Select | packages/backend/src/routes/auth.ts:67-75 | a `select` holds exactly the named columns, each with the row's value |
| AuthRoutes.RegisterView | packages/backend/src/routes/auth.ts:67-75 | the register answer has id, email, names, level, status and `createdAt`, and no hash, bio or `lastActive` |
| AuthRoutes.LoginView | packages/backend/src/routes/auth.ts:118-160 | the login lookup also selects the hash; stripping it leaves exactly the register answer |
| AuthRoutes.RefreshView | packages/backend/src/routes/auth.ts:216-224 | the refresh answer is the register answer without `createdAt` |
| AuthRoutes.ProfileView | packages/backend/src/routes/auth.ts:273-289 | the profile answer holds every column but the hash |
| AuthRoutes.UpdatedView | packages/backend/src/routes/auth.ts:326-340 | the update answer is the profile answer without `createdAt` and `lastActive` |
| AuthRoutes.NoAnswerCarriesTheHash | packages/backend/src/routes/auth.ts:66-340 | none of the five user objects the routes send holds the password hash |
| AuthRoutes.ProfileViewDeterminesRow | packages/backend/src/routes/auth.ts:273-289 | two rows with the same profile answer differ at most in their hashes |
| AuthRoutes.NewRow | packages/backend/src/routes/auth.ts:53-66 | the new row has the sent email, names and level, status 'FREE', and the hash of the password with 12 rounds |
| AuthRoutes.ApplyUpdate | packages/backend/src/routes/auth.ts:320-325 | each field the update carries replaces the stored one; id, email, hash, level and status stay; `updatedAt` moves |
| AuthRoutes.ApplyUpdateLaws | packages/backend/src/routes/auth.ts:320-325 | an empty update only moves `updatedAt`; applying the same update twice is applying it once |
| AuthRoutes.RefreshCheck | packages/backend/src/routes/auth.ts:196-213 | a missing token gives "Refresh token is required", a forged or expired one "Invalid or expired refresh token", a valid token of the wrong type "Invalid token type"; it passes exactly an unexpired refresh-typed token signed with the refresh secret |
| AuthRoutes.AccessTokenNeverRefreshes | packages/backend/src/routes/auth.ts:206-213 | an access token never passes the refresh check: its signature fails when the secrets differ, and its type fails when they are equal |
| AuthRoutes.FreshRefreshTokenPasses | packages/backend/src/routes/auth.ts:196-213 | an unexpired refresh token passes and names its user |
| AuthRoutes.AuthServer.constructor | packages/backend/src/routes/auth.ts:8 | an empty user table |
| AuthRoutes.AuthServer.EmailsUnique | packages/backend/src/routes/auth.ts:41-50 | no two rows share an email |
| AuthRoutes.AuthServer.SignedInResponse | packages/backend/src/routes/auth.ts:79-91 | the given user object, a token pair for the given id and email, and the access expiry |
| AuthRoutes.AuthServer.Register | packages/backend/src/routes/auth.ts:35-110 | invalid body 400; taken email 400 with the table unchanged; otherwise exactly one row added and 201 with the register view of the row and tokens |
| AuthRoutes.AuthServer.Login | packages/backend/src/routes/auth.ts:113-191 | unknown email and wrong password give the same 401; success changes only that row's `lastActive` and returns the login view of the row, without its hash |
| AuthRoutes.AuthServer.Refresh | packages/backend/src/routes/auth.ts:194-266 | each failed check gives its own 401; a missing user gives "User not found"; otherwise the refresh view of the row and a new pair; the table never changes |
| AuthRoutes.AuthServer.GetProfile | packages/backend/src/routes/auth.ts:269-311 | 404 when the row is gone, else the profile view of the row |
| AuthRoutes.AuthServer.UpdateProfile | packages/backend/src/routes/auth.ts:314-365 | invalid body 400; missing row 500; otherwise only the validated fields and `updatedAt` of that row change, and the answer is the updated view of the new row |
| AuthRoutes.AuthServer.Logout | packages/backend/src/routes/auth.ts:368-388 | stamps only that row's `lastActive`; a missing row gives 500 |
| ConfigManager.Full | packages/frontend/src/lib/visual-enhancement/config.ts:82 | a whole configuration seen as an update gives every key its value |
| ConfigManager.SameSettingsSameConfig | packages/frontend/src/lib/visual-enhancement/config.ts:8-15 | two configurations that agree on every key are equal |
| ConfigManager.Merge | packages/frontend/src/lib/visual-enhancement/config.ts:89 | `{...c, ...u}`: each key u gives takes its new value, every other keeps its old one |
| ConfigManager.Then | packages/frontend/src/lib/visual-enhancement/config.ts:89 | the combined update gives each key the later value when there is one |
| ConfigManager.MergeLaws | packages/frontend/src/lib/visual-enhancement/config.ts:89 | merging nothing keeps the configuration; merging a whole configuration yields exactly it |
| ConfigManager.MergeComposes | packages/frontend/src/lib/visual-enhancement/config.ts:88-91 | updating twice with the same update is updating once; two updates in a row equal their combination |
| ConfigManager.SpeedOf | packages/frontend/src/lib/visual-enhancement/config.ts:114-123 | 2g and slow-2g are slow, 4g is fast, anything else or no connection is medium |
| ConfigManager.MemoryOf | packages/frontend/src/lib/visual-enhancement/config.ts:126 | `deviceMemory \|\| 4`: a missing or zero reading counts as 4 |
| ConfigManager.TabletIsMobile | packages/frontend/src/lib/visual-enhancement/config.ts:106-109 | every user agent the tablet pattern matches also matches the mobile pattern |
| ConfigManager.Detect | packages/frontend/src/lib/visual-enhancement/config.ts:106-135 | the recorded device facts; a device is a desktop exactly when it is neither mobile nor tablet, which is exactly when it is not mobile |
| ConfigManager.StartConfigFields | packages/frontend/src/lib/visual-enhancement/config.ts:73-163 | a weak device forces medium images; parallax is off on a weak device or under reduced motion; reduced motion, applied last, wins the duration (0 over 200) |
| ConfigManager.NoWindowNoOverride | packages/frontend/src/lib/visual-enhancement/config.ts:103-149 | without a window the manager holds the defaults with the initial values over them |
| ConfigManager.RestoreUndoesDeviceOverride | packages/frontend/src/lib/visual-enhancement/config.ts:173-179 | reduced motion turning off brings back parallax and the 300 ms default even on a weak device |
| ConfigManager.ConfigStore.constructor | packages/frontend/src/lib/visual-enhancement/config.ts:190 | the storage entry starts as given |
| ConfigManager.Restored | packages/frontend/src/lib/visual-enhancement/config.ts:197-209 | no window, no entry or unparsable text give no initial values |
| ConfigManager.SavedConfigReloads | packages/frontend/src/lib/visual-enhancement/config.ts:186-205 | a configuration an update wrote is read back whole, and the reloaded manager starts from it with the overrides applied again |
| ConfigManager.VisualConfigManager.constructor | packages/frontend/src/lib/visual-enhancement/config.ts:72-76 | defaults, then the initial values, then the device and motion overrides; the listener is registered when `matchMedia` exists |
| ConfigManager.VisualConfigManager.DetectDeviceCapabilities | packages/frontend/src/lib/visual-enhancement/config.ts:103-143 | records the device and applies the device override; without a window or navigator, nothing changes |
| ConfigManager.VisualConfigManager.ApplyReducedMotionPreference | packages/frontend/src/lib/visual-enhancement/config.ts:148-181 | applies the motion override and registers the listener when `matchMedia` exists |
| ConfigManager.VisualConfigManager.GetConfig | packages/frontend/src/lib/visual-enhancement/config.ts:81-83 | returns the configuration as a value copy |
| ConfigManager.VisualConfigManager.UpdateConfig | packages/frontend/src/lib/visual-enhancement/config.ts:88-91 | the new configuration is the merge; in a browser the whole configuration is stored |
| ConfigManager.VisualConfigManager.ApplyConfigChanges | packages/frontend/src/lib/visual-enhancement/config.ts:186-192 | in a browser the storage entry becomes the whole configuration; otherwise it stays |
| ConfigManager.VisualConfigManager.OnReducedMotionChange | packages/frontend/src/lib/visual-enhancement/config.ts:166-180 | turning on (when respected) switches animations and parallax off with a 0 duration; turning off switches both on with 300 ms; either change is saved whole to storage in a browser; otherwise nothing changes |
| ConfigManager.VisualConfigManager.LoadFromStorage | packages/frontend/src/lib/visual-enhancement/config.ts:197-210 | a fresh manager built from what storage holds, or from the defaults |
| VisualSystem.VisualEnhancementSystem.constructor | packages/frontend/src/lib/visual-enhancement/VisualEnhancementSystem.ts:27-38 | not initialized; uses the given configuration manager or one loaded from storage; fresh managers with empty registries |
| VisualSystem.VisualEnhancementSystem.Initialize | packages/frontend/src/lib/visual-enhancement/VisualEnhancementSystem.ts:43-74 | a second call is a no-op; success sets the flag and dispatches the event in a browser; a failing step is rethrown and the flag stays false |
| VisualSystem.VisualEnhancementSystem.GetConfig | packages/frontend/src/lib/visual-enhancement/VisualEnhancementSystem.ts:79-81 | the configuration manager's configuration |
| VisualSystem.VisualEnhancementSystem.UpdateConfig | packages/frontend/src/lib/visual-enhancement/VisualEnhancementSystem.ts:86-89 | the configuration becomes the merge and is stored in a browser; without a window the stored entry, and in any case the device facts and the listener, stay as they were |
| VisualSystem.VisualEnhancementSystem.IsInitialized | packages/frontend/src/lib/visual-enhancement/VisualEnhancementSystem.ts:94-96 | the flag |
| VisualSystem.VisualEnhancementSystem.Destroy | packages/frontend/src/lib/visual-enhancement/VisualEnhancementSystem.ts:101-113 | clears the flag, cleans up the image manager only, and dispatches the event in a browser |
| VisualSystem.Registry.constructor | packages/frontend/src/lib/visual-enhancement/VisualEnhancementSystem.ts:198 | no global system yet |
| VisualSystem.Registry.GetVisualSystem | packages/frontend/src/lib/visual-enhancement/VisualEnhancementSystem.ts:203-208 | the same instance on every call after the first, which creates it from storage |
| VisualSystem.Registry.InitializeVisualSystem | packages/frontend/src/lib/visual-enhancement/VisualEnhancementSystem.ts:213-224 | applies the given configuration first; an already initialized system is left initialized with no new event and no error; otherwise without a failing step it is initialized and `visualSystemInitialized` is dispatched once in a browser, and a failing step rethrows with the flag and the events unchanged |
| Animations.Preset | packages/frontend/src/lib/visual-enhancement/managers/AnimationManager.ts:48-82 | a start and end state exactly for the seven preset names |
| Animations.ReverseAnimation | packages/frontend/src/lib/visual-enhancement/managers/AnimationManager.ts:120-142 | each preset's fixed reverse, and a fade-out for any other name or object |
| Animations.ReverseHeadsBackToStart | packages/frontend/src/lib/visual-enhancement/managers/AnimationManager.ts:120-142 | each reverse sets exactly the keys its preset's start state sets, each part of the way back, and fades out whenever the preset fades in |
| Animations.TriggerFor | packages/frontend/src/lib/visual-enhancement/managers/AnimationManager.ts:89-115 | "fadeInUp", 0.6 s and no delay unless given; reverses on leave exactly when asked |
| Animations.LeaveTween | packages/frontend/src/lib/visual-enhancement/managers/AnimationManager.ts:100-107 | leaving plays the reverse animation exactly when `reverseOnLeave` is set, over half the entering duration |
| Animations.HoverPropsFor | packages/frontend/src/lib/visual-enhancement/managers/AnimationManager.ts:194-219 | `customProps` override scale, rotation, duration and ease; lift then sets y and shadow; glow sets the filter |
| Animations.DefaultHover | packages/frontend/src/lib/visual-enhancement/managers/AnimationManager.ts:194-215 | no options: scale 1.05, lift by 8, 0.3 s, no glow |
| Animations.AnimationManager.constructor | packages/frontend/src/lib/visual-enhancement/managers/AnimationManager.ts:14-19 | both registries empty |
| Animations.AnimationManager.UnregisterScrollAnimation | packages/frontend/src/lib/visual-enhancement/managers/AnimationManager.ts:144-150 | kills and removes the element's trigger if any; every other entry stays |
| Animations.AnimationManager.RegisterScrollAnimation | packages/frontend/src/lib/visual-enhancement/managers/AnimationManager.ts:30-117 | kills any previous trigger of the element and registers exactly one new one |
| Animations.AnimationManager.RegisterHoverEffect | packages/frontend/src/lib/visual-enhancement/managers/AnimationManager.ts:187-229 | kills any previous timeline of the element and stores one playing the assembled hover props |
| Animations.AnimationManager.RegisterStaggered | packages/frontend/src/lib/visual-enhancement/managers/AnimationManager.ts:275-281 | one step of the stagger loop keeps the loop invariant |
| Animations.AnimationManager.StaggerAnimation | packages/frontend/src/lib/visual-enhancement/managers/AnimationManager.ts:274-282 | every element ends up registered, with the delay of its last position times the gap, 0.1 s when none is given; other entries stay |
| Animations.AnimationManager.StaggeredAll | packages/frontend/src/lib/visual-enhancement/managers/AnimationManager.ts:274-282 | the loop invariant at the end gives the stagger postcondition |
| Animations.AnimationManager.KillEach | packages/frontend/src/lib/visual-enhancement/managers/AnimationManager.ts:333-337 | kills exactly the given handles, leaving the registries alone |
| Animations.AnimationManager.Destroy | packages/frontend/src/lib/visual-enhancement/managers/AnimationManager.ts:331-342 | exactly the handles of both registries are added to the killed ones, and both registries are empty |
| Images.DecimalDigits | packages/frontend/src/lib/visual-enhancement/managers/ImageManager.ts:186 | the decimal spelling of a number is never empty |
| Images.WidthsSpelledOut | packages/frontend/src/lib/visual-enhancement/managers/ImageManager.ts:184-186 | the five widths print as "320", "640", "960", "1280" and "1920" |
| Images.ThreeDigits | packages/frontend/src/lib/visual-enhancement/managers/ImageManager.ts:186 | appending two digits to a number appends their characters to its spelling |
| Images.JoinFive | packages/frontend/src/lib/visual-enhancement/managers/ImageManager.ts:187 | `join` of five parts puts the separator between neighbours |
| Images.CandidatesSpelledOut | packages/frontend/src/lib/visual-enhancement/managers/ImageManager.ts:185-186 | each candidate is the base URL, a space and the width with "w" |
| Images.SrcSetSpelledOut | packages/frontend/src/lib/visual-enhancement/managers/ImageManager.ts:176-190 | the srcset is "s 320w, s 640w, s 960w, s 1280w, s 1920w" and never empty |
| Images.OptimizedSrc | packages/frontend/src/lib/visual-enhancement/managers/ImageManager.ts:113-161 | every branch returns the original source |
| Images.OnLoadError | packages/frontend/src/lib/visual-enhancement/managers/ImageManager.ts:98-137 | retries with the fallback exactly when it differs from what was requested, otherwise rejects with "Failed to load image: " and the source |
| Images.FailedLoadAlwaysRejects | packages/frontend/src/lib/visual-enhancement/managers/ImageManager.ts:98-137 | since the optimized and the fallback source are both the original, a failed load always rejects |
| Images.DrainStep | packages/frontend/src/lib/visual-enhancement/managers/ImageManager.ts:34-43 | the batch from one entry on is that entry's effect followed by the batch from the next |
| Images.LoadedImagesAppend | packages/frontend/src/lib/visual-enhancement/managers/ImageManager.ts:40 | the images of the loads after one more load gain exactly its image |
| Images.DrainLoadsPendingOnce | packages/frontend/src/lib/visual-enhancement/managers/ImageManager.ts:33-45 | a batch loads only pending images, each at most once and from its `data-src`; exactly the loaded images stop being pending |
| Images.ImageManager.constructor | packages/frontend/src/lib/visual-enhancement/managers/ImageManager.ts:19-52 | the observer exists when the browser offers one; nothing is pending |
| Images.ImageManager.LoadImage | packages/frontend/src/lib/visual-enhancement/managers/ImageManager.ts:54-86 | the new image gets its srcset and, when truthy, its sizes and placeholder, and no other image's attributes change; a lazy image with an observer is recorded and watched; any other is loaded at once |
| Images.ImageManager.OnIntersection | packages/frontend/src/lib/visual-enhancement/managers/ImageManager.ts:33-45 | the loads, pending images and watched images after the callback are those of the batch drain |
| Images.ImageManager.Visit | packages/frontend/src/lib/visual-enhancement/managers/ImageManager.ts:35-43 | a ready entry loads its image, stops being watched and stops being pending; any other changes nothing |
| Images.ImageManager.Destroy | packages/frontend/src/lib/visual-enhancement/managers/ImageManager.ts:206-212 | no observer, nothing watched, nothing pending |
| Images.ImageManager.CreateGallery | packages/frontend/src/lib/visual-enhancement/managers/ImageManager.ts:192-195 | a new gallery sharing the caller's list |
| Images.ImageManager.CreateBeforeAfterComparison | packages/frontend/src/lib/visual-enhancement/managers/ImageManager.ts:197-201 | a new component holding exactly the two sources |
| Images.Removed | packages/frontend/src/lib/visual-enhancement/managers/ImageManager.ts:231-235 | an in-range index removes exactly that element, keeping the order of the rest; any other index changes nothing |
| Images.RemoveUndoesAdd | packages/frontend/src/lib/visual-enhancement/managers/ImageManager.ts:227-235 | removing the image just added at the end restores the list |
| Images.ImageList.constructor | packages/frontend/src/lib/visual-enhancement/managers/ImageManager.ts:219 | the list holds the given images |
| Images.Gallery.constructor | packages/frontend/src/lib/visual-enhancement/managers/ImageManager.ts:219 | the gallery holds the caller's list itself |
| Images.Gallery.AddImage | packages/frontend/src/lib/visual-enhancement/managers/ImageManager.ts:227-229 | one image at the end; earlier images unchanged |
| Images.Gallery.RemoveImage | packages/frontend/src/lib/visual-enhancement/managers/ImageManager.ts:231-235 | the list becomes the removal of the index |
| Images.Comparison.constructor | packages/frontend/src/lib/visual-enhancement/managers/ImageManager.ts:242-243 | both sources empty |
| Images.Comparison.SetImages | packages/frontend/src/lib/visual-enhancement/managers/ImageManager.ts:252-255 | holds exactly the two sources given |
| BrowserTests.AvailabilityResults | packages/frontend/src/lib/visual-enhancement/utils/testHelpers.ts:84-99 | one passing result per manager, five in order |
| BrowserTests.Prefix50 | packages/frontend/src/lib/visual-enhancement/utils/testHelpers.ts:133 | `substring(0, 50)` is a prefix of at most 50 characters, the whole string when it is that short |
| BrowserTests.Count | packages/frontend/src/lib/visual-enhancement/utils/testHelpers.ts:150-151 | a filtered count never exceeds the number of results |
| BrowserTests.CountAppend | packages/frontend/src/lib/visual-enhancement/utils/testHelpers.ts:150-151 | counting over a concatenation adds the counts |
| BrowserTests.PassOrFail | packages/frontend/src/lib/visual-enhancement/utils/testHelpers.ts:149-151 | passed plus failed is the total, since every status is pass or fail |
| BrowserTests.PassRate | packages/frontend/src/lib/visual-enhancement/utils/testHelpers.ts:157 | 0 without results; otherwise 100·passed/total rounded half up, and at most 100 |
| BrowserTests.Summarize | packages/frontend/src/lib/visual-enhancement/utils/testHelpers.ts:148-159 | total, the two counts with passed + failed = total, and the rate |
| BrowserTests.RunSummary | packages/frontend/src/lib/visual-enhancement/utils/testHelpers.ts:21-159 | a run records 11 results, 12 in a browser; it fails nothing exactly when the system is initialized and a user agent is reported, and then the rate is 100 |
| BrowserTests.RunFailures | packages/frontend/src/lib/visual-enhancement/utils/testHelpers.ts:21-31 | the length of a run and when it has no failure |
| BrowserTests.InitializationFailures | packages/frontend/src/lib/visual-enhancement/utils/testHelpers.ts:42-52 | one result, failing exactly when the system is not initialized |
| BrowserTests.DeviceFailures | packages/frontend/src/lib/visual-enhancement/utils/testHelpers.ts:123-143 | one result without a window, two with one; no failure exactly when a user agent is reported |
| BrowserTests.FixedResultsPass | packages/frontend/src/lib/visual-enhancement/utils/testHelpers.ts:54-121 | the nine checks that do not depend on the system or page all pass |
| BrowserTests.AllPassCountsNoFail | packages/frontend/src/lib/visual-enhancement/utils/testHelpers.ts:151 | results that all pass count no failure |
| BrowserTests.VisualSystemBrowserTest.constructor | packages/frontend/src/lib/visual-enhancement/utils/testHelpers.ts:14-16 | holds the system, no results |
| BrowserTests.VisualSystemBrowserTest.RunAllTests | packages/frontend/src/lib/visual-enhancement/utils/testHelpers.ts:21-31 | starts from no results, records exactly one run's results, and leaves the configuration as it found it |
| BrowserTests.VisualSystemBrowserTest.AddResult | packages/frontend/src/lib/visual-enhancement/utils/testHelpers.ts:33-40 | appends exactly one result, keeping the earlier ones |
| BrowserTests.VisualSystemBrowserTest.TestSystemInitialization | packages/frontend/src/lib/visual-enhancement/utils/testHelpers.ts:42-52 | appends pass or fail according to the flag |
| BrowserTests.VisualSystemBrowserTest.TestConfigurationManagement | packages/frontend/src/lib/visual-enhancement/utils/testHelpers.ts:54-82 | both checks pass, and the original configuration is restored (and stored in a browser) |
| BrowserTests.VisualSystemBrowserTest.TestManagerAvailability | packages/frontend/src/lib/visual-enhancement/utils/testHelpers.ts:84-99 | appends exactly the five availability results |
| BrowserTests.VisualSystemBrowserTest.TestPerformanceController | packages/frontend/src/lib/visual-enhancement/utils/testHelpers.ts:102-121 | appends the two passing results for the placeholder controller's numbers |
| BrowserTests.VisualSystemBrowserTest.TestDeviceDetection | packages/frontend/src/lib/visual-enhancement/utils/testHelpers.ts:123-143 | appends the environment results for the page |
| BrowserTests.VisualSystemBrowserTest.GetTestSummary | packages/frontend/src/lib/visual-enhancement/utils/testHelpers.ts:148-159 | the summary of the results recorded |

## Left out

**Schemas**
- zod's `email()`, `url()` and `cuid()` formats are parameters (`Schemas.Formats`), not implementations.
- zod's issue messages and paths are kept only where the source names them.
- `QuestionSchema`, `EnrollmentSchema`, `ProgressUpdateSchema`, `AssessmentSubmissionSchema`, `ApiResponseSchema` and `PaginatedResponseSchema` are not part of this model. No operation of the core uses them.

**Strings and numbers**
- String lengths count Dafny characters, not UTF-16 code units. The two differ only outside the Basic Multilingual Plane.
- Numbers are mathematical reals without NaN or the infinities.
- The integer fields of parsed records are `int`.
- `Math.round` on the pass rate is exact rational round-half-up, not floating-point rounding.
- A `deviceMemory` of NaN is not modelled; a zero reading is.

**Page state**
- A cleared error is the absent entry (`None`). The source's `undefined` key still counts for `Object.keys`, but the pages rebuild the record from scratch on every `validateForm`, so no verdict depends on the difference.
- React's effects, re-renders and asynchronous ordering are not modelled. Each handler is one sequential state transition. The one ordering that matters, the mount-time profile request going out before the response interceptor is installed, is built into `Session.AuthProvider.InitializeAuth`.
- Login.LoginPage.HandleSubmit, Register.RegisterPage.HandleSubmit and Profile.ProfilePage.HandleSubmit take the provider call as settled. A provider call that never settles leaves those pages submitting; the pages do not model that case.
- Session.AuthProvider.Call, Session.AuthProvider.OnResponseError and Session.AuthProvider.RefreshToken unfold the interceptor's re-entry at most `rounds` times and then report the call pending. Their contracts give the same result for every `rounds`. The model assumes the server answers every refresh call with the same token in the same way.
- The `isLoading` guards of the pages are not modelled.

**Crypto, storage and persistence**
- bcrypt and jsonwebtoken are uninterpreted. A token's expiry is a boolean given by the caller.
- Prisma, the database and `authMiddleware` are left out. The table is two maps.
- Concurrent duplicate registration is left out; the database's unique index guards it.
- `avatar` and the `createdAt` of the client's user record are left out. The route views select `avatar` on `GET /profile` and `PUT /profile`; the model's columns omit it.
- `JSON.stringify` and `JSON.parse` of the stored configuration are exact: a stored configuration is either its keys or `Unparsable`.

**Visual enhancement**
- GSAP and ScrollTrigger are reduced to handles that can be killed. Left out:
  - tween playback;
  - `ScrollTrigger.defaults` and `killAll`;
  - event listeners;
  - the `start`, `end`, `trigger`, `stagger` and `ease` options of scroll triggers.
- The other animation helpers are left out because they only drive the animation library and keep no state: `executePageTransition`, `animateCounter`, `animateProgressBar`, `createParallaxEffect` and `createMorphingBackground`.
- `preloadImages`, image decoding, the `onload` class changes and the canvas WebP probe are left out. WebP support is a constructor parameter.
- Loads are recorded, not performed.
- The media player, interaction controller and performance controller are placeholders that return constants. Only the performance controller's two constants are used, by the test runner.
- `VisualSystem.VisualEnhancementSystem.Initialize`: its five sub-steps only log. `stepError` stands for a failure that the present code cannot raise.
- `applyConfigToManagers` only logs, so it is not modelled.
- `console` output, `timestamp` fields and `Date` values are left out; timestamps are integer parameters.
- `typeof window`/`typeof navigator` are modelled as an optional window holding an optional navigator.

**Test runner**
- `BrowserTests.VisualSystemBrowserTest.TestDeviceDetection` reports the runtime error for a page without a navigator as the fixed text "Error: navigator is not defined".
- The "Configuration Get"/"Configuration Update" failure branches and the "Configuration Management", "Performance Controller" and "Device Detection" catch branches for other errors are unreachable in the model: every value involved is an object and no call throws.
