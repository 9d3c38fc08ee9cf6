/**
 * The client's session: the two tokens kept in the browser's key/value
 * storage, the `user`/`tokens`/`isLoading` state of the authentication
 * provider, and how login, registration, logout, profile update, token
 * refresh and the 401 response interceptor move that state. Every HTTP call
 * is replaced by a parameter saying how the server answers it.
 *
 * The response interceptor is installed on the shared HTTP client, so it
 * also handles the refresh call that it makes itself: a refresh answered
 * with 401 refreshes again with the same stored token, without end. The
 * methods `Call`, `OnResponseError` and `RefreshToken` follow that
 * re-entry; their `rounds` parameter is how many re-entries the model
 * unfolds before it reports the call as still pending, and their contracts
 * give the same answer whatever `rounds` is.
 */
module Session {
  import opened Wrappers
  import opened Domain

  const TokenKey := "itp_access_token"
  const RefreshTokenKey := "itp_refresh_token"

  /** The expiry reported for tokens read back from storage; storage does not keep it. */
  const StoredExpiresIn := "15m"

  /**
   * A thrown error: the HTTP status of its response (0 when there is no
   * response), the response's `error` text and the error's own message
   * (each empty when absent).
   */
  datatype Thrown = Thrown(status: int, responseError: string, message: string)

  /** `new Error(message)`: no response attached. */
  function PlainError(message: string): Thrown
  {
    Thrown(0, "", message)
  }

  /**
   * How the server answers one HTTP call: a response with `success: true`
   * and its data, a response with `success: false` and its `error` text
   * (empty when absent), or an error the client throws.
   */
  datatype Outcome<T> = Succeeded(value: T) | Declined(error: string) | Threw(thrown: Thrown)

  /** An answer the response interceptor reacts to: a 401 response. */
  predicate IsUnauthorized<T>(o: Outcome<T>)
  {
    o.Threw? && o.thrown.status == 401
  }

  /** The data of a successful login, registration or refresh. */
  datatype Session = Session(user: AuthUser, tokens: AuthTokens)

  /** Where a call's promise ends: settled with an outcome, or never. */
  datatype Settlement<T> = Settled(outcome: Outcome<T>) | Pending

  /** Where an `async` provider function ends: it returns, it throws, or it never settles. */
  datatype Ending = Returned | Raised(error: Thrown) | Hanging

  /** The provider state the model tracks. */
  datatype State = State(user: Option<AuthUser>, tokens: Option<AuthTokens>, storage: map<string, string>)

  // ---------------------------------------------------------------------------
  // Token storage

  /** `getStoredTokens`: both entries must hold a non-empty string. */
  function StoredTokens(storage: map<string, string>): (r: Option<AuthTokens>)
    ensures r.Some? <==>
      TokenKey in storage && storage[TokenKey] != "" && RefreshTokenKey in storage && storage[RefreshTokenKey] != ""
    ensures r.Some? ==>
      r.value == AuthTokens(storage[TokenKey], storage[RefreshTokenKey], StoredExpiresIn)
  {
    if TokenKey in storage && RefreshTokenKey in storage
       && storage[TokenKey] != "" && storage[RefreshTokenKey] != ""
    then Some(AuthTokens(storage[TokenKey], storage[RefreshTokenKey], StoredExpiresIn))
    else None
  }

  /** `storeTokens`: the two entries set, every other entry kept. */
  function WithTokens(storage: map<string, string>, t: AuthTokens): (s: map<string, string>)
    ensures TokenKey in s && s[TokenKey] == t.accessToken
    ensures RefreshTokenKey in s && s[RefreshTokenKey] == t.refreshToken
    ensures forall k :: k != TokenKey && k != RefreshTokenKey ==> (k in s <==> k in storage)
    ensures forall k :: k != TokenKey && k != RefreshTokenKey && k in s ==> s[k] == storage[k]
  {
    storage[TokenKey := t.accessToken][RefreshTokenKey := t.refreshToken]
  }

  /** `clearTokens`: the two entries removed, every other entry kept. */
  function WithoutTokens(storage: map<string, string>): (s: map<string, string>)
    ensures TokenKey !in s && RefreshTokenKey !in s
    ensures forall k :: k != TokenKey && k != RefreshTokenKey ==> (k in s <==> k in storage)
    ensures forall k :: k != TokenKey && k != RefreshTokenKey && k in s ==> s[k] == storage[k]
  {
    storage - {TokenKey, RefreshTokenKey}
  }

  /**
   * Storing tokens and reading them back gives the same two strings, with
   * the fixed expiry, unless one of them is empty: then nothing reads back.
   */
  lemma StoreThenGet(storage: map<string, string>, t: AuthTokens)
    ensures t.accessToken != "" && t.refreshToken != "" ==>
      StoredTokens(WithTokens(storage, t)) == Some(AuthTokens(t.accessToken, t.refreshToken, StoredExpiresIn))
    ensures t.accessToken == "" || t.refreshToken == "" ==> StoredTokens(WithTokens(storage, t)) == None
  {
  }

  /** After clearing, nothing reads back. */
  lemma ClearThenGet(storage: map<string, string>)
    ensures StoredTokens(WithoutTokens(storage)) == None
  {
  }

  /** The request interceptor's header: `Bearer <token>` when a non-empty access token is stored. */
  function Authorization(storage: map<string, string>): (h: Option<string>)
    ensures h.Some? <==> TokenKey in storage && storage[TokenKey] != ""
    ensures h.Some? ==> h.value == "Bearer " + storage[TokenKey]
  {
    if TokenKey in storage && storage[TokenKey] != "" then Some("Bearer " + storage[TokenKey]) else None
  }

  /**
   * The message a failed call throws: a declined response's `error`, or
   * `declined` when it has none; for a thrown error the response's `error`,
   * then the error's message, then `fallback`.
   */
  function FailureMessage<T>(o: Outcome<T>, declined: string, fallback: string): (m: string)
    requires !o.Succeeded?
    ensures declined != "" && fallback != "" ==> m != ""
    ensures o.Declined? ==> m == (if o.error != "" then o.error else declined)
    ensures o.Threw? && o.thrown.responseError != "" ==> m == o.thrown.responseError
    ensures o.Threw? && o.thrown.responseError == "" && o.thrown.message != "" ==> m == o.thrown.message
  {
    match o
    case Declined(e) => if e != "" then e else declined
    case Threw(t) => if t.responseError != "" then t.responseError else if t.message != "" then t.message else fallback
  }

  /**
   * The pages show a failed call's message, or their own fallback when it is
   * empty; the provider never throws an empty message, so the pages'
   * fallbacks never show after a failed login or registration.
   */
  lemma PageFallbackUnreachable<T>(o: Outcome<T>, pageFallback: string)
    requires !o.Succeeded?
    ensures var m := FailureMessage(o, "Login failed", "Login failed. Please try again.");
      (if m != "" then m else pageFallback) == m
    ensures var m := FailureMessage(o, "Registration failed", "Registration failed. Please try again.");
      (if m != "" then m else pageFallback) == m
  {
  }


  /** Clearing after storing leaves what clearing alone leaves. */
  lemma StoreThenClear(storage: map<string, string>, t: AuthTokens)
    ensures WithoutTokens(WithTokens(storage, t)) == WithoutTokens(storage)
  {
  }

  // ---------------------------------------------------------------------------
  // What a refresh and an intercepted call do, as functions of the state

  /** The provider holding `s`, its tokens stored. */
  function Installed(st: State, s: Session): (r: State)
    ensures r.user == Some(s.user) && r.tokens == Some(s.tokens)
    ensures s.tokens.accessToken != "" && s.tokens.refreshToken != "" ==>
      StoredTokens(r.storage) == Some(AuthTokens(s.tokens.accessToken, s.tokens.refreshToken, StoredExpiresIn))
  {
    StoreThenGet(st.storage, s.tokens);
    State(Some(s.user), Some(s.tokens), WithTokens(st.storage, s.tokens))
  }

  /** The provider after `clearTokens`, `setTokens(null)` and `setUser(null)`. */
  function SignedOut(st: State): (r: State)
    ensures r.user.None? && r.tokens.None? && StoredTokens(r.storage).None?
  {
    ClearThenGet(st.storage);
    State(None, None, WithoutTokens(st.storage))
  }

  /** Signing out forgets whatever was installed before. */
  lemma SignOutAbsorbs(st: State, s: Session)
    ensures SignedOut(Installed(st, s)) == SignedOut(st)
  {
  }

  /** Signing out twice is signing out once. */
  lemma SignedOutTwice(st: State)
    ensures SignedOut(SignedOut(st)) == SignedOut(st)
  {
  }

  /**
   * Where `refreshToken` ends, given the tokens stored when it starts and
   * how the server answers the refresh call: with nothing stored it throws
   * at once; a 401 answer re-enters the interceptor and never settles; a
   * success returns; any other answer is rethrown.
   */
  function RefreshEnding(stored: Option<AuthTokens>, refresh: Outcome<Session>): (e: Ending)
    ensures e.Hanging? <==> stored.Some? && IsUnauthorized(refresh)
    ensures e.Returned? <==> stored.Some? && refresh.Succeeded?
    ensures stored.None? ==> e == Raised(PlainError("No refresh token available"))
    ensures stored.Some? && refresh.Declined? ==>
      e == Raised(PlainError(if refresh.error != "" then refresh.error else "Token refresh failed"))
    ensures stored.Some? && refresh.Threw? && !IsUnauthorized(refresh) ==> e == Raised(refresh.thrown)
  {
    if stored.None? then Raised(PlainError("No refresh token available"))
    else match refresh
      case Succeeded(_) => Returned
      case Declined(e) => Raised(PlainError(if e != "" then e else "Token refresh failed"))
      case Threw(t) => if t.status == 401 then Hanging else Raised(t)
  }

  /** The state `refreshToken` leaves: untouched while pending, the new session on success, signed out otherwise. */
  function AfterRefresh(st: State, refresh: Outcome<Session>): (r: State)
  {
    match RefreshEnding(StoredTokens(st.storage), refresh)
    case Hanging => st
    case Returned => Installed(st, refresh.value)
    case Raised(_) => SignedOut(st)
  }

  /** What the 401 interceptor does with a failed response. */
  datatype Reaction = RetryWith(authorization: string) | RejectOriginal | RejectWith(error: Thrown) | KeepWaiting

  /**
   * The interceptor's reaction to a 401 on a request not yet retried: wait
   * while the refresh is pending, reject with the refresh error when it
   * throws, and otherwise retry with the access token now stored, or reject
   * with the original error when none is.
   */
  function InterceptorReaction(st: State, refresh: Outcome<Session>): (r: Reaction)
  {
    match RefreshEnding(StoredTokens(st.storage), refresh)
    case Hanging => KeepWaiting
    case Raised(e) => RejectWith(e)
    case Returned =>
      var header := Authorization(AfterRefresh(st, refresh).storage);
      if header.Some? then RetryWith(header.value) else RejectOriginal
  }

  /**
   * How a call through the interceptor settles: an answer other than a 401
   * as it is; a 401 as the retry's answer, the original error, the refresh
   * error, or never.
   */
  function Settles<T>(st: State, answer: Outcome<T>, retry: Outcome<T>, refresh: Outcome<Session>): (s: Settlement<T>)
    ensures !IsUnauthorized(answer) ==> s == Settled(answer)
  {
    if !IsUnauthorized(answer) then Settled(answer)
    else match InterceptorReaction(st, refresh)
      case RetryWith(_) => Settled(retry)
      case RejectOriginal => Settled(answer)
      case RejectWith(e) => Settled(Threw(e))
      case KeepWaiting => Pending
  }

  /** The state a call through the interceptor leaves: a 401 runs one refresh. */
  function AfterCall<T>(st: State, answer: Outcome<T>, refresh: Outcome<Session>): (r: State)
  {
    if IsUnauthorized(answer) then AfterRefresh(st, refresh) else st
  }

  /**
   * The retry carries the refreshed access token: the interceptor retries
   * exactly when the refresh succeeded with a non-empty access token, and
   * then with that token as the bearer.
   */
  lemma RetryUsesRefreshedToken(st: State, refresh: Outcome<Session>)
    ensures InterceptorReaction(st, refresh).RetryWith? <==>
      StoredTokens(st.storage).Some? && refresh.Succeeded? && refresh.value.tokens.accessToken != ""
    ensures InterceptorReaction(st, refresh).RetryWith? ==>
      InterceptorReaction(st, refresh).authorization == "Bearer " + refresh.value.tokens.accessToken
  {
  }

  /** A refresh that throws leaves nobody signed in and nothing stored. */
  lemma FailedRefreshSignsOut(st: State, refresh: Outcome<Session>)
    requires RefreshEnding(StoredTokens(st.storage), refresh).Raised?
    ensures InterceptorReaction(st, refresh) == RejectWith(RefreshEnding(StoredTokens(st.storage), refresh).error)
    ensures AfterRefresh(st, refresh).user.None? && AfterRefresh(st, refresh).tokens.None?
    ensures StoredTokens(AfterRefresh(st, refresh).storage).None?
  {
  }

  /**
   * With tokens stored, a refresh the server answers with 401 never
   * settles, and neither does any call answered with 401: nothing changes
   * while they wait.
   */
  lemma RejectedRefreshNeverSettles<T>(st: State, answer: Outcome<T>, retry: Outcome<T>, refresh: Outcome<Session>)
    requires StoredTokens(st.storage).Some? && IsUnauthorized(refresh)
    ensures IsUnauthorized(answer) ==> Settles(st, answer, retry, refresh) == Pending
    ensures AfterCall(st, answer, refresh) == st
  {
  }

  /**
   * With nothing stored, any call answered with 401 (a wrong password at
   * login among them) fails with the refresh error, not the server's, and
   * leaves nobody signed in.
   */
  lemma UnauthorizedWithoutTokens<T>(st: State, answer: Outcome<T>, retry: Outcome<T>, refresh: Outcome<Session>)
    requires StoredTokens(st.storage).None? && IsUnauthorized(answer)
    ensures Settles(st, answer, retry, refresh) == Settled(Threw(PlainError("No refresh token available")))
    ensures FailureMessage(Settles(st, answer, retry, refresh).outcome, "Login failed", "Login failed. Please try again.")
      == "No refresh token available"
    ensures AfterCall(st, answer, refresh) == SignedOut(st)
  {
  }

  /** Whatever a call did to the state, signing out afterwards leaves what signing out at once leaves. */
  lemma SignedOutAfterCall<T>(st: State, answer: Outcome<T>, refresh: Outcome<Session>)
    ensures SignedOut(AfterCall(st, answer, refresh)) == SignedOut(st)
  {
  }

  /** A request in flight; `retry` is the `_retry` flag the interceptor sets on it. */
  class Request {
    var retry: bool

    constructor()
      ensures !retry
    {
      retry := false;
    }
  }

  class AuthProvider {
    var user: Option<AuthUser>
    var tokens: Option<AuthTokens>
    var isLoading: bool
    /** The browser's key/value storage. */
    var storage: map<string, string>

    constructor(initialStorage: map<string, string>)
      ensures user == None && tokens == None && isLoading && storage == initialStorage
    {
      user := None;
      tokens := None;
      isLoading := true;
      storage := initialStorage;
    }

    function Now(): State
      reads this
    {
      State(user, tokens, storage)
    }

    /** `isAuthenticated`: a user and tokens are both held. */
    predicate IsAuthenticated()
      reads this
    {
      user.Some? && tokens.Some?
    }

    method StoreTokens(t: AuthTokens)
      modifies this
      ensures storage == WithTokens(old(storage), t)
      ensures user == old(user) && tokens == old(tokens) && isLoading == old(isLoading)
    {
      storage := storage[TokenKey := t.accessToken];
      storage := storage[RefreshTokenKey := t.refreshToken];
    }

    method ClearTokens()
      modifies this
      ensures storage == WithoutTokens(old(storage))
      ensures user == old(user) && tokens == old(tokens) && isLoading == old(isLoading)
    {
      storage := storage - {TokenKey};
      storage := storage - {RefreshTokenKey};
    }

    /**
     * The mount effect: with stored tokens, hold them and ask for the
     * profile; a successful answer sets the user, any other clears the
     * tokens. Without stored tokens nothing changes. Loading ends either way.
     * The profile call is made before the response interceptor is installed,
     * so a 401 here is not refreshed.
     */
    method InitializeAuth(profile: Outcome<AuthUser>)
      modifies this
      ensures !isLoading
      ensures StoredTokens(old(storage)).None? ==>
        user == old(user) && tokens == old(tokens) && storage == old(storage)
      ensures StoredTokens(old(storage)).Some? && profile.Succeeded? ==>
        user == Some(profile.value) && tokens == StoredTokens(old(storage)) && storage == old(storage)
      ensures StoredTokens(old(storage)).Some? && !profile.Succeeded? ==>
        user == old(user) && tokens == None && storage == WithoutTokens(old(storage))
    {
      var stored := StoredTokens(storage);
      if stored.Some? {
        tokens := stored;
        if profile.Succeeded? {
          user := Some(profile.value);
        } else {
          ClearTokens();
          tokens := None;
        }
      }
      isLoading := false;
    }

    /**
     * A call through the response interceptor: an answer other than a 401
     * passes through; a 401 goes to `OnResponseError` on a fresh request.
     */
    method Call<T>(answer: Outcome<T>, retry: Outcome<T>, refresh: Outcome<Session>, rounds: nat)
      returns (s: Settlement<T>)
      modifies this
      decreases rounds, 2
      ensures s == Settles(old(Now()), answer, retry, refresh)
      ensures Now() == AfterCall(old(Now()), answer, refresh)
      ensures isLoading == old(isLoading)
    {
      if !IsUnauthorized(answer) {
        return Settled(answer);
      }
      var request := new Request();
      var _, reaction := OnResponseError(request, answer.thrown.status, refresh, rounds);
      match reaction {
        case RetryWith(_) => s := Settled(retry);
        case RejectOriginal => s := Settled(answer);
        case RejectWith(e) => s := Settled(Threw(e));
        case KeepWaiting => s := Pending;
      }
    }

    /**
     * The response interceptor. A 401 on a request not yet retried marks the
     * request and refreshes: while the refresh is pending it waits; when the
     * refresh throws it logs out (its `logout` is the one from the first
     * render, which holds no tokens and so makes no call) and rejects with
     * the refresh error; otherwise it retries with the stored access token,
     * or rejects with the original error when none is stored. Anything else
     * rejects with the original error and changes nothing.
     */
    method OnResponseError(request: Request, status: int, refresh: Outcome<Session>, rounds: nat)
      returns (refreshed: bool, reaction: Reaction)
      modifies this, request
      decreases rounds, 1
      ensures refreshed <==> status == 401 && !old(request.retry)
      ensures request.retry == (old(request.retry) || refreshed)
      ensures !refreshed ==> reaction == RejectOriginal && Now() == old(Now())
      ensures refreshed ==> reaction == InterceptorReaction(old(Now()), refresh)
      ensures refreshed ==> Now() == AfterRefresh(old(Now()), refresh)
      ensures isLoading == old(isLoading)
    {
      if status == 401 && !request.retry {
        request.retry := true;
        refreshed := true;
        var _, ending := RefreshToken(refresh, rounds);
        match ending {
          case Hanging =>
            reaction := KeepWaiting;
          case Raised(e) =>
            user := None;
            tokens := None;
            ClearTokens();
            SignedOutTwice(old(Now()));
            reaction := RejectWith(e);
          case Returned =>
            var header := Authorization(storage);
            reaction := if header.Some? then RetryWith(header.value) else RejectOriginal;
        }
      } else {
        refreshed := false;
        reaction := RejectOriginal;
      }
    }

    /**
     * `refreshToken`: sends the stored refresh token, if there is one, in a
     * call that itself goes through the interceptor. A success installs the
     * new session; no stored tokens, a declined answer or a thrown error
     * clear the stored tokens, the tokens and the user, and the error is
     * rethrown; a 401 answer re-enters the interceptor and never settles.
     */
    method RefreshToken(refresh: Outcome<Session>, rounds: nat) returns (sentToken: Option<string>, ending: Ending)
      modifies this
      decreases rounds, 0
      ensures StoredTokens(old(storage)).None? ==> sentToken == None
      ensures StoredTokens(old(storage)).Some? ==> sentToken == Some(old(storage)[RefreshTokenKey])
      ensures ending == RefreshEnding(StoredTokens(old(storage)), refresh)
      ensures Now() == AfterRefresh(old(Now()), refresh)
      ensures isLoading == old(isLoading)
    {
      var current := StoredTokens(storage);
      if current.None? {
        ClearTokens();
        tokens := None;
        user := None;
        return None, Raised(PlainError("No refresh token available"));
      }
      sentToken := Some(current.value.refreshToken);
      var answer: Settlement<Session> := Settled(refresh);
      if IsUnauthorized(refresh) {
        if rounds == 0 {
          answer := Pending;
        } else {
          answer := Call(refresh, refresh, refresh, rounds - 1);
        }
      }
      match answer {
        case Pending =>
          ending := Hanging;
        case Settled(Succeeded(session)) =>
          user := Some(session.user);
          tokens := Some(session.tokens);
          StoreTokens(session.tokens);
          ending := Returned;
        case Settled(Declined(e)) =>
          ClearTokens();
          tokens := None;
          user := None;
          ending := Raised(PlainError(if e != "" then e else "Token refresh failed"));
        case Settled(Threw(t)) =>
          ClearTokens();
          tokens := None;
          user := None;
          ending := Raised(t);
      }
    }

    /**
     * The shared body of `login` and `register`: loading starts, the call
     * goes through the interceptor, and loading ends once it settles.
     */
    method SignIn(answer: Outcome<Session>, retry: Outcome<Session>, refresh: Outcome<Session>, rounds: nat,
                  declined: string, fallback: string)
      returns (ending: Ending)
      requires declined != "" && fallback != ""
      modifies this
      ensures var s := Settles(old(Now()), answer, retry, refresh);
        && (ending.Hanging? <==> s.Pending?)
        && (ending.Returned? <==> s.Settled? && s.outcome.Succeeded?)
        && (ending.Hanging? ==> isLoading && Now() == old(Now()))
        && (ending.Returned? ==> !isLoading && Now() == Installed(AfterCall(old(Now()), answer, refresh), s.outcome.value))
        && (ending.Raised? ==>
              && !isLoading && Now() == AfterCall(old(Now()), answer, refresh)
              && ending.error == PlainError(FailureMessage(s.outcome, declined, fallback)) && ending.error.message != "")
    {
      isLoading := true;
      var s := Call(answer, retry, refresh, rounds);
      match s {
        case Pending =>
          return Hanging;
        case Settled(Succeeded(session)) =>
          user := Some(session.user);
          tokens := Some(session.tokens);
          StoreTokens(session.tokens);
          ending := Returned;
        case Settled(o) =>
          ending := Raised(PlainError(FailureMessage(o, declined, fallback)));
      }
      isLoading := false;
    }

    /**
     * `login`. Without an interceptor round a success holds the user and the
     * tokens and a failure reports the server's message; but a 401 (a wrong
     * password) is first handed to the interceptor, so with nothing stored
     * the login fails with the refresh error and leaves nobody signed in.
     */
    method Login(answer: Outcome<Session>, retry: Outcome<Session>, refresh: Outcome<Session>, rounds: nat)
      returns (ending: Ending)
      modifies this
      ensures !IsUnauthorized(answer) ==>
        && (ending.Returned? <==> answer.Succeeded?)
        && (answer.Succeeded? ==> IsAuthenticated() && storage == WithTokens(old(storage), answer.value.tokens))
        && (!answer.Succeeded? ==>
              && ending == Raised(PlainError(FailureMessage(answer, "Login failed", "Login failed. Please try again.")))
              && Now() == old(Now()))
      ensures IsUnauthorized(answer) && StoredTokens(old(storage)).None? ==>
        ending == Raised(PlainError("No refresh token available")) && Now() == SignedOut(old(Now()))
      ensures !IsUnauthorized(answer) && answer.Succeeded? ==> Now() == Installed(old(Now()), answer.value)
      ensures ending.Hanging? <==> IsUnauthorized(answer) && StoredTokens(old(storage)).Some? && IsUnauthorized(refresh)
      ensures ending.Hanging? ==> isLoading && Now() == old(Now())
      ensures !ending.Hanging? ==> !isLoading
      ensures var s := Settles(old(Now()), answer, retry, refresh);
        && (ending.Returned? <==> s.Settled? && s.outcome.Succeeded?)
        && (ending.Returned? ==>
              IsAuthenticated() && Now() == Installed(AfterCall(old(Now()), answer, refresh), s.outcome.value))
        && (ending.Raised? ==>
              && s.Settled? && Now() == AfterCall(old(Now()), answer, refresh)
              && ending.error == PlainError(FailureMessage(s.outcome, "Login failed", "Login failed. Please try again.")) && ending.error.message != "")
    {
      ending := SignIn(answer, retry, refresh, rounds, "Login failed", "Login failed. Please try again.");
      if IsUnauthorized(answer) && StoredTokens(old(storage)).None? {
        UnauthorizedWithoutTokens(old(Now()), answer, retry, refresh);
      }
    }

    /**
     * `register`: as `login`, with the registration messages. A 401 on the
     * registration call is handed to the interceptor in the same way.
     */
    method Register(answer: Outcome<Session>, retry: Outcome<Session>, refresh: Outcome<Session>, rounds: nat)
      returns (ending: Ending)
      modifies this
      ensures !IsUnauthorized(answer) ==>
        && (ending.Returned? <==> answer.Succeeded?)
        && (answer.Succeeded? ==> IsAuthenticated() && storage == WithTokens(old(storage), answer.value.tokens))
        && (!answer.Succeeded? ==>
              && ending == Raised(PlainError(FailureMessage(answer, "Registration failed", "Registration failed. Please try again.")))
              && Now() == old(Now()))
      ensures !IsUnauthorized(answer) && answer.Succeeded? ==> Now() == Installed(old(Now()), answer.value)
      ensures IsUnauthorized(answer) && StoredTokens(old(storage)).None? ==>
        ending == Raised(PlainError("No refresh token available")) && Now() == SignedOut(old(Now()))
      ensures ending.Hanging? <==> IsUnauthorized(answer) && StoredTokens(old(storage)).Some? && IsUnauthorized(refresh)
      ensures ending.Hanging? ==> isLoading && Now() == old(Now())
      ensures !ending.Hanging? ==> !isLoading
      ensures var s := Settles(old(Now()), answer, retry, refresh);
        && (ending.Returned? <==> s.Settled? && s.outcome.Succeeded?)
        && (ending.Returned? ==>
              IsAuthenticated() && Now() == Installed(AfterCall(old(Now()), answer, refresh), s.outcome.value))
        && (ending.Raised? ==>
              && s.Settled? && Now() == AfterCall(old(Now()), answer, refresh)
              && ending.error == PlainError(FailureMessage(s.outcome, "Registration failed", "Registration failed. Please try again.")) && ending.error.message != "")
    {
      ending := SignIn(answer, retry, refresh, rounds, "Registration failed", "Registration failed. Please try again.");
      if IsUnauthorized(answer) && StoredTokens(old(storage)).None? {
        UnauthorizedWithoutTokens(old(Now()), answer, retry, refresh);
      }
    }

    /**
     * `logout`: the logout call is made only while tokens are held; once it
     * settles, however it settles, the user, the tokens and the stored
     * tokens are gone. A call that never settles leaves everything as it was.
     */
    method Logout(answer: Outcome<()>, retry: Outcome<()>, refresh: Outcome<Session>, rounds: nat)
      returns (posted: bool, finished: bool)
      modifies this
      ensures posted <==> old(tokens).Some?
      ensures finished <==> !(posted && Settles(old(Now()), answer, retry, refresh).Pending?)
      ensures finished ==> Now() == SignedOut(old(Now())) && !IsAuthenticated() && StoredTokens(storage).None?
      ensures !finished ==> Now() == old(Now())
      ensures isLoading == old(isLoading)
    {
      posted := tokens.Some?;
      if posted {
        var s := Call(answer, retry, refresh, rounds);
        if s.Pending? {
          return posted, false;
        }
        SignedOutAfterCall(old(Now()), answer, refresh);
      }
      user := None;
      tokens := None;
      ClearTokens();
      finished := true;
    }

    /** `updateProfile`: a success replaces the user; loading is untouched. */
    method UpdateProfile(answer: Outcome<AuthUser>, retry: Outcome<AuthUser>, refresh: Outcome<Session>, rounds: nat)
      returns (ending: Ending)
      modifies this
      ensures var s := Settles(old(Now()), answer, retry, refresh);
        && (ending.Hanging? <==> s.Pending?)
        && (ending.Returned? <==> s.Settled? && s.outcome.Succeeded?)
        && (ending.Hanging? ==> Now() == old(Now()))
        && (ending.Returned? ==> Now() == AfterCall(old(Now()), answer, refresh).(user := Some(s.outcome.value)))
        && (ending.Raised? ==>
              && Now() == AfterCall(old(Now()), answer, refresh)
              && ending.error == PlainError(FailureMessage(s.outcome, "Profile update failed", "Profile update failed. Please try again.")))
      ensures !IsUnauthorized(answer) && answer.Succeeded? ==>
        user == Some(answer.value) && tokens == old(tokens) && storage == old(storage)
      ensures isLoading == old(isLoading)
    {
      var s := Call(answer, retry, refresh, rounds);
      match s {
        case Pending =>
          ending := Hanging;
        case Settled(Succeeded(u)) =>
          user := Some(u);
          ending := Returned;
        case Settled(o) =>
          ending := Raised(PlainError(FailureMessage(o, "Profile update failed", "Profile update failed. Please try again.")));
      }
    }

    /** However a request fails twice in a row, the second failure never refreshes again. */
    method RefreshAtMostOncePerRequest(request: Request, first: Outcome<Session>, second: Outcome<Session>, rounds: nat)
      returns (refreshes: nat)
      modifies this, request
      ensures refreshes <= 1
      ensures refreshes == 1 <==> !old(request.retry)
    {
      var r1, _ := OnResponseError(request, 401, first, rounds);
      var r2, _ := OnResponseError(request, 401, second, rounds);
      refreshes := (if r1 then 1 else 0) + (if r2 then 1 else 0);
    }
  }
}
