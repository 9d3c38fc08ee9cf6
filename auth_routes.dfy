/**
 * The server's authentication routes over an abstract user table: token
 * generation, registration, login, refresh, reading and updating the
 * profile, and logout. Password hashing and comparison are uninterpreted
 * functions; a JSON web token is its signed payload together with the secret
 * it was signed with; the clock and the fresh row id are parameters.
 */
module AuthRoutes {
  import opened Wrappers
  import opened Domain
  import Schemas

  // ---------------------------------------------------------------------------
  // Configuration and tokens

  /** The four settings read from the environment. */
  datatype JwtConfig = JwtConfig(accessSecret: string, refreshSecret: string, accessExpiresIn: string, refreshExpiresIn: string)

  /** `process.env.X || fallback`. */
  function EnvOr(env: map<string, string>, key: string, fallback: string): (v: string)
    ensures key in env && env[key] != "" ==> v == env[key]
    ensures !(key in env && env[key] != "") ==> v == fallback
  {
    if key in env && env[key] != "" then env[key] else fallback
  }

  function ConfigFrom(env: map<string, string>): (c: JwtConfig)
    ensures c.accessSecret == EnvOr(env, "JWT_SECRET", "fallback-secret")
    ensures c.refreshSecret == EnvOr(env, "JWT_REFRESH_SECRET", "fallback-refresh-secret")
    ensures c.accessExpiresIn == EnvOr(env, "JWT_EXPIRES_IN", "15m")
    ensures c.refreshExpiresIn == EnvOr(env, "JWT_REFRESH_EXPIRES_IN", "7d")
  {
    JwtConfig(
      EnvOr(env, "JWT_SECRET", "fallback-secret"),
      EnvOr(env, "JWT_REFRESH_SECRET", "fallback-refresh-secret"),
      EnvOr(env, "JWT_EXPIRES_IN", "15m"),
      EnvOr(env, "JWT_REFRESH_EXPIRES_IN", "7d"))
  }

  /** Without the environment, the two secrets differ. */
  lemma FallbackSecretsDiffer()
    ensures ConfigFrom(map[]).accessSecret != ConfigFrom(map[]).refreshSecret
  {
    assert ConfigFrom(map[]).accessSecret[9] != ConfigFrom(map[]).refreshSecret[9];
  }

  datatype TokenKind = Access | Refresh

  /** A signed token: its payload, the secret it was signed with and its lifetime. */
  datatype Token = Token(userId: string, email: string, kind: TokenKind, secret: string, expiresIn: string)

  datatype TokenPair = TokenPair(accessToken: Token, refreshToken: Token)

  /** `generateTokens`: an access token under the access secret and a refresh token under the refresh secret. */
  function GenerateTokens(cfg: JwtConfig, userId: string, email: string): (p: TokenPair)
    ensures p.accessToken == Token(userId, email, Access, cfg.accessSecret, cfg.accessExpiresIn)
    ensures p.refreshToken == Token(userId, email, Refresh, cfg.refreshSecret, cfg.refreshExpiresIn)
  {
    TokenPair(
      Token(userId, email, Access, cfg.accessSecret, cfg.accessExpiresIn),
      Token(userId, email, Refresh, cfg.refreshSecret, cfg.refreshExpiresIn))
  }

  /** `jwt.verify` against one secret; whether the token has expired is a fact about the clock. */
  datatype Verified = Decoded(payload: Token) | BadSignature | TokenExpired

  function Verify(t: Token, secret: string, expired: bool): (v: Verified)
    ensures v.Decoded? <==> t.secret == secret && !expired
    ensures v.Decoded? ==> v.payload == t
  {
    if t.secret != secret then BadSignature
    else if expired then TokenExpired
    else Decoded(t)
  }

  /** The uninterpreted password functions: `bcrypt.hash(password, rounds)` and `bcrypt.compare(password, hash)`. */
  datatype Crypto = Crypto(hash: (string, nat) -> string, compare: (string, string) -> bool)

  const SaltRounds := 12

  // ---------------------------------------------------------------------------
  // Rows and responses

  datatype UserRow = UserRow(
    id: string,
    email: string,
    passwordHash: string,
    firstName: Option<string>,
    lastName: Option<string>,
    bio: Option<string>,
    currentRole: Option<string>,
    location: Option<string>,
    linkedinProfile: Option<string>,
    portfolioUrl: Option<string>,
    experienceLevel: string,
    subscriptionStatus: string,
    createdAt: int,
    updatedAt: int,
    lastActive: int)

  /** The columns of the user table a `select` can name. */
  datatype Column =
    | Id | Email | PasswordHash | FirstName | LastName | Bio | CurrentRole | Location
    | LinkedinProfile | PortfolioUrl | ExperienceLevel | SubscriptionStatus | CreatedAt | UpdatedAt | LastActive

  /** A JSON value a column is sent as: a string, `null`, or a date. */
  datatype Value = Str(s: string) | Null | Date(t: int)

  function OptText(o: Option<string>): Value
  {
    if o.Some? then Str(o.value) else Null
  }

  /** The value of one column of a row. */
  function Cell(r: UserRow, c: Column): Value
  {
    match c
    case Id => Str(r.id)
    case Email => Str(r.email)
    case PasswordHash => Str(r.passwordHash)
    case FirstName => OptText(r.firstName)
    case LastName => OptText(r.lastName)
    case Bio => OptText(r.bio)
    case CurrentRole => OptText(r.currentRole)
    case Location => OptText(r.location)
    case LinkedinProfile => OptText(r.linkedinProfile)
    case PortfolioUrl => OptText(r.portfolioUrl)
    case ExperienceLevel => Str(r.experienceLevel)
    case SubscriptionStatus => Str(r.subscriptionStatus)
    case CreatedAt => Date(r.createdAt)
    case UpdatedAt => Date(r.updatedAt)
    case LastActive => Date(r.lastActive)
  }

  /** A user object as a route sends it: the selected columns and their values. */
  type UserJson = map<Column, Value>

  /** A Prisma `select`: exactly the named columns of the row. */
  function Select(r: UserRow, cols: set<Column>): (v: UserJson)
    ensures v.Keys == cols
    ensures forall c :: c in v ==> v[c] == Cell(r, c)
  {
    map c | c in cols :: Cell(r, c)
  }

  const AllColumns: set<Column> :=
    {Id, Email, PasswordHash, FirstName, LastName, Bio, CurrentRole, Location, LinkedinProfile,
     PortfolioUrl, ExperienceLevel, SubscriptionStatus, CreatedAt, UpdatedAt, LastActive}
  const RegisterColumns: set<Column> := {Id, Email, FirstName, LastName, ExperienceLevel, SubscriptionStatus, CreatedAt}
  const LoginColumns: set<Column> := RegisterColumns + {PasswordHash}
  const RefreshColumns: set<Column> := RegisterColumns - {CreatedAt}
  const ProfileColumns: set<Column> := AllColumns - {PasswordHash}
  const UpdatedColumns: set<Column> := ProfileColumns - {CreatedAt, LastActive}

  lemma AllColumnsListed(c: Column)
    ensures c in AllColumns
  {
    match c
    case Id =>
    case Email =>
    case PasswordHash =>
    case FirstName =>
    case LastName =>
    case Bio =>
    case CurrentRole =>
    case Location =>
    case LinkedinProfile =>
    case PortfolioUrl =>
    case ExperienceLevel =>
    case SubscriptionStatus =>
    case CreatedAt =>
    case UpdatedAt =>
    case LastActive =>
  }

  /** The user object of the register answer: the created row's summary columns, with `createdAt` and no hash. */
  function RegisterView(r: UserRow): (v: UserJson)
    ensures PasswordHash !in v && Bio !in v && LastActive !in v
    ensures Id in v && Email in v && CreatedAt in v
    ensures v[Id] == Str(r.id) && v[Email] == Str(r.email) && v[CreatedAt] == Date(r.createdAt)
  {
    Select(r, RegisterColumns)
  }

  /**
   * The user object of the login answer: the login lookup selects the hash
   * too and the route strips it before answering, which leaves exactly the
   * register answer's columns.
   */
  function LoginView(r: UserRow): (v: UserJson)
    ensures PasswordHash !in v
    ensures v == RegisterView(r)
  {
    Select(r, LoginColumns) - {PasswordHash}
  }

  /** The user object of the refresh answer: the register answer's columns without `createdAt`. */
  function RefreshView(r: UserRow): (v: UserJson)
    ensures v.Keys == RegisterView(r).Keys - {CreatedAt}
    ensures forall c :: c in v ==> v[c] == RegisterView(r)[c]
  {
    Select(r, RefreshColumns)
  }

  /** The user object of GET /profile: every column of the row but the hash. */
  function ProfileView(r: UserRow): (v: UserJson)
    ensures forall c :: c in v <==> c != PasswordHash
    ensures forall c :: c in v ==> v[c] == Cell(r, c)
  {
    forall c: Column
      ensures c in AllColumns
    {
      AllColumnsListed(c);
    }
    Select(r, ProfileColumns)
  }

  /** The user object of PUT /profile: the profile columns without `createdAt` and `lastActive`. */
  function UpdatedView(r: UserRow): (v: UserJson)
    ensures v.Keys == ProfileView(r).Keys - {CreatedAt, LastActive}
    ensures forall c :: c in v ==> v[c] == ProfileView(r)[c]
  {
    Select(r, UpdatedColumns)
  }

  /** No route answer carries the password hash. */
  lemma NoAnswerCarriesTheHash(r: UserRow)
    ensures PasswordHash !in RegisterView(r) && PasswordHash !in LoginView(r) && PasswordHash !in RefreshView(r)
    ensures PasswordHash !in ProfileView(r) && PasswordHash !in UpdatedView(r)
  {
  }

  /**
   * The profile answer loses nothing but the hash: two rows with the same
   * profile answer differ at most in their hashes.
   */
  lemma ProfileViewDeterminesRow(a: UserRow, b: UserRow)
    requires ProfileView(a) == ProfileView(b)
    ensures a.(passwordHash := b.passwordHash) == b
  {
    var v := ProfileView(a);
    assert Str(a.id) == v[Id] == Str(b.id);
    assert Str(a.email) == v[Email] == Str(b.email);
    assert Str(a.experienceLevel) == v[ExperienceLevel] == Str(b.experienceLevel);
    assert Str(a.subscriptionStatus) == v[SubscriptionStatus] == Str(b.subscriptionStatus);
    assert Date(a.createdAt) == v[CreatedAt] == Date(b.createdAt);
    assert Date(a.updatedAt) == v[UpdatedAt] == Date(b.updatedAt);
    assert Date(a.lastActive) == v[LastActive] == Date(b.lastActive);
    OptTextInjective(a.firstName, b.firstName, v[FirstName]);
    OptTextInjective(a.lastName, b.lastName, v[LastName]);
    OptTextInjective(a.bio, b.bio, v[Bio]);
    OptTextInjective(a.currentRole, b.currentRole, v[CurrentRole]);
    OptTextInjective(a.location, b.location, v[Location]);
    OptTextInjective(a.linkedinProfile, b.linkedinProfile, v[LinkedinProfile]);
    OptTextInjective(a.portfolioUrl, b.portfolioUrl, v[PortfolioUrl]);
  }

  lemma OptTextInjective(x: Option<string>, y: Option<string>, v: Value)
    requires OptText(x) == v == OptText(y)
    ensures x == y
  {
  }

  datatype Body =
    | Failure(error: string)
    | SignedIn(message: string, user: UserJson, tokens: TokenPair, expiresIn: string)
    | UserData(message: string, user: UserJson)
    | Done(message: string)

  datatype Response = Response(status: nat, body: Body)

  const ValidationFailed := Response(400, Failure("Validation failed"))
  const InvalidCredentials := Response(401, Failure("Invalid email or password"))

  /** The row registration creates. */
  function NewRow(id: string, d: Schemas.Registration, crypto: Crypto, now: int): (r: UserRow)
    ensures r.id == id && r.email == d.email && r.subscriptionStatus == "FREE"
    ensures r.passwordHash == crypto.hash(d.password, SaltRounds)
    ensures r.firstName == Some(d.firstName) && r.lastName == Some(d.lastName)
    ensures r.experienceLevel == d.experienceLevel.Name()
  {
    UserRow(id, d.email, crypto.hash(d.password, SaltRounds), Some(d.firstName), Some(d.lastName),
            None, None, None, None, None, d.experienceLevel.Name(), "FREE", now, now, now)
  }

  /** `{...row, ...validatedData, updatedAt}`: each field the update carries replaces the stored one. */
  function ApplyUpdate(r: UserRow, u: ProfileUpdate, now: int): (r': UserRow)
    ensures r'.id == r.id && r'.email == r.email && r'.passwordHash == r.passwordHash
    ensures r'.experienceLevel == r.experienceLevel && r'.subscriptionStatus == r.subscriptionStatus
    ensures r'.createdAt == r.createdAt && r'.lastActive == r.lastActive && r'.updatedAt == now
    ensures r'.firstName == (if u.firstName.Some? then u.firstName else r.firstName)
    ensures r'.lastName == (if u.lastName.Some? then u.lastName else r.lastName)
    ensures r'.bio == (if u.bio.Some? then u.bio else r.bio)
    ensures r'.currentRole == (if u.currentRole.Some? then u.currentRole else r.currentRole)
    ensures r'.location == (if u.location.Some? then u.location else r.location)
    ensures r'.linkedinProfile == (if u.linkedinProfile.Some? then u.linkedinProfile else r.linkedinProfile)
    ensures r'.portfolioUrl == (if u.portfolioUrl.Some? then u.portfolioUrl else r.portfolioUrl)
  {
    r.(firstName := if u.firstName.Some? then u.firstName else r.firstName,
       lastName := if u.lastName.Some? then u.lastName else r.lastName,
       bio := if u.bio.Some? then u.bio else r.bio,
       currentRole := if u.currentRole.Some? then u.currentRole else r.currentRole,
       location := if u.location.Some? then u.location else r.location,
       linkedinProfile := if u.linkedinProfile.Some? then u.linkedinProfile else r.linkedinProfile,
       portfolioUrl := if u.portfolioUrl.Some? then u.portfolioUrl else r.portfolioUrl,
       updatedAt := now)
  }

  /** An empty update only moves `updatedAt`; applying the same update twice is applying it once. */
  lemma ApplyUpdateLaws(r: UserRow, u: ProfileUpdate, now: int, later: int)
    ensures ApplyUpdate(r, ProfileUpdate(None, None, None, None, None, None, None), now) == r.(updatedAt := now)
    ensures ApplyUpdate(ApplyUpdate(r, u, now), u, later) == ApplyUpdate(r, u, later)
  {
  }

  /** What the refresh route answers, before any table access. */
  function RefreshCheck(cfg: JwtConfig, token: Option<Token>, expired: bool): (r: Result<Token, string>)
    ensures token.None? ==> r == Err("Refresh token is required")
    ensures token.Some? && (token.value.secret != cfg.refreshSecret || expired) ==>
      r == Err("Invalid or expired refresh token")
    ensures token.Some? && token.value.secret == cfg.refreshSecret && !expired && token.value.kind != Refresh ==>
      r == Err("Invalid token type")
    ensures r.Ok? <==> token.Some? && token.value.secret == cfg.refreshSecret && !expired && token.value.kind == Refresh
    ensures r.Ok? ==> r.value == token.value
  {
    if token.None? then Err("Refresh token is required")
    else match Verify(token.value, cfg.refreshSecret, expired)
      case BadSignature => Err("Invalid or expired refresh token")
      case TokenExpired => Err("Invalid or expired refresh token")
      case Decoded(payload) =>
        if payload.kind != Refresh then Err("Invalid token type") else Ok(payload)
  }

  /**
   * An access token is never accepted for a refresh: with distinct secrets
   * its signature fails, and with equal secrets its type does.
   */
  lemma AccessTokenNeverRefreshes(cfg: JwtConfig, userId: string, email: string, expired: bool)
    ensures RefreshCheck(cfg, Some(GenerateTokens(cfg, userId, email).accessToken), expired).Err?
    ensures cfg.accessSecret != cfg.refreshSecret ==>
      RefreshCheck(cfg, Some(GenerateTokens(cfg, userId, email).accessToken), expired) == Err("Invalid or expired refresh token")
    ensures cfg.accessSecret == cfg.refreshSecret && !expired ==>
      RefreshCheck(cfg, Some(GenerateTokens(cfg, userId, email).accessToken), expired) == Err("Invalid token type")
  {
  }

  /** A refresh token that has not expired passes the check and names its user. */
  lemma FreshRefreshTokenPasses(cfg: JwtConfig, userId: string, email: string)
    ensures RefreshCheck(cfg, Some(GenerateTokens(cfg, userId, email).refreshToken), false)
      == Ok(Token(userId, email, Refresh, cfg.refreshSecret, cfg.refreshExpiresIn))
  {
  }

  // ---------------------------------------------------------------------------
  // The user table and the handlers

  class AuthServer {
    /** The unique index on `email`: the id of the row holding each email. */
    var byEmail: map<string, string>
    /** The rows by id. */
    var rows: map<string, UserRow>
    const cfg: JwtConfig
    const crypto: Crypto

    /** Each email names the row that holds it, and each row is indexed under its own id and email. */
    predicate Valid()
      reads this
    {
      && (forall e :: e in byEmail ==> byEmail[e] in rows && rows[byEmail[e]].email == e)
      && (forall id :: id in rows ==> rows[id].id == id && rows[id].email in byEmail && byEmail[rows[id].email] == id)
    }

    constructor(cfg: JwtConfig, crypto: Crypto)
      ensures Valid() && rows == map[] && byEmail == map[]
      ensures this.cfg == cfg && this.crypto == crypto
    {
      this.cfg := cfg;
      this.crypto := crypto;
      byEmail := map[];
      rows := map[];
    }

    /** No two rows share an email. */
    lemma EmailsUnique()
      requires Valid()
      ensures forall a, b :: a in rows && b in rows && rows[a].email == rows[b].email ==> a == b
    {
    }

    /** The response a successful sign-in sends: `user`, and a new token pair for `id` and `email`. */
    function SignedInResponse(status: nat, message: string, user: UserJson, id: string, email: string): (r: Response)
      reads this
      ensures r.status == status && r.body.SignedIn? && r.body.user == user
      ensures r.body.tokens == GenerateTokens(cfg, id, email) && r.body.expiresIn == cfg.accessExpiresIn
    {
      Response(status, SignedIn(message, user, GenerateTokens(cfg, id, email), cfg.accessExpiresIn))
    }

    /**
     * POST /register. An invalid body is 400; a taken email is 400 and
     * changes nothing; otherwise exactly one row is added under `freshId`,
     * and the answer is 201 with the public row and a new token pair. A
     * `freshId` already in use makes the insert fail: 500.
     */
    method Register(fmt: Schemas.Formats, body: Schemas.RegistrationInput, freshId: string, now: int)
      returns (r: Response)
      requires Valid()
      modifies this
      ensures Valid()
      ensures Schemas.ParseRegistration(fmt, body).Err? ==>
        r == ValidationFailed && rows == old(rows) && byEmail == old(byEmail)
      ensures Schemas.ParseRegistration(fmt, body).Ok? && Schemas.ParseRegistration(fmt, body).value.email in old(byEmail) ==>
        r == Response(400, Failure("User with this email already exists")) && rows == old(rows) && byEmail == old(byEmail)
      ensures r.status == 201 <==>
        Schemas.ParseRegistration(fmt, body).Ok? && Schemas.ParseRegistration(fmt, body).value.email !in old(byEmail)
        && freshId !in old(rows)
      ensures r.status == 201 ==>
        var row := NewRow(freshId, Schemas.ParseRegistration(fmt, body).value, crypto, now);
        && rows == old(rows)[freshId := row] && byEmail == old(byEmail)[row.email := freshId]
        && |rows| == |old(rows)| + 1
        && r == SignedInResponse(201, "User registered successfully", RegisterView(row), freshId, row.email)
      ensures r.status != 201 ==> rows == old(rows) && byEmail == old(byEmail)
    {
      var parsed := Schemas.ParseRegistration(fmt, body);
      if parsed.Err? {
        return ValidationFailed;
      }
      var d := parsed.value;
      if d.email in byEmail {
        return Response(400, Failure("User with this email already exists"));
      }
      if freshId in rows {
        return Response(500, Failure("Internal server error during registration"));
      }
      var row := NewRow(freshId, d, crypto, now);
      rows := rows[freshId := row];
      byEmail := byEmail[d.email := freshId];
      r := SignedInResponse(201, "User registered successfully", RegisterView(row), freshId, row.email);
    }

    /**
     * POST /login. An invalid body is 400. An unknown email and a wrong
     * password give the same 401. Otherwise only that row's `lastActive`
     * changes, and the answer carries the row without its hash and a new
     * token pair.
     */
    method Login(fmt: Schemas.Formats, body: Schemas.LoginInput, now: int) returns (r: Response)
      requires Valid()
      modifies this
      ensures Valid() && byEmail == old(byEmail)
      ensures Schemas.ParseLogin(fmt, body).Err? ==> r == ValidationFailed && rows == old(rows)
      ensures Schemas.ParseLogin(fmt, body).Ok? ==>
        var c := Schemas.ParseLogin(fmt, body).value;
        && (c.email !in old(byEmail) ==> r == InvalidCredentials && rows == old(rows))
        && (c.email in old(byEmail) ==>
              var id := old(byEmail)[c.email];
              if !crypto.compare(c.password, old(rows)[id].passwordHash) then
                r == InvalidCredentials && rows == old(rows)
              else
                && rows == old(rows)[id := old(rows)[id].(lastActive := now)]
                && r == SignedInResponse(200, "Login successful", LoginView(old(rows)[id]), id, c.email))
    {
      var parsed := Schemas.ParseLogin(fmt, body);
      if parsed.Err? {
        return ValidationFailed;
      }
      var c := parsed.value;
      if c.email !in byEmail {
        return InvalidCredentials;
      }
      var id := byEmail[c.email];
      var row := rows[id];
      if !crypto.compare(c.password, row.passwordHash) {
        return InvalidCredentials;
      }
      rows := rows[id := row.(lastActive := now)];
      r := SignedInResponse(200, "Login successful", LoginView(row), row.id, row.email);
    }

    /**
     * POST /refresh. A missing, forged, expired or wrongly typed token is 401
     * with its own message, as is a token whose user is gone; otherwise a
     * new pair for the row's id and current email. The table never changes.
     */
    method Refresh(token: Option<Token>, expired: bool) returns (r: Response)
      requires Valid()
      ensures RefreshCheck(cfg, token, expired).Err? ==> r == Response(401, Failure(RefreshCheck(cfg, token, expired).error))
      ensures RefreshCheck(cfg, token, expired).Ok? && token.value.userId !in rows ==>
        r == Response(401, Failure("User not found"))
      ensures RefreshCheck(cfg, token, expired).Ok? && token.value.userId in rows ==>
        var row := rows[token.value.userId];
        r == SignedInResponse(200, "Tokens refreshed successfully", RefreshView(row), row.id, row.email)
    {
      var checked := RefreshCheck(cfg, token, expired);
      if checked.Err? {
        return Response(401, Failure(checked.error));
      }
      var userId := checked.value.userId;
      if userId !in rows {
        return Response(401, Failure("User not found"));
      }
      var row := rows[userId];
      r := SignedInResponse(200, "Tokens refreshed successfully", RefreshView(row), row.id, row.email);
    }

    /** GET /profile for the user the access token named: 404 when the row is gone. */
    method GetProfile(userId: string) returns (r: Response)
      requires Valid()
      ensures userId !in rows ==> r == Response(404, Failure("User not found"))
      ensures userId in rows ==> r == Response(200, UserData("", ProfileView(rows[userId])))
    {
      if userId !in rows {
        return Response(404, Failure("User not found"));
      }
      r := Response(200, UserData("", ProfileView(rows[userId])));
    }

    /**
     * PUT /profile. An invalid body is 400. Updating a row that is gone makes
     * the update throw: 500. Otherwise only the validated fields and
     * `updatedAt` of that one row change.
     */
    method UpdateProfile(fmt: Schemas.Formats, userId: string, body: Schemas.ProfileUpdateInput, now: int)
      returns (r: Response)
      requires Valid()
      modifies this
      ensures Valid() && byEmail == old(byEmail)
      ensures Schemas.ParseProfileUpdate(fmt, body).Err? ==> r == ValidationFailed && rows == old(rows)
      ensures Schemas.ParseProfileUpdate(fmt, body).Ok? && userId !in old(rows) ==>
        r == Response(500, Failure("Internal server error during profile update")) && rows == old(rows)
      ensures Schemas.ParseProfileUpdate(fmt, body).Ok? && userId in old(rows) ==>
        var row := ApplyUpdate(old(rows)[userId], Schemas.ParseProfileUpdate(fmt, body).value, now);
        rows == old(rows)[userId := row] && r == Response(200, UserData("Profile updated successfully", UpdatedView(row)))
    {
      var parsed := Schemas.ParseProfileUpdate(fmt, body);
      if parsed.Err? {
        return ValidationFailed;
      }
      if userId !in rows {
        return Response(500, Failure("Internal server error during profile update"));
      }
      var row := ApplyUpdate(rows[userId], parsed.value, now);
      rows := rows[userId := row];
      r := Response(200, UserData("Profile updated successfully", UpdatedView(row)));
    }

    /** POST /logout: stamps `lastActive`; a row that is gone makes the update throw: 500. */
    method Logout(userId: string, now: int) returns (r: Response)
      requires Valid()
      modifies this
      ensures Valid() && byEmail == old(byEmail)
      ensures userId !in old(rows) ==>
        r == Response(500, Failure("Internal server error during logout")) && rows == old(rows)
      ensures userId in old(rows) ==>
        rows == old(rows)[userId := old(rows)[userId].(lastActive := now)] && r == Response(200, Done("Logged out successfully"))
    {
      if userId !in rows {
        return Response(500, Failure("Internal server error during logout"));
      }
      rows := rows[userId := rows[userId].(lastActive := now)];
      r := Response(200, Done("Logged out successfully"));
    }
  }
}
