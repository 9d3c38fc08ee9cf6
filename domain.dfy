/**
 * Records and enumerations shared by the pages, the session context, the
 * schemas and the routes.
 */
module Domain {
  import opened Wrappers

  datatype ExperienceLevel = Beginner | Intermediate | Advanced | Expert {
    /** The enumeration's string value, as sent over the wire. */
    function Name(): string {
      match this
      case Beginner => "BEGINNER"
      case Intermediate => "INTERMEDIATE"
      case Advanced => "ADVANCED"
      case Expert => "EXPERT"
    }
  }

  /** `z.nativeEnum(ExperienceLevel)`: the level whose string value is `s`, if any. */
  function ParseExperienceLevel(s: string): (r: Option<ExperienceLevel>)
    ensures r.Some? ==> r.value.Name() == s
    ensures forall l: ExperienceLevel :: l.Name() == s ==> r == Some(l)
  {
    if s == "BEGINNER" then Some(Beginner)
    else if s == "INTERMEDIATE" then Some(Intermediate)
    else if s == "ADVANCED" then Some(Advanced)
    else if s == "EXPERT" then Some(Expert)
    else None
  }

  datatype SubscriptionStatus = Free | Basic | Premium | Enterprise

  datatype DifficultyLevel = DifficultyBeginner | DifficultyIntermediate | DifficultyAdvanced {
    function Name(): string {
      match this
      case DifficultyBeginner => "BEGINNER"
      case DifficultyIntermediate => "INTERMEDIATE"
      case DifficultyAdvanced => "ADVANCED"
    }
  }

  /** `z.nativeEnum(DifficultyLevel)`: the difficulty whose string value is `s`, if any. */
  function ParseDifficulty(s: string): (r: Option<DifficultyLevel>)
    ensures r.Some? <==> s in {"BEGINNER", "INTERMEDIATE", "ADVANCED"}
    ensures r.Some? ==> r.value.Name() == s
    ensures forall d: DifficultyLevel :: d.Name() == s ==> r == Some(d)
  {
    if s == "BEGINNER" then Some(DifficultyBeginner)
    else if s == "INTERMEDIATE" then Some(DifficultyIntermediate)
    else if s == "ADVANCED" then Some(DifficultyAdvanced)
    else None
  }

  datatype LessonType = Video | Text | Interactive | Quiz | Assignment | LiveSession {
    function Name(): string {
      match this
      case Video => "VIDEO"
      case Text => "TEXT"
      case Interactive => "INTERACTIVE"
      case Quiz => "QUIZ"
      case Assignment => "ASSIGNMENT"
      case LiveSession => "LIVE_SESSION"
    }
  }

  /** `z.nativeEnum(LessonType)`: the lesson type whose string value is `s`, if any. */
  function ParseLessonType(s: string): (r: Option<LessonType>)
    ensures r.Some? <==> s in {"VIDEO", "TEXT", "INTERACTIVE", "QUIZ", "ASSIGNMENT", "LIVE_SESSION"}
    ensures r.Some? ==> r.value.Name() == s
    ensures forall t: LessonType :: t.Name() == s ==> r == Some(t)
  {
    if s == "VIDEO" then Some(Video)
    else if s == "TEXT" then Some(Text)
    else if s == "INTERACTIVE" then Some(Interactive)
    else if s == "QUIZ" then Some(Quiz)
    else if s == "ASSIGNMENT" then Some(Assignment)
    else if s == "LIVE_SESSION" then Some(LiveSession)
    else None
  }

  datatype AssessmentType = AssessQuiz | AssessAssignment | AssessProject | AssessPractical | AssessCertification {
    function Name(): string {
      match this
      case AssessQuiz => "QUIZ"
      case AssessAssignment => "ASSIGNMENT"
      case AssessProject => "PROJECT"
      case AssessPractical => "PRACTICAL"
      case AssessCertification => "CERTIFICATION"
    }
  }

  /** `z.nativeEnum(AssessmentType)`: the assessment type whose string value is `s`, if any. */
  function ParseAssessmentType(s: string): (r: Option<AssessmentType>)
    ensures r.Some? <==> s in {"QUIZ", "ASSIGNMENT", "PROJECT", "PRACTICAL", "CERTIFICATION"}
    ensures r.Some? ==> r.value.Name() == s
    ensures forall t: AssessmentType :: t.Name() == s ==> r == Some(t)
  {
    if s == "QUIZ" then Some(AssessQuiz)
    else if s == "ASSIGNMENT" then Some(AssessAssignment)
    else if s == "PROJECT" then Some(AssessProject)
    else if s == "PRACTICAL" then Some(AssessPractical)
    else if s == "CERTIFICATION" then Some(AssessCertification)
    else None
  }

  /** The registration request body the register page sends. */
  datatype RegisterData = RegisterData(
    email: string,
    password: string,
    firstName: string,
    lastName: string,
    experienceLevel: string)

  /** The login request body the login page sends. */
  datatype LoginCredentials = LoginCredentials(email: string, password: string)

  /** The partial profile update: a field that is `None` is not sent or not changed. */
  datatype ProfileUpdate = ProfileUpdate(
    firstName: Option<string>,
    lastName: Option<string>,
    bio: Option<string>,
    currentRole: Option<string>,
    location: Option<string>,
    linkedinProfile: Option<string>,
    portfolioUrl: Option<string>)

  /** The user record the client keeps after login, registration or a refresh. */
  datatype AuthUser = AuthUser(
    id: string,
    email: string,
    firstName: Option<string>,
    lastName: Option<string>,
    bio: Option<string>,
    currentRole: Option<string>,
    experienceLevel: string,
    location: Option<string>,
    linkedinProfile: Option<string>,
    portfolioUrl: Option<string>,
    subscriptionStatus: string)

  /** The token envelope the client stores. */
  datatype AuthTokens = AuthTokens(accessToken: string, refreshToken: string, expiresIn: string)

  /** JavaScript truthiness of an optional string: present and not empty. */
  predicate Truthy(s: Option<string>) {
    s.Some? && s.value != ""
  }
}
