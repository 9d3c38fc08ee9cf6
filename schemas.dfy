/**
 * The shared request schemas as parsers. Each parser takes the fields of a
 * request body as they arrived (absent, of the wrong JSON type, or present with
 * a value) and, like a zod object schema, either returns the typed record, with
 * defaults filled in and unknown keys dropped, or reports every issue it found,
 * field by field in declaration order.
 *
 * zod's `email()`, `url()` and `cuid()` format checks are not modelled: they are
 * parameters (`Formats`) that every parser receives.
 */
module Schemas {
  import opened Wrappers
  import opened Domain

  /** One field of a request body before validation. */
  datatype Field<T> = Absent | Mistyped | Present(value: T)

  /** One validation issue: the field's path and its message. */
  datatype Issue = Issue(path: string, message: string)

  /** zod's built-in string formats, left abstract. */
  datatype Formats = Formats(isEmail: string -> bool, isUrl: string -> bool, isCuid: string -> bool)

  /** Numbers are JavaScript numbers without NaN and the infinities. */
  predicate IsInteger(x: real) {
    x.Floor as real == x
  }

  /** The numeric refinements zod chains on `z.number()`. */
  datatype NumberRule = NumberRule(integer: bool, low: Option<real>, lowInclusive: bool, high: Option<real>)

  predicate Satisfies(x: real, rule: NumberRule) {
    && (rule.integer ==> IsInteger(x))
    && (rule.low.Some? ==> (if rule.lowInclusive then x >= rule.low.value else x > rule.low.value))
    && (rule.high.Some? ==> x <= rule.high.value)
  }

  const Positive := NumberRule(false, Some(0.0), false, None)
  const PositiveInt := NumberRule(true, Some(0.0), false, None)
  const NonNegativeInt := NumberRule(true, Some(0.0), true, None)

  // ---------------------------------------------------------------------------
  // Field checks

  /** The issue for a field that is not there at all, or not of the expected type. */
  function TypeIssue<T>(f: Field<T>, path: string, expected: string): (issues: seq<Issue>)
    ensures issues == [] <==> f.Present?
  {
    match f
    case Absent => [Issue(path, "Required")]
    case Mistyped => [Issue(path, "Expected " + expected)]
    case Present(_) => []
  }

  /** `z.string().min(n, message)`. */
  function CheckString(f: Field<string>, minLength: nat, path: string, message: string): (issues: seq<Issue>)
    ensures issues == [] <==> f.Present? && |f.value| >= minLength
  {
    if !f.Present? then TypeIssue(f, path, "string")
    else if |f.value| < minLength then [Issue(path, message)]
    else []
  }

  /** `z.string().optional()`, with a format check when `format` is given. */
  function CheckOptionalString(f: Field<string>, format: Option<string -> bool>, path: string): (issues: seq<Issue>)
    ensures issues == [] <==> !f.Mistyped? && (f.Present? && format.Some? ==> format.value(f.value))
  {
    match f
    case Absent => []
    case Mistyped => [Issue(path, "Expected string")]
    case Present(s) =>
      if format.Some? && !format.value(s) then [Issue(path, "Invalid url")] else []
  }

  /** `z.number()` followed by the refinements of `rule`. */
  function CheckNumber(f: Field<real>, rule: NumberRule, path: string, message: string): (issues: seq<Issue>)
    ensures issues == [] <==> f.Present? && Satisfies(f.value, rule)
  {
    if !f.Present? then TypeIssue(f, path, "number")
    else if !Satisfies(f.value, rule) then [Issue(path, message)]
    else []
  }

  /** A number field with `.default(d)` or `.optional()` (`d` is `None`): absence is fine. */
  function CheckOptionalNumber(f: Field<real>, rule: NumberRule, path: string): (issues: seq<Issue>)
    ensures issues == [] <==> f.Absent? || (f.Present? && Satisfies(f.value, rule))
  {
    if f.Absent? then [] else CheckNumber(f, rule, path, "Number out of range")
  }

  /** `z.nativeEnum(E)`, with `parse` the enumeration's string values. */
  function CheckEnum<E>(f: Field<string>, parse: string -> Option<E>, path: string): (issues: seq<Issue>)
    ensures issues == [] <==> f.Present? && parse(f.value).Some?
  {
    if !f.Present? then TypeIssue(f, path, "enum value")
    else if parse(f.value).None? then [Issue(path, "Invalid enum value")]
    else []
  }

  /** A boolean field with a default: absent or a boolean. */
  function CheckOptionalBool(f: Field<bool>, path: string): (issues: seq<Issue>)
    ensures issues == [] <==> !f.Mistyped?
  {
    if f.Mistyped? then [Issue(path, "Expected boolean")] else []
  }

  function OptionOf<T>(f: Field<T>): (r: Option<T>)
    ensures r.Some? <==> f.Present?
    ensures r.Some? ==> r.value == f.value
  {
    if f.Present? then Some(f.value) else None
  }

  function WithDefault<T>(f: Field<T>, default: T): (r: T)
    ensures f.Present? ==> r == f.value
    ensures !f.Present? ==> r == default
  {
    if f.Present? then f.value else default
  }

  // ---------------------------------------------------------------------------
  // User schemas

  datatype RegistrationInput = RegistrationInput(
    email: Field<string>, password: Field<string>,
    firstName: Field<string>, lastName: Field<string>, experienceLevel: Field<string>)

  datatype Registration = Registration(
    email: string, password: string, firstName: string, lastName: string,
    experienceLevel: ExperienceLevel)

  /** The string field checks of `UserRegistrationSchema`, in declaration order. */
  function RegistrationIssues(fmt: Formats, b: RegistrationInput): seq<Issue> {
    (if b.email.Present? && !fmt.isEmail(b.email.value) then [Issue("email", "Invalid email address")]
     else TypeIssue(b.email, "email", "string"))
    + CheckString(b.password, 8, "password", "Password must be at least 8 characters")
    + CheckString(b.firstName, 1, "firstName", "First name is required")
    + CheckString(b.lastName, 1, "lastName", "Last name is required")
    + CheckEnum(b.experienceLevel, ParseExperienceLevel, "experienceLevel")
  }

  /**
   * `UserRegistrationSchema.parse`: accepts exactly a well-formed email, a
   * password of at least 8 characters, two non-empty names and one of the four
   * experience levels, and passes the strings through unchanged.
   */
  function ParseRegistration(fmt: Formats, b: RegistrationInput): (r: Result<Registration, seq<Issue>>)
    ensures r.Ok? <==>
      && b.email.Present? && fmt.isEmail(b.email.value)
      && b.password.Present? && |b.password.value| >= 8
      && b.firstName.Present? && |b.firstName.value| >= 1
      && b.lastName.Present? && |b.lastName.value| >= 1
      && b.experienceLevel.Present? && ParseExperienceLevel(b.experienceLevel.value).Some?
    ensures r.Ok? ==>
      && r.value.email == b.email.value && r.value.password == b.password.value
      && r.value.firstName == b.firstName.value && r.value.lastName == b.lastName.value
      && r.value.experienceLevel.Name() == b.experienceLevel.value
    ensures r.Err? ==> r.error != []
  {
    var issues := RegistrationIssues(fmt, b);
    if issues != [] then Err(issues)
    else
      Ok(Registration(b.email.value, b.password.value, b.firstName.value, b.lastName.value,
                      ParseExperienceLevel(b.experienceLevel.value).value))
  }

  datatype LoginInput = LoginInput(email: Field<string>, password: Field<string>)

  /** `UserLoginSchema.parse`: a well-formed email and a non-empty password. */
  function ParseLogin(fmt: Formats, b: LoginInput): (r: Result<LoginCredentials, seq<Issue>>)
    ensures r.Ok? <==>
      b.email.Present? && fmt.isEmail(b.email.value) && b.password.Present? && |b.password.value| >= 1
    ensures r.Ok? ==> r.value == LoginCredentials(b.email.value, b.password.value)
  {
    var issues :=
      (if b.email.Present? && !fmt.isEmail(b.email.value) then [Issue("email", "Invalid email address")]
       else TypeIssue(b.email, "email", "string"))
      + CheckString(b.password, 1, "password", "Password is required");
    if issues != [] then Err(issues) else Ok(LoginCredentials(b.email.value, b.password.value))
  }

  datatype ProfileUpdateInput = ProfileUpdateInput(
    firstName: Field<string>, lastName: Field<string>, bio: Field<string>,
    currentRole: Field<string>, location: Field<string>,
    linkedinProfile: Field<string>, portfolioUrl: Field<string>)

  /**
   * `UserProfileUpdateSchema.parse`: every field is optional; the two links
   * must be URLs when present. The result holds exactly the fields sent.
   */
  function ParseProfileUpdate(fmt: Formats, b: ProfileUpdateInput): (r: Result<ProfileUpdate, seq<Issue>>)
    ensures r.Ok? <==>
      && !b.firstName.Mistyped? && !b.lastName.Mistyped? && !b.bio.Mistyped?
      && !b.currentRole.Mistyped? && !b.location.Mistyped?
      && !b.linkedinProfile.Mistyped? && !b.portfolioUrl.Mistyped?
      && (b.linkedinProfile.Present? ==> fmt.isUrl(b.linkedinProfile.value))
      && (b.portfolioUrl.Present? ==> fmt.isUrl(b.portfolioUrl.value))
    ensures r.Ok? ==>
      && r.value.firstName == OptionOf(b.firstName) && r.value.lastName == OptionOf(b.lastName)
      && r.value.bio == OptionOf(b.bio) && r.value.currentRole == OptionOf(b.currentRole)
      && r.value.location == OptionOf(b.location)
      && r.value.linkedinProfile == OptionOf(b.linkedinProfile)
      && r.value.portfolioUrl == OptionOf(b.portfolioUrl)
  {
    var issues :=
      CheckOptionalString(b.firstName, None, "firstName")
      + CheckOptionalString(b.lastName, None, "lastName")
      + CheckOptionalString(b.bio, None, "bio")
      + CheckOptionalString(b.currentRole, None, "currentRole")
      + CheckOptionalString(b.location, None, "location")
      + CheckOptionalString(b.linkedinProfile, Some(fmt.isUrl), "linkedinProfile")
      + CheckOptionalString(b.portfolioUrl, Some(fmt.isUrl), "portfolioUrl");
    if issues != [] then Err(issues)
    else Ok(ProfileUpdate(OptionOf(b.firstName), OptionOf(b.lastName), OptionOf(b.bio),
                          OptionOf(b.currentRole), OptionOf(b.location),
                          OptionOf(b.linkedinProfile), OptionOf(b.portfolioUrl)))
  }

  // ---------------------------------------------------------------------------
  // Course, module, lesson and assessment schemas

  datatype CourseInput = CourseInput(
    title: Field<string>, description: Field<string>, longDescription: Field<string>,
    difficulty: Field<string>, estimatedHours: Field<real>, language: Field<string>,
    skillsTargeted: Field<seq<Field<string>>>)

  datatype Course = Course(
    title: string, description: string, longDescription: Option<string>,
    difficulty: DifficultyLevel, estimatedHours: real, language: string, skillsTargeted: seq<string>)

  /** `z.array(z.string())`: the issues of every element that is not a string. */
  function ElementIssues(items: seq<Field<string>>, path: string): (issues: seq<Issue>)
    ensures issues == [] <==> forall k :: 0 <= k < |items| ==> items[k].Present?
  {
    if items == [] then []
    else TypeIssue(items[0], path, "string") + ElementIssues(items[1..], path)
  }

  function Values(items: seq<Field<string>>): (r: seq<string>)
    requires forall k :: 0 <= k < |items| ==> items[k].Present?
    ensures |r| == |items| && forall k :: 0 <= k < |items| ==> r[k] == items[k].value
  {
    if items == [] then [] else [items[0].value] + Values(items[1..])
  }

  /** `z.array(z.string()).min(1, ...)`. */
  function CheckSkills(f: Field<seq<Field<string>>>, path: string): (issues: seq<Issue>)
    ensures issues == [] <==>
      f.Present? && |f.value| >= 1 && forall k :: 0 <= k < |f.value| ==> f.value[k].Present?
  {
    if !f.Present? then TypeIssue(f, path, "array")
    else ElementIssues(f.value, path)
         + (if |f.value| < 1 then [Issue(path, "At least one skill must be targeted")] else [])
  }

  /**
   * `CourseCreationSchema.parse`: a non-empty title, a description of at
   * least 10 characters, a difficulty, positive hours and at least one skill;
   * the language defaults to "en".
   */
  function ParseCourse(b: CourseInput): (r: Result<Course, seq<Issue>>)
    ensures r.Ok? <==>
      && b.title.Present? && |b.title.value| >= 1
      && b.description.Present? && |b.description.value| >= 10
      && !b.longDescription.Mistyped?
      && b.difficulty.Present? && ParseDifficulty(b.difficulty.value).Some?
      && b.estimatedHours.Present? && b.estimatedHours.value > 0.0
      && !b.language.Mistyped?
      && b.skillsTargeted.Present? && |b.skillsTargeted.value| >= 1
      && forall k :: 0 <= k < |b.skillsTargeted.value| ==> b.skillsTargeted.value[k].Present?
    ensures r.Ok? ==> r.value.title == b.title.value && r.value.description == b.description.value
    ensures r.Ok? ==> r.value.longDescription == OptionOf(b.longDescription)
    ensures r.Ok? ==> r.value.difficulty.Name() == b.difficulty.value
    ensures r.Ok? ==> r.value.estimatedHours == b.estimatedHours.value && r.value.estimatedHours > 0.0
    ensures r.Ok? ==> r.value.language == WithDefault(b.language, "en")
    ensures r.Ok? ==>
      && |r.value.skillsTargeted| == |b.skillsTargeted.value| >= 1
      && forall k :: 0 <= k < |b.skillsTargeted.value| ==> r.value.skillsTargeted[k] == b.skillsTargeted.value[k].value
  {
    var issues :=
      CheckString(b.title, 1, "title", "Course title is required")
      + CheckString(b.description, 10, "description", "Description must be at least 10 characters")
      + CheckOptionalString(b.longDescription, None, "longDescription")
      + CheckEnum(b.difficulty, ParseDifficulty, "difficulty")
      + CheckNumber(b.estimatedHours, Positive, "estimatedHours", "Estimated hours must be positive")
      + CheckOptionalString(b.language, None, "language")
      + CheckSkills(b.skillsTargeted, "skillsTargeted");
    if issues != [] then Err(issues)
    else Ok(Course(b.title.value, b.description.value, OptionOf(b.longDescription),
                   ParseDifficulty(b.difficulty.value).value, b.estimatedHours.value,
                   WithDefault(b.language, "en"), Values(b.skillsTargeted.value)))
  }

  datatype ModuleInput = ModuleInput(
    title: Field<string>, description: Field<string>, orderIndex: Field<real>, estimatedDuration: Field<real>)

  datatype CourseModule = CourseModule(
    title: string, description: Option<string>, orderIndex: int, estimatedDuration: real)

  /** `ModuleCreationSchema.parse`: the order index is a non-negative integer and the duration positive. */
  function ParseModule(b: ModuleInput): (r: Result<CourseModule, seq<Issue>>)
    ensures r.Ok? <==>
      && b.title.Present? && |b.title.value| >= 1
      && !b.description.Mistyped?
      && b.orderIndex.Present? && IsInteger(b.orderIndex.value) && b.orderIndex.value >= 0.0
      && b.estimatedDuration.Present? && b.estimatedDuration.value > 0.0
    ensures r.Ok? ==> r.value.title == b.title.value && r.value.description == OptionOf(b.description)
    ensures r.Ok? ==> r.value.orderIndex >= 0 && r.value.orderIndex as real == b.orderIndex.value
    ensures r.Ok? ==> r.value.estimatedDuration == b.estimatedDuration.value
  {
    var issues :=
      CheckString(b.title, 1, "title", "Module title is required")
      + CheckOptionalString(b.description, None, "description")
      + CheckNumber(b.orderIndex, NonNegativeInt, "orderIndex", "Number out of range")
      + CheckNumber(b.estimatedDuration, Positive, "estimatedDuration", "Duration must be positive");
    if issues != [] then Err(issues)
    else Ok(CourseModule(b.title.value, OptionOf(b.description), b.orderIndex.value.Floor,
                         b.estimatedDuration.value))
  }

  /** A JSON value, for the fields zod types as `z.any()`. */
  datatype Json =
    | JNull
    | JBool(b: bool)
    | JNumber(n: real)
    | JString(s: string)
    | JArray(items: seq<Json>)
    | JObject(fields: map<string, Json>)

  /**
   * The `content` object of a lesson. Its `data` is `z.any()`: any value, or
   * nothing, passes unchecked. Its `metadata` is `z.record(z.any())`: a
   * `Mistyped` metadata is any value that is not an object.
   */
  datatype LessonContentInput = LessonContentInput(
    contentType: Field<string>, data: Option<Json>, metadata: Field<map<string, Json>>)

  datatype LessonContent = LessonContent(
    contentType: LessonType, data: Option<Json>, metadata: Option<map<string, Json>>)

  datatype LessonInput = LessonInput(
    title: Field<string>, lessonType: Field<string>, duration: Field<real>, orderIndex: Field<real>,
    isOptional: Field<bool>, content: Field<LessonContentInput>)

  datatype Lesson = Lesson(
    title: string, lessonType: LessonType, duration: real, orderIndex: int,
    isOptional: bool, content: LessonContent)

  function ContentIssues(f: Field<LessonContentInput>): (issues: seq<Issue>)
    ensures issues == [] <==>
      f.Present? && f.value.contentType.Present? && ParseLessonType(f.value.contentType.value).Some?
      && !f.value.metadata.Mistyped?
  {
    if !f.Present? then TypeIssue(f, "content", "object")
    else CheckEnum(f.value.contentType, ParseLessonType, "content.type")
         + (if f.value.metadata.Mistyped? then [Issue("content.metadata", "Expected object")] else [])
  }

  /** `LessonCreationSchema.parse`: the order index is a non-negative integer; `isOptional` defaults to false. */
  function ParseLesson(b: LessonInput): (r: Result<Lesson, seq<Issue>>)
    ensures r.Ok? <==>
      && b.title.Present? && |b.title.value| >= 1
      && b.lessonType.Present? && ParseLessonType(b.lessonType.value).Some?
      && b.duration.Present? && b.duration.value > 0.0
      && b.orderIndex.Present? && IsInteger(b.orderIndex.value) && b.orderIndex.value >= 0.0
      && !b.isOptional.Mistyped?
      && b.content.Present? && b.content.value.contentType.Present?
      && ParseLessonType(b.content.value.contentType.value).Some? && !b.content.value.metadata.Mistyped?
    ensures r.Ok? ==> r.value.title == b.title.value && r.value.lessonType.Name() == b.lessonType.value
    ensures r.Ok? ==> r.value.duration == b.duration.value && r.value.duration > 0.0
    ensures r.Ok? ==> r.value.orderIndex >= 0 && r.value.orderIndex as real == b.orderIndex.value
    ensures r.Ok? ==> r.value.isOptional == WithDefault(b.isOptional, false)
    ensures r.Ok? ==> r.value.content.contentType.Name() == b.content.value.contentType.value
    ensures r.Ok? ==> r.value.content.data == b.content.value.data
    ensures r.Ok? ==> r.value.content.metadata == OptionOf(b.content.value.metadata)
    ensures b.orderIndex.Present? && b.orderIndex.value < 0.0 ==> r.Err?
  {
    var issues :=
      CheckString(b.title, 1, "title", "Lesson title is required")
      + CheckEnum(b.lessonType, ParseLessonType, "type")
      + CheckNumber(b.duration, Positive, "duration", "Duration must be positive")
      + CheckNumber(b.orderIndex, NonNegativeInt, "orderIndex", "Number out of range")
      + CheckOptionalBool(b.isOptional, "isOptional")
      + ContentIssues(b.content);
    if issues != [] then Err(issues)
    else Ok(Lesson(b.title.value, ParseLessonType(b.lessonType.value).value, b.duration.value,
                   b.orderIndex.value.Floor, WithDefault(b.isOptional, false),
                   LessonContent(ParseLessonType(b.content.value.contentType.value).value,
                                 b.content.value.data, OptionOf(b.content.value.metadata))))
  }

  datatype AssessmentInput = AssessmentInput(
    title: Field<string>, description: Field<string>, assessmentType: Field<string>,
    passingScore: Field<real>, maxAttempts: Field<real>, timeLimit: Field<real>, isProctored: Field<bool>)

  datatype Assessment = Assessment(
    title: string, description: Option<string>, assessmentType: AssessmentType,
    passingScore: int, maxAttempts: int, timeLimit: Option<int>, isProctored: bool)

  const ScoreRule := NumberRule(true, Some(0.0), true, Some(100.0))

  /**
   * `AssessmentCreationSchema.parse`: the passing score is an integer in
   * [0, 100], attempts a positive integer defaulting to 3, and the time limit,
   * when given, a positive integer.
   */
  function ParseAssessment(b: AssessmentInput): (r: Result<Assessment, seq<Issue>>)
    ensures r.Ok? <==>
      && b.title.Present? && |b.title.value| >= 1
      && !b.description.Mistyped?
      && b.assessmentType.Present? && ParseAssessmentType(b.assessmentType.value).Some?
      && b.passingScore.Present? && Satisfies(b.passingScore.value, ScoreRule)
      && (b.maxAttempts.Absent? || (b.maxAttempts.Present? && Satisfies(b.maxAttempts.value, PositiveInt)))
      && (b.timeLimit.Absent? || (b.timeLimit.Present? && Satisfies(b.timeLimit.value, PositiveInt)))
      && !b.isProctored.Mistyped?
    ensures r.Ok? ==> r.value.title == b.title.value && r.value.description == OptionOf(b.description)
    ensures r.Ok? ==> r.value.assessmentType.Name() == b.assessmentType.value
    ensures r.Ok? ==> 0 <= r.value.passingScore <= 100 && r.value.passingScore as real == b.passingScore.value
    ensures r.Ok? ==> r.value.maxAttempts >= 1 && (b.maxAttempts.Absent? ==> r.value.maxAttempts == 3)
    ensures r.Ok? && b.maxAttempts.Present? ==> r.value.maxAttempts as real == b.maxAttempts.value
    ensures r.Ok? ==> (r.value.timeLimit.Some? <==> b.timeLimit.Present?)
    ensures r.Ok? && r.value.timeLimit.Some? ==>
      r.value.timeLimit.value >= 1 && r.value.timeLimit.value as real == b.timeLimit.value
    ensures r.Ok? ==> r.value.isProctored == WithDefault(b.isProctored, false)
  {
    var issues :=
      CheckString(b.title, 1, "title", "Assessment title is required")
      + CheckOptionalString(b.description, None, "description")
      + CheckEnum(b.assessmentType, ParseAssessmentType, "type")
      + CheckNumber(b.passingScore, ScoreRule, "passingScore", "Number out of range")
      + CheckOptionalNumber(b.maxAttempts, PositiveInt, "maxAttempts")
      + CheckOptionalNumber(b.timeLimit, PositiveInt, "timeLimit")
      + CheckOptionalBool(b.isProctored, "isProctored");
    if issues != [] then Err(issues)
    else Ok(Assessment(
      b.title.value, OptionOf(b.description), ParseAssessmentType(b.assessmentType.value).value,
      b.passingScore.value.Floor,
      if b.maxAttempts.Present? then b.maxAttempts.value.Floor else 3,
      if b.timeLimit.Present? then Some(b.timeLimit.value.Floor) else None,
      WithDefault(b.isProctored, false)))
  }

  // ---------------------------------------------------------------------------
  // Search schema

  datatype RangeInput = RangeInput(min: Field<real>, max: Field<real>)

  datatype CourseSearchInput = CourseSearchInput(
    query: Field<string>, difficulty: Field<string>, skills: Field<seq<Field<string>>>,
    duration: Field<RangeInput>, rating: Field<real>, page: Field<real>, limit: Field<real>)

  /** A parsed `duration` filter: each bound is kept exactly when it was sent. */
  datatype Range = Range(min: Option<real>, max: Option<real>)

  datatype CourseSearch = CourseSearch(
    query: Option<string>, difficulty: Option<DifficultyLevel>, skills: Option<seq<string>>,
    duration: Option<Range>, rating: Option<real>, page: int, limit: int)

  const RatingRule := NumberRule(false, Some(1.0), true, Some(5.0))
  const LimitRule := NumberRule(true, Some(0.0), false, Some(50.0))

  function OptionalEnumIssues<E>(f: Field<string>, parse: string -> Option<E>, path: string): (issues: seq<Issue>)
    ensures issues == [] <==> f.Absent? || (f.Present? && parse(f.value).Some?)
  {
    if f.Absent? then [] else CheckEnum(f, parse, path)
  }

  function OptionalArrayIssues(f: Field<seq<Field<string>>>, path: string): (issues: seq<Issue>)
    ensures issues == [] <==> f.Absent? || (f.Present? && forall k :: 0 <= k < |f.value| ==> f.value[k].Present?)
  {
    match f
    case Absent => []
    case Mistyped => [Issue(path, "Expected array")]
    case Present(items) => ElementIssues(items, path)
  }

  function RangeIssues(f: Field<RangeInput>): (issues: seq<Issue>)
    ensures issues == [] <==> !f.Mistyped? && (f.Present? ==> !f.value.min.Mistyped? && !f.value.max.Mistyped?)
  {
    match f
    case Absent => []
    case Mistyped => [Issue("duration", "Expected object")]
    case Present(range) =>
      CheckOptionalNumber(range.min, NumberRule(false, None, false, None), "duration.min")
      + CheckOptionalNumber(range.max, NumberRule(false, None, false, None), "duration.max")
  }

  /**
   * `CourseSearchSchema.parse`: `page` is a positive integer defaulting to 1 and
   * `limit` a positive integer of at most 50 defaulting to 20.
   */
  function ParseCourseSearch(b: CourseSearchInput): (r: Result<CourseSearch, seq<Issue>>)
    ensures r.Ok? <==>
      && !b.query.Mistyped?
      && (b.difficulty.Absent? || (b.difficulty.Present? && ParseDifficulty(b.difficulty.value).Some?))
      && (b.skills.Absent? || (b.skills.Present? && forall k :: 0 <= k < |b.skills.value| ==> b.skills.value[k].Present?))
      && !b.duration.Mistyped?
      && (b.duration.Present? ==> !b.duration.value.min.Mistyped? && !b.duration.value.max.Mistyped?)
      && (b.rating.Absent? || (b.rating.Present? && Satisfies(b.rating.value, RatingRule)))
      && (b.page.Absent? || (b.page.Present? && Satisfies(b.page.value, PositiveInt)))
      && (b.limit.Absent? || (b.limit.Present? && Satisfies(b.limit.value, LimitRule)))
    ensures r.Ok? ==> r.value.query == OptionOf(b.query) && r.value.rating == OptionOf(b.rating)
    ensures r.Ok? ==> (r.value.difficulty.Some? <==> b.difficulty.Present?)
    ensures r.Ok? && r.value.difficulty.Some? ==> r.value.difficulty.value.Name() == b.difficulty.value
    ensures r.Ok? ==> (r.value.skills.Some? <==> b.skills.Present?)
    ensures r.Ok? && r.value.skills.Some? ==>
      |r.value.skills.value| == |b.skills.value| &&
      forall k :: 0 <= k < |b.skills.value| ==> r.value.skills.value[k] == b.skills.value[k].value
    ensures r.Ok? ==> (r.value.duration.Some? <==> b.duration.Present?)
    ensures r.Ok? && r.value.duration.Some? ==>
      r.value.duration.value == Range(OptionOf(b.duration.value.min), OptionOf(b.duration.value.max))
    ensures r.Ok? ==> r.value.page >= 1 && 1 <= r.value.limit <= 50
    ensures r.Ok? ==> (b.page.Absent? ==> r.value.page == 1) && (b.limit.Absent? ==> r.value.limit == 20)
    ensures r.Ok? ==> (b.page.Present? ==> r.value.page as real == b.page.value)
                      && (b.limit.Present? ==> r.value.limit as real == b.limit.value)
    ensures b.page.Present? && !Satisfies(b.page.value, PositiveInt) ==> r.Err?
    ensures b.limit.Present? && !Satisfies(b.limit.value, LimitRule) ==> r.Err?
    ensures b.page.Mistyped? || b.limit.Mistyped? ==> r.Err?
  {
    var issues :=
      CheckOptionalString(b.query, None, "query")
      + OptionalEnumIssues(b.difficulty, ParseDifficulty, "difficulty")
      + OptionalArrayIssues(b.skills, "skills")
      + RangeIssues(b.duration)
      + CheckOptionalNumber(b.rating, RatingRule, "rating")
      + CheckOptionalNumber(b.page, PositiveInt, "page")
      + CheckOptionalNumber(b.limit, LimitRule, "limit");
    if issues != [] then Err(issues)
    else Ok(CourseSearch(
      OptionOf(b.query),
      if b.difficulty.Present? then ParseDifficulty(b.difficulty.value) else None,
      if b.skills.Present? then Some(Values(b.skills.value)) else None,
      if b.duration.Present? then Some(Range(OptionOf(b.duration.value.min), OptionOf(b.duration.value.max))) else None,
      OptionOf(b.rating),
      if b.page.Present? then b.page.value.Floor else 1,
      if b.limit.Present? then b.limit.value.Floor else 20))
  }
}
