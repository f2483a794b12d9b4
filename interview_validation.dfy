/**
 * The interview configuration schema of `src/lib/validations/interview.js`
 * (a `zod` object) as a parser over the raw form values: each field has its
 * own check, a form parses exactly when every check passes, and the parsed
 * record carries the typed values with `enableWebcam` defaulting to false.
 */
module InterviewValidation {
  import opened Wrappers

  /** A raw form value as `zod` sees it; `Undefined` is a missing field. */
  datatype Value =
    | Undefined
    | Str(s: string)
    | Num(n: int)
    | NotANumber
    | Bool(b: bool)
    | FileObj(mime: string)

  datatype InterviewType = Dsa | Hr | Behavioral | SystemDesign | FullStack | Mixed
  datatype Difficulty = Easy | Medium | Hard
  datatype Persona = FriendlyDev | StrictHr | CalmManager | FastPacedTechLead

  function TypeName(t: InterviewType): string {
    match t
    case Dsa => "DSA"
    case Hr => "HR"
    case Behavioral => "Behavioral"
    case SystemDesign => "System Design"
    case FullStack => "Full Stack"
    case Mixed => "Mixed"
  }

  function ParseType(s: string): (r: Option<InterviewType>)
    ensures r.Some? ==> TypeName(r.value) == s
  {
    if s == "DSA" then Some(Dsa)
    else if s == "HR" then Some(Hr)
    else if s == "Behavioral" then Some(Behavioral)
    else if s == "System Design" then Some(SystemDesign)
    else if s == "Full Stack" then Some(FullStack)
    else if s == "Mixed" then Some(Mixed)
    else None
  }

  function DifficultyName(d: Difficulty): string {
    match d
    case Easy => "Easy"
    case Medium => "Medium"
    case Hard => "Hard"
  }

  function ParseDifficulty(s: string): (r: Option<Difficulty>)
    ensures r.Some? ==> DifficultyName(r.value) == s
  {
    if s == "Easy" then Some(Easy)
    else if s == "Medium" then Some(Medium)
    else if s == "Hard" then Some(Hard)
    else None
  }

  function PersonaName(p: Persona): string {
    match p
    case FriendlyDev => "Friendly Dev"
    case StrictHr => "Strict HR"
    case CalmManager => "Calm Manager"
    case FastPacedTechLead => "Fast-Paced Tech Lead"
  }

  function ParsePersona(s: string): (r: Option<Persona>)
    ensures r.Some? ==> PersonaName(r.value) == s
  {
    if s == "Friendly Dev" then Some(FriendlyDev)
    else if s == "Strict HR" then Some(StrictHr)
    else if s == "Calm Manager" then Some(CalmManager)
    else if s == "Fast-Paced Tech Lead" then Some(FastPacedTechLead)
    else None
  }

  /** Every listed enum value is accepted and read back as itself. */
  lemma EnumRoundTrip(t: InterviewType, d: Difficulty, p: Persona)
    ensures ParseType(TypeName(t)) == Some(t)
    ensures ParseDifficulty(DifficultyName(d)) == Some(d)
    ensures ParsePersona(PersonaName(p)) == Some(p)
  {
  }

  /** The raw values of the form, one per schema field. */
  datatype FormInput = FormInput(
    jobRole: Value,
    companyName: Value,
    interviewType: Value,
    difficultyLevel: Value,
    duration: Value,
    jobDescription: Value,
    interviewerPersonality: Value,
    enableWebcam: Value,
    customFocusAreas: Value,
    resume: Value)

  /** The parsed configuration. */
  datatype InterviewConfig = InterviewConfig(
    jobRole: string,
    companyName: string,
    interviewType: InterviewType,
    difficultyLevel: Difficulty,
    duration: int,
    jobDescription: Option<string>,
    interviewerPersonality: Persona,
    enableWebcam: bool,
    customFocusAreas: Option<string>,
    resumeType: Option<string>)

  const PdfType := "application/pdf"
  const MinDuration := 5
  const MaxDuration := 60

  /** `z.string().min(1)`. */
  predicate NonEmptyString(v: Value) {
    v.Str? && |v.s| >= 1
  }

  predicate DurationOk(v: Value) {
    v.Num? && MinDuration <= v.n <= MaxDuration
  }

  /** `z.string().optional()`. */
  predicate OptionalString(v: Value) {
    v.Undefined? || v.Str?
  }

  /** `z.boolean().default(false)`. */
  predicate WebcamOk(v: Value) {
    v.Undefined? || v.Bool?
  }

  /** `z.instanceof(File).refine(type === 'application/pdf').optional()`. */
  predicate ResumeOk(v: Value) {
    v.Undefined? || (v.FileObj? && v.mime == PdfType)
  }

  /** The fields of the schema, in schema order. */
  datatype Field =
    | JobRole | CompanyName | InterviewTypeField | DifficultyLevel | Duration
    | JobDescription | InterviewerPersonality | EnableWebcam | CustomFocusAreas | Resume

  const SchemaFields: seq<Field> := [
    JobRole, CompanyName, InterviewTypeField, DifficultyLevel, Duration,
    JobDescription, InterviewerPersonality, EnableWebcam, CustomFocusAreas, Resume]

  /** Every field is in the schema. */
  lemma InSchema(field: Field)
    ensures field in SchemaFields
  {
  }

  /** Whether one field meets its schema rule. */
  predicate FieldOk(f: FormInput, field: Field) {
    match field
    case JobRole => NonEmptyString(f.jobRole)
    case CompanyName => NonEmptyString(f.companyName)
    case InterviewTypeField => f.interviewType.Str? && ParseType(f.interviewType.s).Some?
    case DifficultyLevel => f.difficultyLevel.Str? && ParseDifficulty(f.difficultyLevel.s).Some?
    case Duration => DurationOk(f.duration)
    case JobDescription => OptionalString(f.jobDescription)
    case InterviewerPersonality => f.interviewerPersonality.Str? && ParsePersona(f.interviewerPersonality.s).Some?
    case EnableWebcam => WebcamOk(f.enableWebcam)
    case CustomFocusAreas => OptionalString(f.customFocusAreas)
    case Resume => ResumeOk(f.resume)
  }

  /** Every check passes. */
  predicate Conforms(f: FormInput) {
    && NonEmptyString(f.jobRole) && NonEmptyString(f.companyName)
    && f.interviewType.Str? && ParseType(f.interviewType.s).Some?
    && f.difficultyLevel.Str? && ParseDifficulty(f.difficultyLevel.s).Some?
    && DurationOk(f.duration) && OptionalString(f.jobDescription)
    && f.interviewerPersonality.Str? && ParsePersona(f.interviewerPersonality.s).Some?
    && WebcamOk(f.enableWebcam) && OptionalString(f.customFocusAreas) && ResumeOk(f.resume)
  }

  /** The fields of `fields` whose check fails, in order. */
  function Failing(f: FormInput, fields: seq<Field>): (r: seq<Field>)
    ensures forall x :: x in r <==> x in fields && !FieldOk(f, x)
  {
    if fields == [] then []
    else (if FieldOk(f, fields[0]) then [] else [fields[0]]) + Failing(f, fields[1..])
  }

  /** Conforming is passing every field's own check. */
  lemma ConformsEveryField(f: FormInput)
    ensures Conforms(f) <==> forall field :: FieldOk(f, field)
  {
    if forall field :: FieldOk(f, field) {
      assert FieldOk(f, JobRole) && FieldOk(f, CompanyName) && FieldOk(f, InterviewTypeField);
      assert FieldOk(f, DifficultyLevel) && FieldOk(f, Duration) && FieldOk(f, JobDescription);
      assert FieldOk(f, InterviewerPersonality) && FieldOk(f, EnableWebcam);
      assert FieldOk(f, CustomFocusAreas) && FieldOk(f, Resume);
    }
  }

  /** The schema's failing fields are exactly the fields whose check fails. */
  lemma FailingSchemaFields(f: FormInput)
    ensures forall field :: field in Failing(f, SchemaFields) <==> !FieldOk(f, field)
  {
    forall field ensures field in Failing(f, SchemaFields) <==> !FieldOk(f, field) {
      InSchema(field);
    }
  }

  /** The failing fields, in schema order (`zod` reports every failing
      field, not only the first). */
  function Issues(f: FormInput): (r: seq<Field>)
    ensures forall field :: field in r <==> !FieldOk(f, field)
    ensures r == [] <==> Conforms(f)
  {
    FailingSchemaFields(f);
    ConformsEveryField(f);
    var r := Failing(f, SchemaFields);
    assert r != [] ==> r[0] in r;
    r
  }

  function OptionalOf(v: Value): Option<string> {
    if v.Str? then Some(v.s) else None
  }

  /** `interviewSchema.safeParse`: the configuration, or the failing fields. */
  function Parse(f: FormInput): (r: Result<InterviewConfig, seq<Field>>)
    ensures r.Failure? <==> Issues(f) != []
    ensures r.Failure? ==> r.error == Issues(f)
    ensures r.Success? ==>
              && r.value.jobRole == f.jobRole.s && |r.value.jobRole| >= 1
              && r.value.companyName == f.companyName.s && |r.value.companyName| >= 1
              && TypeName(r.value.interviewType) == f.interviewType.s
              && DifficultyName(r.value.difficultyLevel) == f.difficultyLevel.s
              && PersonaName(r.value.interviewerPersonality) == f.interviewerPersonality.s
              && r.value.duration == f.duration.n && MinDuration <= r.value.duration <= MaxDuration
              && r.value.enableWebcam == (f.enableWebcam.Bool? && f.enableWebcam.b)
              && (r.value.resumeType.Some? ==> r.value.resumeType.value == PdfType)
              && (r.value.resumeType.Some? <==> f.resume.FileObj?)
              && (r.value.jobDescription.None? <==> f.jobDescription.Undefined?)
              && r.value.jobDescription == OptionalOf(f.jobDescription)
              && (r.value.customFocusAreas.None? <==> f.customFocusAreas.Undefined?)
              && r.value.customFocusAreas == OptionalOf(f.customFocusAreas)
  {
    if Issues(f) != [] then Failure(Issues(f))
    else
      Success(InterviewConfig(
        f.jobRole.s,
        f.companyName.s,
        ParseType(f.interviewType.s).value,
        ParseDifficulty(f.difficultyLevel.s).value,
        f.duration.n,
        OptionalOf(f.jobDescription),
        ParsePersona(f.interviewerPersonality.s).value,
        if f.enableWebcam.Bool? then f.enableWebcam.b else false,
        OptionalOf(f.customFocusAreas),
        if f.resume.FileObj? then Some(f.resume.mime) else None))
  }

  /** The boundary durations are accepted and their neighbours refused. */
  lemma DurationBounds()
    ensures DurationOk(Num(5)) && DurationOk(Num(60))
    ensures !DurationOk(Num(4)) && !DurationOk(Num(61)) && !DurationOk(NotANumber)
  {
  }

  /** A printed configuration parses back to itself. */
  lemma ParseRoundTrip(c: InterviewConfig)
    requires |c.jobRole| >= 1 && |c.companyName| >= 1
    requires MinDuration <= c.duration <= MaxDuration
    requires c.resumeType.Some? ==> c.resumeType.value == PdfType
    ensures Parse(Unparse(c)) == Success(c)
  {
    EnumRoundTrip(c.interviewType, c.difficultyLevel, c.interviewerPersonality);
  }

  function OptionalValue(o: Option<string>): Value {
    if o.Some? then Str(o.value) else Undefined
  }

  /** The form values a configuration comes from. */
  function Unparse(c: InterviewConfig): FormInput {
    FormInput(
      Str(c.jobRole), Str(c.companyName), Str(TypeName(c.interviewType)),
      Str(DifficultyName(c.difficultyLevel)), Num(c.duration), OptionalValue(c.jobDescription),
      Str(PersonaName(c.interviewerPersonality)), Bool(c.enableWebcam),
      OptionalValue(c.customFocusAreas),
      if c.resumeType.Some? then FileObj(c.resumeType.value) else Undefined)
  }
}
