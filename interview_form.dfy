/**
 * The interview set-up form of `src/components/InterviewFormModal.js`: the
 * default interviewer voice, the resume upload with its PDF checks and
 * reset on failure, and the derivation of the interview record on submit
 * (persona prompt, focus areas, stored resume text).
 *
 * `localStorage` is the `storage` map (plus `drafts` for the JSON copies of
 * submitted records); the `/api/extract-pdf` call, the signed-in user and
 * the database insert are outcomes passed in; `alert` and the redirect are
 * recorded in `effects`.
 */
module InterviewForm {
  import opened Wrappers
  import opened Strings
  import TextToSpeech
  import opened InterviewValidation

  // ---------------------------------------------------------------------
  // Persona prompts and focus areas

  const FriendlyDevPrompt := "Act as a friendly senior developer, encouraging and helpful."
  const StrictHrPrompt := "Act as a strict corporate HR with high standards. Be brief and to the point."
  const CalmManagerPrompt := "Act as a calm and patient engineering manager. Focus on soft skills."
  const FastPacedTechLeadPrompt := "Act as a tech lead in a fast-paced environment. Be direct, technical, and focus on problem-solving speed."

  /** The names every object literal inherits from `Object.prototype`; each
      is truthy (a function, or the prototype object for `__proto__`). */
  predicate InheritedName(key: string) {
    key in {"constructor", "__proto__", "hasOwnProperty", "isPrototypeOf",
            "propertyIsEnumerable", "toLocaleString", "toString", "valueOf",
            "__defineGetter__", "__defineSetter__", "__lookupGetter__", "__lookupSetter__"}
  }

  /** The value of `personaPrompts[name] || name`: a string, or the
      inherited member of that name. */
  datatype PromptValue = Prompt(text: string) | InheritedMember(key: string)

  /** `personaPrompts[name] || name`. */
  function PersonaLookup(name: string): PromptValue {
    if name == "Friendly Dev" then Prompt(FriendlyDevPrompt)
    else if name == "Strict HR" then Prompt(StrictHrPrompt)
    else if name == "Calm Manager" then Prompt(CalmManagerPrompt)
    else if name == "Fast-Paced Tech Lead" then Prompt(FastPacedTechLeadPrompt)
    else if InheritedName(name) then InheritedMember(name)
    else Prompt(name)
  }

  /** The prompt of a persona the form schema accepts. */
  function PersonaPrompt(p: Persona): (r: string)
    ensures PersonaLookup(PersonaName(p)) == Prompt(r)
  {
    match p
    case FriendlyDev => FriendlyDevPrompt
    case StrictHr => StrictHrPrompt
    case CalmManager => CalmManagerPrompt
    case FastPacedTechLead => FastPacedTechLeadPrompt
  }

  /** Each of the four personas gets its own prompt, different from its name
      and from the other three. */
  lemma PersonaPromptKnown(p: Persona, q: Persona)
    ensures PersonaLookup(PersonaName(p)) ==
              Prompt(match p
                     case FriendlyDev => FriendlyDevPrompt
                     case StrictHr => StrictHrPrompt
                     case CalmManager => CalmManagerPrompt
                     case FastPacedTechLead => FastPacedTechLeadPrompt)
    ensures PersonaPrompt(p) != PersonaName(p)
    ensures p != q ==> PersonaPrompt(p) != PersonaPrompt(q)
  {
  }

  /** Any other name, unless it is inherited, passes through unchanged. */
  lemma PersonaPromptPassThrough(name: string)
    requires ParsePersona(name).None? && !InheritedName(name)
    ensures PersonaLookup(name) == Prompt(name)
  {
  }

  /** An inherited name yields the inherited member, not the name. */
  lemma PersonaPromptInherited(name: string)
    requires InheritedName(name)
    ensures PersonaLookup(name) == InheritedMember(name)
  {
  }

  /** `customFocusAreas ? customFocusAreas.split(',').map(a => a.trim()) : []`. */
  function FocusAreas(value: Option<string>): (r: seq<string>)
    ensures value.None? || value.value == "" ==> r == []
    ensures value.Some? && value.value != "" ==>
              && |r| == Count(value.value, ',') + 1
              && |r| == |Split(value.value, ',')|
              && (forall k :: 0 <= k < |r| ==> r[k] == Trim(Split(value.value, ',')[k]))
  {
    if value.None? || value.value == "" then []
    else
      var pieces := Split(value.value, ',');
      seq(|pieces|, k requires 0 <= k < |pieces| => Trim(pieces[k]))
  }

  /** Every focus area is a trimmed piece free of commas. */
  lemma FocusAreasTrimmed(value: string)
    requires value != ""
    ensures var r := FocusAreas(Some(value));
            forall k :: 0 <= k < |r| ==>
              && ',' !in r[k]
              && (r[k] == [] || (!IsSpace(r[k][0]) && !IsSpace(r[k][|r[k]| - 1])))
  {
    var pieces := Split(value, ',');
    var r := FocusAreas(Some(value));
    forall k | 0 <= k < |r|
      ensures ',' !in r[k]
    {
      TrimKeepsOut(pieces[k], ',');
    }
  }

  /** Without whitespace around the commas, splitting and joining again
      gives back the input. */
  lemma FocusAreasJoinBack(value: string)
    requires value != ""
    requires AllTrimmed(Split(value, ','))
    ensures Join(FocusAreas(Some(value)), ",") == value
  {
    var pieces := Split(value, ',');
    var r := FocusAreas(Some(value));
    assert |r| == |pieces|;
    forall k | 0 <= k < |r| ensures r[k] == pieces[k] {
      assert Trim(pieces[k]) == pieces[k];
    }
    SameElements(r, pieces);
  }

  predicate AllTrimmed(pieces: seq<string>) {
    forall k :: 0 <= k < |pieces| ==> Trim(pieces[k]) == pieces[k]
  }

  lemma SameElements(r: seq<string>, s: seq<string>)
    requires |r| == |s|
    requires forall k :: 0 <= k < |r| ==> r[k] == s[k]
    ensures r == s
  {
  }

  // ---------------------------------------------------------------------
  // The PDF upload

  const VoiceKey := "interviewer_voice_uri"
  const MaxResumeBytes := 10 * 1024 * 1024
  const NotPdf := "Please upload a PDF file"
  const TooLarge := "File size should be less than 10MB"
  const ExtractFailed := "Failed to extract text from PDF"
  const NoText := "No text could be extracted from the PDF"
  const EmptyPdf := "The PDF appears to be empty or unreadable"
  const UploadFailed := "Failed to process resume. Please try again."
  const UploadDone := "Resume uploaded and processed successfully!"
  const SubmitFailed := "Failed to create interview. Please try again."

  datatype PdfFile = PdfFile(name: string, mime: string, size: int)

  /** The JSON body of the extraction endpoint's answer. */
  datatype ReplyBody = ReplyBody(details: Option<string>, error: Option<string>, text: Option<string>)

  /** What `fetch` and `response.json()` give: a body with the response's
      `ok`, or the message of the error one of them throws. */
  datatype ExtractReply = Reply(ok: bool, body: ReplyBody) | Thrown(message: string)

  predicate Truthy(o: Option<string>) {
    o.Some? && o.value != ""
  }

  /** `data.details || data.error || 'Failed to extract text from PDF'`. */
  function ServerMessage(body: ReplyBody): (m: string)
    ensures Truthy(body.details) ==> m == body.details.value
    ensures !Truthy(body.details) && Truthy(body.error) ==> m == body.error.value
    ensures !Truthy(body.details) && !Truthy(body.error) ==> m == ExtractFailed
  {
    if Truthy(body.details) then body.details.value
    else if Truthy(body.error) then body.error.value
    else ExtractFailed
  }

  /** `extractTextFromPDF`: the file checks come before any request; the
      text is the server's when the answer is ok and carries text. */
  function ExtractTextFromPdf(file: PdfFile, reply: ExtractReply): (r: Result<string, string>)
    ensures file.mime != PdfType ==> r == Failure(NotPdf)
    ensures file.mime == PdfType && file.size > MaxResumeBytes ==> r == Failure(TooLarge)
    ensures r.Success? <==>
              file.mime == PdfType && file.size <= MaxResumeBytes &&
              reply.Reply? && reply.ok && Truthy(reply.body.text)
    ensures r.Success? ==> r.value == reply.body.text.value && r.value != ""
    ensures file.mime == PdfType && file.size <= MaxResumeBytes ==>
              && (reply.Thrown? ==> r == Failure(reply.message))
              && (reply.Reply? && !reply.ok ==> r == Failure(ServerMessage(reply.body)))
              && (reply.Reply? && reply.ok && !Truthy(reply.body.text) ==> r == Failure(NoText))
  {
    if file.mime != PdfType then Failure(NotPdf)
    else if file.size > MaxResumeBytes then Failure(TooLarge)
    else match reply
      case Thrown(m) => Failure(m)
      case Reply(ok, body) =>
        if !ok then Failure(ServerMessage(body))
        else if !Truthy(body.text) then Failure(NoText)
        else Success(body.text.value)
  }

  /** Exactly 10 MiB is accepted; one byte more is not. */
  lemma SizeLimit(name: string, reply: ExtractReply)
    requires reply.Reply? && reply.ok && Truthy(reply.body.text)
    ensures ExtractTextFromPdf(PdfFile(name, PdfType, 10485760), reply).Success?
    ensures ExtractTextFromPdf(PdfFile(name, PdfType, 10485761), reply) == Failure(TooLarge)
  {
  }

  /** What the upload handler ends with: the stored text, or the alert. */
  function UploadResult(file: PdfFile, reply: ExtractReply): (r: Result<string, string>)
    ensures r.Success? <==> ExtractTextFromPdf(file, reply).Success? && Trim(ExtractTextFromPdf(file, reply).value) != ""
    ensures r.Success? ==> r.value == ExtractTextFromPdf(file, reply).value && !AllSpace(r.value)
    ensures r.Failure? ==> r.error != ""
  {
    match ExtractTextFromPdf(file, reply)
    case Failure(m) => Failure(if m == "" then UploadFailed else m)
    case Success(text) =>
      TrimEmptyIff(text);
      if Trim(text) == [] then Failure(EmptyPdf) else Success(text)
  }

  // ---------------------------------------------------------------------
  // The interview record

  /** The `interviewData` object sent to the database. */
  datatype InterviewRow = InterviewRow(
    userId: string,
    jobRole: string,
    companyName: string,
    interviewType: string,
    difficultyLevel: string,
    duration: int,
    jobDescription: Option<string>,
    interviewerPersonality: string,
    enableWebcam: bool,
    customFocusAreas: seq<string>,
    resumeText: Option<string>,
    createdAt: string)

  /** The JSON copy kept under `interview_<now>`. */
  datatype Draft = Draft(row: InterviewRow, resumeStorageKey: string, fileName: string)

  datatype InsertOutcome = Inserted(id: string) | InsertFailed

  datatype FormEffect = Alert(message: string) | Insert(row: InterviewRow) | Close | Redirect(path: string)

  /** `resumeText ? localStorage.getItem(resumeText) : ''` (`None` is `null`). */
  function StoredResume(key: string, storage: map<string, string>): (r: Option<string>)
    ensures key == "" ==> r == Some("")
    ensures key != "" ==> (r.Some? <==> key in storage)
    ensures key != "" && key in storage ==> r == Some(storage[key])
  {
    if key == "" then Some("") else if key in storage then Some(storage[key]) else None
  }

  function RowFor(c: InterviewConfig, userId: string, resume: Option<string>, createdAt: string): (row: InterviewRow)
    ensures PersonaLookup(PersonaName(c.interviewerPersonality)) == Prompt(row.interviewerPersonality)
    ensures row.customFocusAreas == FocusAreas(c.customFocusAreas)
    ensures row.userId == userId && row.jobRole == c.jobRole && row.duration == c.duration
    ensures row.companyName == c.companyName && row.jobDescription == c.jobDescription
    ensures row.interviewType == TypeName(c.interviewType) && row.difficultyLevel == DifficultyName(c.difficultyLevel)
    ensures row.enableWebcam == c.enableWebcam
    ensures row.resumeText == resume && row.createdAt == createdAt
  {
    InterviewRow(userId, c.jobRole, c.companyName, TypeName(c.interviewType),
      DifficultyName(c.difficultyLevel), c.duration, c.jobDescription,
      PersonaPrompt(c.interviewerPersonality), c.enableWebcam,
      FocusAreas(c.customFocusAreas), resume, createdAt)
  }

  /** The storage key of an uploaded resume, `resume_${Date.now()}`. */
  function ResumeKey(now: int): string {
    "resume_" + IntToString(now)
  }

  class FormModal {
    var selectedVoice: string
    var resumeText: string
    var resumeFileName: string
    var isExtracting: bool
    var isLoading: bool
    /** `localStorage` string entries. */
    var storage: map<string, string>
    /** `localStorage` JSON entries under `interview_<now>`. */
    var drafts: map<string, Draft>
    var effects: seq<FormEffect>

    constructor (storage: map<string, string>)
      ensures this.storage == storage && drafts == map[] && effects == []
      ensures selectedVoice == "" && resumeText == "" && resumeFileName == ""
      ensures !isExtracting && !isLoading
    {
      this.storage := storage;
      drafts := map[];
      effects := [];
      selectedVoice := "";
      resumeText := "";
      resumeFileName := "";
      isExtracting := false;
      isLoading := false;
    }

    /** The effect on `voices`: the saved URI, else the default voice of a
        non-empty list, else no change. */
    method DefaultVoiceEffect(voices: seq<TextToSpeech.Voice>)
      modifies this`selectedVoice
      ensures VoiceKey in storage && storage[VoiceKey] != "" ==> selectedVoice == storage[VoiceKey]
      ensures !(VoiceKey in storage && storage[VoiceKey] != "") && |voices| > 0 ==>
                selectedVoice == TextToSpeech.DefaultVoice(voices).voiceURI
      ensures !(VoiceKey in storage && storage[VoiceKey] != "") && |voices| == 0 ==>
                selectedVoice == old(selectedVoice)
    {
      if VoiceKey in storage && storage[VoiceKey] != "" {
        selectedVoice := storage[VoiceKey];
      } else if |voices| > 0 {
        selectedVoice := TextToSpeech.DefaultVoice(voices).voiceURI;
      }
    }

    /** `handleVoiceChange`: the choice is selected and saved. */
    method HandleVoiceChange(voiceURI: string)
      modifies this`selectedVoice, this`storage
      ensures selectedVoice == voiceURI
      ensures storage == old(storage)[VoiceKey := voiceURI]
    {
      selectedVoice := voiceURI;
      storage := storage[VoiceKey := voiceURI];
    }

    /** `handleResumeUpload` for the chosen file (if any), the extraction
        answer and the current time. */
    method HandleResumeUpload(file: Option<PdfFile>, reply: ExtractReply, now: int)
      modifies this`isExtracting, this`resumeFileName, this`resumeText, this`storage, this`effects
      ensures file.None? ==> resumeText == old(resumeText) && resumeFileName == old(resumeFileName) &&
                             storage == old(storage) && effects == old(effects) && isExtracting == old(isExtracting)
      ensures file.Some? ==> !isExtracting
      ensures file.Some? && UploadResult(file.value, reply).Success? ==>
                && resumeText == ResumeKey(now) && resumeFileName == file.value.name
                && storage == old(storage)[ResumeKey(now) := UploadResult(file.value, reply).value]
                && effects == old(effects) + [Alert(UploadDone)]
      ensures file.Some? && UploadResult(file.value, reply).Failure? ==>
                && resumeText == "" && resumeFileName == ""
                && storage == old(storage)
                && effects == old(effects) + [Alert(UploadResult(file.value, reply).error)]
    {
      if file.None? {
        return;
      }
      isExtracting := true;
      resumeFileName := file.value.name;
      var outcome := UploadResult(file.value, reply);
      ApplyUpload(outcome, ResumeKey(now));
      isExtracting := false;
    }

    /** The part of `handleResumeUpload` after the extraction: store the
        text under `key` and alert success, or alert and reset. */
    method ApplyUpload(outcome: Result<string, string>, key: string)
      modifies this`resumeFileName, this`resumeText, this`storage, this`effects
      ensures outcome.Success? ==>
                && resumeText == key && resumeFileName == old(resumeFileName)
                && storage == old(storage)[key := outcome.value]
                && effects == old(effects) + [Alert(UploadDone)]
      ensures outcome.Failure? ==>
                && resumeText == "" && resumeFileName == ""
                && storage == old(storage)
                && effects == old(effects) + [Alert(outcome.error)]
    {
      match outcome {
        case Success(text) =>
          storage := storage[key := text];
          resumeText := key;
          effects := effects + [Alert(UploadDone)];
        case Failure(message) =>
          effects := effects + [Alert(message)];
          resumeText := "";
          resumeFileName := "";
      }
    }

    /** `onSubmit` for a configuration the schema accepted, the signed-in
        user (if any), the current time and the insert's outcome. */
    method OnSubmit(c: InterviewConfig, user: Option<string>, now: int, createdAt: string, insert: InsertOutcome)
      modifies this`isLoading, this`drafts, this`effects
      ensures !isLoading
      ensures user.None? ==> drafts == old(drafts) && effects == old(effects) + [Alert(SubmitFailed)]
      ensures user.Some? ==>
                var row := RowFor(c, user.value, StoredResume(resumeText, storage), createdAt);
                && drafts == old(drafts)["interview_" + IntToString(now) := Draft(row, resumeText, resumeFileName)]
                && effects == old(effects) + [Insert(row)] +
                     (if insert.Inserted? then [Close, Redirect("/interview/" + insert.id)] else [Alert(SubmitFailed)])
    {
      isLoading := true;
      if user.None? {
        effects := effects + [Alert(SubmitFailed)];
      } else {
        var row := RowFor(c, user.value, StoredResume(resumeText, storage), createdAt);
        drafts := drafts["interview_" + IntToString(now) := Draft(row, resumeText, resumeFileName)];
        effects := effects + [Insert(row)];
        if insert.Inserted? {
          effects := effects + [Close, Redirect("/interview/" + insert.id)];
        } else {
          effects := effects + [Alert(SubmitFailed)];
        }
      }
      isLoading := false;
    }
  }
}
