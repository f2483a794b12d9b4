/**
 * The interview conversation loop of `src/hooks/useInterviewFlow.js`: an
 * append-only log of turns, the guarded candidate append, the trigger that
 * asks the language model for the next interviewer turn, and the three ways
 * an answer comes back (parsed reply, unparseable reply, failure).
 *
 * The call to `/api/chat` is split at its `await`: `BeginAiResponse` is the
 * part before it (typing flag on, request issued) and `FinishAiResponse` the
 * part after it, which receives the outcome as a value.
 */
module InterviewFlow {
  import opened Wrappers
  import opened Strings

  datatype Sender = Ai | User

  /** One entry of the conversation log, `{sender, text, code}`. */
  datatype Turn = Turn(sender: Sender, text: string, code: Option<string>)

  /** JavaScript truthiness of an optional code string. */
  predicate HasCode(code: Option<string>) {
    code.Some? && code.value != ""
  }

  /** The columns of the interview row the loop reads: the two it checks
      before starting, and the ones the system prompt interpolates. A
      nullable column is an `Option`; `interviewType` is `None` when the
      row has no `interview_type`. */
  datatype Interview = Interview(
    companyName: string,
    jobRole: string,
    jobDescription: Option<string>,
    resumeText: Option<string>,
    interviewType: Option<string>,
    customFocusAreas: Option<string>,
    difficultyLevel: string,
    duration: int,
    personality: string)

  /** `interview?.job_role && interview?.interviewer_personality`. */
  predicate Loaded(interview: Option<Interview>) {
    interview.Some? && interview.value.jobRole != "" && interview.value.personality != ""
  }

  predicate LastIsAi(log: seq<Turn>) {
    |log| > 0 && log[|log| - 1].sender == Ai
  }

  predicate LastIsUser(log: seq<Turn>) {
    |log| > 0 && log[|log| - 1].sender == User
  }

  /** The append invariant: every candidate turn answers an interviewer turn
      (so the first turn, if any, is the interviewer's). */
  ghost predicate CandidateAnswersInterviewer(log: seq<Turn>) {
    forall i :: 0 <= i < |log| && log[i].sender == User ==> 0 < i && log[i - 1].sender == Ai
  }

  const InitialCode := "// Your code here..."
  const Apology := "I'm sorry, I encountered an error. Could you please repeat that?"

  // ---------------------------------------------------------------------
  // History text and outbound messages

  function SpeakerLabel(s: Sender): string {
    if s == Ai then "Interviewer" else "Candidate"
  }

  function CodeBlock(code: string): string {
    "\n```javascript\n" + code + "\n```"
  }

  /** One history entry: the speaker label and text, then a fenced
      `javascript` block exactly when the turn carries code. */
  function RenderTurn(t: Turn): (r: string)
    ensures StartsWith(r, SpeakerLabel(t.sender) + ": " + t.text)
    ensures HasCode(t.code) <==> |r| > |SpeakerLabel(t.sender) + ": " + t.text|
    ensures HasCode(t.code) ==> r[|SpeakerLabel(t.sender) + ": " + t.text|..] == CodeBlock(t.code.value)
  {
    var head := SpeakerLabel(t.sender) + ": " + t.text;
    if HasCode(t.code) then head + CodeBlock(t.code.value) else head
  }

  /** The rendered entries, in log order. */
  function RenderedTurns(log: seq<Turn>): (r: seq<string>)
    ensures |r| == |log|
    ensures forall i :: 0 <= i < |log| ==> r[i] == RenderTurn(log[i])
  {
    seq(|log|, i requires 0 <= i < |log| => RenderTurn(log[i]))
  }

  /** `conversationHistory`: the rendered entries joined by blank lines. */
  function FormatHistory(log: seq<Turn>): string {
    Join(RenderedTurns(log), "\n\n")
  }

  /** The history grows by a blank line and the new entry when a turn is
      appended, and the first entry alone is its own rendering. */
  lemma HistoryAppend(log: seq<Turn>, t: Turn)
    ensures FormatHistory(log + [t]) ==
            if log == [] then RenderTurn(t) else FormatHistory(log) + "\n\n" + RenderTurn(t)
  {
    assert RenderedTurns(log + [t]) == RenderedTurns(log) + [RenderTurn(t)];
    JoinSnoc(RenderedTurns(log), RenderTurn(t), "\n\n");
  }

  /** `isCodeSubmission`: the last turn is the candidate's and carries code. */
  predicate IsCodeSubmission(log: seq<Turn>) {
    LastIsUser(log) && HasCode(log[|log| - 1].code)
  }

  datatype Role = System | Assistant | UserRole

  /** A message of a `/api/chat` request: a dialogue message, or the system
      instruction, whose wording is not modelled and is kept as the values it
      is built from. */
  datatype ApiMessage<P> = Said(role: Role, content: string) | Instruction(prompt: P)

  function RoleOf(s: Sender): Role {
    if s == Ai then Assistant else UserRole
  }

  /** The log as chat messages: `ai` becomes `assistant`, anything else
      `user`; order and length are kept. */
  function ToApiMessages<P>(log: seq<Turn>): (r: seq<ApiMessage<P>>)
    ensures |r| == |log|
    ensures forall i :: 0 <= i < |log| ==> r[i] == Said(RoleOf(log[i].sender), log[i].text)
  {
    seq(|log|, i requires 0 <= i < |log| => Said(RoleOf(log[i].sender), log[i].text))
  }

  /** What the interviewer system prompt is built from: every interpolated
      column of the row, the history text and the code-submission switch. */
  datatype InterviewPrompt = InterviewPrompt(interview: Interview, history: string, codeSubmission: bool)

  type ChatRequest = seq<ApiMessage<InterviewPrompt>>

  /** The `messages` body `getAiResponse` posts: one system message, then the
      log. Building the prompt calls `interview_type.toUpperCase()`, which
      throws for a row without a type, so then there is no body (`None`). */
  function Outbound(interview: Interview, current: seq<Turn>): (r: Option<ChatRequest>)
    ensures r.None? <==> interview.interviewType.None?
    ensures r.Some? ==> |r.value| == |current| + 1
    ensures r.Some? ==> r.value[0] == Instruction(InterviewPrompt(interview, FormatHistory(current), IsCodeSubmission(current)))
    ensures r.Some? ==> r.value[1..] == ToApiMessages(current)
  {
    if interview.interviewType.None? then None
    else Some([Instruction(InterviewPrompt(interview, FormatHistory(current), IsCodeSubmission(current)))]
              + ToApiMessages(current))
  }

  /** A loaded interview whose prompt can be built: the request goes out. */
  predicate Ready(interview: Option<Interview>) {
    Loaded(interview) && interview.value.interviewType.Some?
  }

  // ---------------------------------------------------------------------
  // Outcomes of the request

  datatype AiOutcome =
    | Parsed(text: string, code: Option<string>)   // ok response whose content parses as {text, code}
    | Unparseable(raw: string)                     // ok response whose content is not that JSON
    | NotOk(status: int)                           // `!response.ok`
    | FetchFailed                                  // `fetch` or reading the body threw

  /** The single interviewer turn an outcome appends. */
  function ReplyTurn(outcome: AiOutcome): (t: Turn)
    ensures t.sender == Ai
    ensures outcome.Parsed? ==> t.text == outcome.text
    ensures outcome.Parsed? ==> (t.code == if HasCode(outcome.code) then outcome.code else None)
    ensures outcome.Unparseable? ==> t == Turn(Ai, outcome.raw, None)
    ensures (outcome.NotOk? || outcome.FetchFailed?) ==> t == Turn(Ai, Apology, None)
    ensures !outcome.Parsed? ==> t.code == None
  {
    match outcome
    case Parsed(text, code) => Turn(Ai, text, if HasCode(code) then code else None)
    case Unparseable(raw) => Turn(Ai, raw, None)
    case NotOk(_) => Turn(Ai, Apology, None)
    case FetchFailed => Turn(Ai, Apology, None)
  }

  /** The updater `addUserMessage` hands to `setConversationLog`: append the
      candidate turn only after an interviewer turn, otherwise keep the log. */
  function WithUserMessage(prev: seq<Turn>, text: string, code: Option<string>): (next: seq<Turn>)
    ensures LastIsAi(prev) ==> next == prev + [Turn(User, text, code)]
    ensures !LastIsAi(prev) ==> next == prev
    ensures next != prev <==> LastIsAi(prev)
  {
    if LastIsAi(prev) then prev + [Turn(User, text, code)] else prev
  }

  /** The guarded append keeps the append invariant. */
  lemma WithUserMessageKeepsInvariant(prev: seq<Turn>, text: string, code: Option<string>)
    requires CandidateAnswersInterviewer(prev)
    ensures CandidateAnswersInterviewer(WithUserMessage(prev, text, code))
  {
  }

  /** Appending an interviewer turn keeps the append invariant. */
  lemma ReplyKeepsInvariant(prev: seq<Turn>, outcome: AiOutcome)
    requires CandidateAnswersInterviewer(prev)
    ensures CandidateAnswersInterviewer(prev + [ReplyTurn(outcome)])
  {
  }

  /** The editor buffer after an outcome: replaced only by a parsed reply
      that carries code. */
  function CodeAfter(outcome: AiOutcome, code: string): (r: string)
    ensures r != code ==> outcome.Parsed? && HasCode(outcome.code) && r == outcome.code.value
  {
    if outcome.Parsed? && HasCode(outcome.code) then outcome.code.value else code
  }

  // ---------------------------------------------------------------------
  // The hook's state

  class Flow {
    var log: seq<Turn>
    var isAiTyping: bool
    var code: string
    /** Every `/api/chat` request issued, in order. */
    var requests: seq<ChatRequest>

    ghost predicate Valid()
      reads this
    {
      CandidateAnswersInterviewer(log)
    }

    constructor ()
      ensures Valid()
      ensures log == [] && !isAiTyping && code == InitialCode && requests == []
    {
      log := [];
      isAiTyping := false;
      code := InitialCode;
      requests := [];
    }

    /** `addUserMessage(text, code)`; `accepted` says whether the turn was appended. */
    method AddUserMessage(text: string, code: Option<string>) returns (accepted: bool)
      requires Valid()
      modifies this`log
      ensures Valid()
      ensures accepted <==> LastIsAi(old(log))
      ensures log == WithUserMessage(old(log), text, code)
    {
      WithUserMessageKeepsInvariant(log, text, code);
      accepted := LastIsAi(log);
      log := WithUserMessage(log, text, code);
    }

    /** `getAiResponse` up to its `await`: nothing at all without a loaded
        interview; otherwise the typing flag goes on, and one request with
        the given conversation is issued unless building the prompt throws,
        which leaves the flag on with no request. */
    method BeginAiResponse(interview: Option<Interview>, current: seq<Turn>) returns (issued: bool)
      modifies this`isAiTyping, this`requests
      ensures issued <==> Ready(interview)
      ensures Loaded(interview) ==> isAiTyping
      ensures !Loaded(interview) ==> isAiTyping == old(isAiTyping)
      ensures issued ==> requests == old(requests) + [Outbound(interview.value, current).value]
      ensures !issued ==> requests == old(requests)
    {
      if !Loaded(interview) {
        return false;
      }
      isAiTyping := true;
      var body := Outbound(interview.value, current);
      if body.None? {
        return false;
      }
      requests := requests + [body.value];
      issued := true;
    }

    /** `getAiResponse` after its `await`: exactly one interviewer turn is
        appended, the editor is replaced by a parsed reply's code, and the
        typing flag goes off on every path. */
    method FinishAiResponse(outcome: AiOutcome)
      requires Valid()
      modifies this`log, this`code, this`isAiTyping
      ensures Valid()
      ensures log == old(log) + [ReplyTurn(outcome)]
      ensures code == CodeAfter(outcome, old(code))
      ensures !isAiTyping
    {
      ReplyKeepsInvariant(log, outcome);
      log := log + [ReplyTurn(outcome)];
      if outcome.Parsed? && HasCode(outcome.code) {
        code := outcome.code.value;
      }
      isAiTyping := false;
    }

    /** The whole `getAiResponse` call when the response is `outcome`. When
        the prompt throws, the call rejects before its `try`: no turn, and
        the typing flag stays on for good. */
    method GetAiResponse(interview: Option<Interview>, current: seq<Turn>, outcome: AiOutcome)
      returns (issued: bool)
      requires Valid()
      modifies this
      ensures Valid()
      ensures issued <==> Ready(interview)
      ensures !issued ==> log == old(log) && code == old(code) && requests == old(requests)
      ensures !Loaded(interview) ==> isAiTyping == old(isAiTyping)
      ensures Loaded(interview) && !issued ==> isAiTyping
      ensures issued ==> requests == old(requests) + [Outbound(interview.value, current).value]
                         && log == old(log) + [ReplyTurn(outcome)]
                         && code == CodeAfter(outcome, old(code)) && !isAiTyping
    {
      issued := BeginAiResponse(interview, current);
      if issued {
        FinishAiResponse(outcome);
      }
    }

    /** The effect on every log change: a candidate turn as the latest entry
        calls `getAiResponse` with the whole log, which issues one request
        when the interview is ready; anything else issues none. */
    method OnLogChanged(interview: Option<Interview>) returns (issued: bool)
      modifies this`isAiTyping, this`requests
      ensures issued <==> LastIsUser(log) && Ready(interview)
      ensures isAiTyping == (if LastIsUser(log) && Loaded(interview) then true else old(isAiTyping))
      ensures issued ==> requests == old(requests) + [Outbound(interview.value, log).value]
      ensures !issued ==> requests == old(requests)
    {
      issued := false;
      if LastIsUser(log) {
        issued := BeginAiResponse(interview, log);
      }
    }

    /** `startInterview`: the opening request, with an empty history, only for
        a present interview and an empty log (and, through `getAiResponse`,
        a ready one). */
    method StartInterview(interview: Option<Interview>) returns (issued: bool)
      modifies this`isAiTyping, this`requests
      ensures issued <==> interview.Some? && log == [] && Ready(interview)
      ensures isAiTyping == (if log == [] && Loaded(interview) then true else old(isAiTyping))
      ensures issued ==> requests == old(requests) + [Outbound(interview.value, []).value]
      ensures !issued ==> requests == old(requests)
    {
      issued := false;
      if interview.Some? && |log| == 0 {
        issued := BeginAiResponse(interview, []);
      }
    }
  }

  /** The opening of an interview: one request with an empty history, whose
      parsed reply becomes the only turn. */
  method OpenInterview(interview: Interview, question: string) returns (flow: Flow)
    requires Ready(Some(interview))
    ensures fresh(flow) && flow.Valid()
    ensures flow.log == [Turn(Ai, question, None)]
    ensures flow.requests == [Outbound(interview, []).value]
  {
    flow := new Flow();
    var started := flow.StartInterview(Some(interview));
    assert flow.requests == [Outbound(interview, []).value];
    flow.FinishAiResponse(Parsed(question, None));
  }

  /** A loaded row without `interview_type`: the opening call turns the
      typing flag on and then throws, so no request goes out, no turn ever
      arrives and the flag is never cleared. */
  method UntypedInterviewStalls(interview: Interview) returns (flow: Flow)
    requires Loaded(Some(interview)) && interview.interviewType.None?
    ensures fresh(flow) && flow.Valid()
    ensures flow.isAiTyping && flow.log == [] && flow.requests == []
  {
    flow := new Flow();
    var started := flow.StartInterview(Some(interview));
  }

  /** The happy-path scenario: the opening request has an empty history, the
      reply becomes the one interviewer turn, the spoken answer is appended,
      and the second request carries the two-turn history. */
  method HappyPath(interview: Interview, question: string, answer: string)
    returns (requests: seq<ChatRequest>, log: seq<Turn>)
    requires Ready(Some(interview))
    ensures log == [Turn(Ai, question, None), Turn(User, answer, None)]
    ensures requests == [Outbound(interview, []).value, Outbound(interview, log).value]
  {
    var flow := OpenInterview(interview, question);
    ghost var first := flow.log;
    ghost var opening := flow.requests;
    assert LastIsAi(first);
    var accepted := flow.AddUserMessage(answer, None);
    log := flow.log;
    assert log == first + [Turn(User, answer, None)];
    assert LastIsUser(log);
    var next := flow.OnLogChanged(Some(interview));
    requests := flow.requests;
    assert requests == opening + [Outbound(interview, log).value];
  }
}
