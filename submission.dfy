/**
 * The end-of-interview submission of `src/hooks/useSubmission.js`. The
 * confirmed submission stops the microphone and the voice, asks `/api/chat`
 * for the final feedback on the transcript, writes the results onto the
 * interview row and moves to the feedback page; any failure alerts and
 * re-enables the button. The `fetch`, the Supabase update, the router and
 * the clock are outside the model: their outcomes are parameters, and what
 * the hook asks of them is kept, in order, as a list of effects.
 */
module Submission {
  import opened Wrappers
  import opened InterviewFlow
  import opened FacialFeedback

  const Gathering := "Gathering your responses..."
  const Analyzing := "Analyzing your interview transcript..."
  const Asking := "Asking the AI for overall feedback..."
  const Saving := "Saving your results to the database..."
  const AllDone := "All done! Redirecting to your results..."
  const SubmitError := "There was an error submitting your interview. Please try again."

  /** What the final feedback prompt is built from; its wording is not modelled. */
  datatype FeedbackPrompt = FeedbackPrompt(transcript: seq<Turn>, emotions: seq<EmotionEntry>)

  type FeedbackRequest = seq<ApiMessage<FeedbackPrompt>>

  /** The `messages` of the feedback request: the log as chat messages, then
      the system prompt. */
  function FinalMessages(log: seq<Turn>, emotions: seq<EmotionEntry>): (r: FeedbackRequest)
    ensures |r| == |log| + 1
    ensures r[..|log|] == ToApiMessages(log)
    ensures r[|log|] == Instruction(FeedbackPrompt(log, emotions))
  {
    ToApiMessages<FeedbackPrompt>(log) + [Instruction(FeedbackPrompt(log, emotions))]
  }

  /** The system prompt is the only instruction of the request, and it comes last. */
  lemma FeedbackPromptLast(log: seq<Turn>, emotions: seq<EmotionEntry>)
    ensures var r := FinalMessages(log, emotions);
            && r[|r| - 1].Instruction?
            && (forall i :: 0 <= i < |r| - 1 ==> r[i] == Said(RoleOf(log[i].sender), log[i].text))
            && (forall i :: 0 <= i < |r| && r[i].Instruction? ==> i == |r| - 1)
  {
    var r := FinalMessages(log, emotions);
    forall i | 0 <= i < |r| - 1
      ensures r[i] == Said(RoleOf(log[i].sender), log[i].text)
    {
      assert r[i] == r[..|log|][i];
    }
  }

  /** The columns the update writes. */
  datatype InterviewUpdate = InterviewUpdate(
    transcript: seq<Turn>,
    codeSnippet: seq<string>,
    emotionSummary: seq<EmotionEntry>,
    aiFeedback: string,
    endedAt: string)

  /** What `/api/chat` answered: a non-ok status, a thrown `fetch` or body
      parse, or the parsed body, which is kept as the feedback. */
  datatype FeedbackOutcome = NotOk | Threw | FeedbackBody(feedback: string)

  datatype Effect =
    | StopListening
    | CancelSpeech
    | RequestFeedback(messages: FeedbackRequest)
    | WriteUpdate(id: string, update: InterviewUpdate)
    | Redirect(path: string)
    | Alert(message: string)

  function FeedbackPath(id: string): string {
    "/feedback/" + id
  }

  /** A redirect comes straight after the write of the interview it names,
      and a write straight after a feedback request. */
  predicate OrderedEffects(effects: seq<Effect>) {
    && (forall i :: 0 <= i < |effects| && effects[i].Redirect? ==>
          0 < i && effects[i - 1].WriteUpdate? && effects[i].path == FeedbackPath(effects[i - 1].id))
    && (forall i :: 0 <= i < |effects| && effects[i].WriteUpdate? ==>
          0 < i && effects[i - 1].RequestFeedback?)
  }

  /** Appending a block that is ordered by itself keeps the log ordered (an
      ordered block cannot start with a write or a redirect). */
  lemma OrderedAppend(a: seq<Effect>, b: seq<Effect>)
    requires OrderedEffects(a) && OrderedEffects(b)
    ensures OrderedEffects(a + b)
  {
    var c := a + b;
    forall i | 0 <= i < |c| && c[i].Redirect?
      ensures 0 < i && c[i - 1].WriteUpdate? && c[i].path == FeedbackPath(c[i - 1].id)
    {
      if i >= |a| {
        assert c[i] == b[i - |a|];
        assert c[i - 1] == b[i - |a| - 1];
      }
    }
    forall i | 0 <= i < |c| && c[i].WriteUpdate?
      ensures 0 < i && c[i - 1].RequestFeedback?
    {
      if i >= |a| {
        assert c[i] == b[i - |a|];
        assert c[i - 1] == b[i - |a| - 1];
      }
    }
  }

  /** Whether the feedback answer and the update got through. */
  predicate Submitted(feedback: FeedbackOutcome, updateError: Option<string>) {
    feedback.FeedbackBody? && updateError.None?
  }

  /** The effects of a submission that passes the guard: stop the
      microphone if it is on, cancel speech, ask for feedback, then either
      alert (no usable answer), or write and alert (failed update), or write
      and redirect. */
  function SubmissionEffects(
    id: string, isListening: bool, log: seq<Turn>, codeLog: seq<string>, emotionLog: seq<EmotionEntry>,
    feedback: FeedbackOutcome, updateError: Option<string>, now: string): seq<Effect>
  {
    (if isListening then [StopListening] else [])
    + [CancelSpeech, RequestFeedback(FinalMessages(log, emotionLog))]
    + (if !feedback.FeedbackBody? then [Alert(SubmitError)]
       else
         var write := WriteUpdate(id, InterviewUpdate(log, codeLog, emotionLog, feedback.feedback, now));
         if updateError.Some? then [write, Alert(SubmitError)] else [write, Redirect(FeedbackPath(id))])
  }

  /** The status messages shown after "Gathering...", up to where the run stopped. */
  function SubmissionTrail(feedback: FeedbackOutcome, updateError: Option<string>): seq<string> {
    [Analyzing, Asking]
    + (if feedback.FeedbackBody? then [Saving] + (if updateError.None? then [AllDone] else []) else [])
  }

  /** The effects of a submission are ordered: the write follows the
      feedback request and the redirect follows the write. */
  lemma SubmissionEffectsOrdered(
    id: string, isListening: bool, log: seq<Turn>, codeLog: seq<string>, emotionLog: seq<EmotionEntry>,
    feedback: FeedbackOutcome, updateError: Option<string>, now: string)
    ensures OrderedEffects(SubmissionEffects(id, isListening, log, codeLog, emotionLog, feedback, updateError, now))
  {
    var entry: seq<Effect> := (if isListening then [StopListening] else [])
                              + [CancelSpeech, RequestFeedback(FinalMessages(log, emotionLog))];
    var e := SubmissionEffects(id, isListening, log, codeLog, emotionLog, feedback, updateError, now);
    assert e == entry + e[|entry|..];
    assert e[|entry| - 1].RequestFeedback?;
  }

  /** How a submission ends: with the redirect exactly when both calls got
      through and with the alert otherwise; nothing is written without a
      usable answer, and the write holds the log, the code log, the emotion
      log and the answer. */
  lemma SubmissionEffectsOutcome(
    id: string, isListening: bool, log: seq<Turn>, codeLog: seq<string>, emotionLog: seq<EmotionEntry>,
    feedback: FeedbackOutcome, updateError: Option<string>, now: string)
    ensures var e := SubmissionEffects(id, isListening, log, codeLog, emotionLog, feedback, updateError, now);
            && e[|e| - 1] == (if Submitted(feedback, updateError) then Redirect(FeedbackPath(id)) else Alert(SubmitError))
            && (Redirect(FeedbackPath(id)) in e <==> Submitted(feedback, updateError))
            && (Alert(SubmitError) in e <==> !Submitted(feedback, updateError))
            && (!feedback.FeedbackBody? ==> forall i :: 0 <= i < |e| ==> !e[i].WriteUpdate?)
            && (feedback.FeedbackBody? ==>
                  WriteUpdate(id, InterviewUpdate(log, codeLog, emotionLog, feedback.feedback, now)) in e)
  {
    var entry: seq<Effect> := (if isListening then [StopListening] else [])
                              + [CancelSpeech, RequestFeedback(FinalMessages(log, emotionLog))];
    var e := SubmissionEffects(id, isListening, log, codeLog, emotionLog, feedback, updateError, now);
    var tail := e[|entry|..];
    assert e == entry + tail;
    assert forall x :: x in entry ==> !x.Redirect? && !x.Alert? && !x.WriteUpdate?;
  }

  /** The status messages after "Gathering..." run in their fixed order,
      go past "Asking..." exactly when the answer was usable, and reach
      "All done" exactly on success. */
  lemma SubmissionTrailSteps(feedback: FeedbackOutcome, updateError: Option<string>)
    ensures var t := SubmissionTrail(feedback, updateError);
            && 2 <= |t| <= 4 && t == [Analyzing, Asking, Saving, AllDone][..|t|]
            && (|t| > 2 <==> feedback.FeedbackBody?)
            && (t[|t| - 1] == AllDone <==> Submitted(feedback, updateError))
  {
  }

  class Submitter {
    const id: string
    var isSubmitting: bool
    var showConfirmation: bool
    var submissionFeedback: string
    /** Every value `submissionFeedback` has held, the current one last. */
    var statusTrail: seq<string>
    var effects: seq<Effect>

    ghost predicate Valid()
      reads this
    {
      && OrderedEffects(effects)
      && |statusTrail| > 0 && statusTrail[|statusTrail| - 1] == submissionFeedback
    }

    constructor (id: string)
      ensures Valid()
      ensures this.id == id && !isSubmitting && !showConfirmation
      ensures submissionFeedback == Gathering && statusTrail == [Gathering] && effects == []
    {
      this.id := id;
      isSubmitting := false;
      showConfirmation := false;
      submissionFeedback := Gathering;
      statusTrail := [Gathering];
      effects := [];
    }

    /** `handleSubmitClick`. */
    method HandleSubmitClick(isListening: bool)
      requires Valid()
      modifies this
      ensures Valid()
      ensures showConfirmation
      ensures effects == old(effects) + (if isListening then [StopListening] else []) + [CancelSpeech]
      ensures isSubmitting == old(isSubmitting) && submissionFeedback == old(submissionFeedback)
      ensures statusTrail == old(statusTrail)
    {
      var stop: seq<Effect> := if isListening then [StopListening] else [];
      OrderedAppend(effects, stop + [CancelSpeech]);
      effects := effects + (stop + [CancelSpeech]);
      showConfirmation := true;
    }

    /** `handleCloseConfirmation`. */
    method HandleCloseConfirmation()
      modifies this
      ensures !showConfirmation
      ensures isSubmitting == old(isSubmitting) && submissionFeedback == old(submissionFeedback)
      ensures statusTrail == old(statusTrail) && effects == old(effects)
    {
      showConfirmation := false;
    }

    /** `handleSubmitInterview` (the confirmation's submit button): the
        answer of `/api/chat` is `feedback`, the update's error is
        `updateError`, and `now` the `ended_at` timestamp. A call while a
        submission is in flight does nothing. */
    method HandleSubmitInterview(
      isListening: bool, log: seq<Turn>, codeLog: seq<string>, emotionLog: seq<EmotionEntry>,
      feedback: FeedbackOutcome, updateError: Option<string>, now: string)
      requires Valid()
      modifies this
      ensures Valid()
      ensures old(isSubmitting) ==>
                && isSubmitting && showConfirmation == old(showConfirmation)
                && submissionFeedback == old(submissionFeedback)
                && statusTrail == old(statusTrail) && effects == old(effects)
      ensures !old(isSubmitting) ==>
                && !showConfirmation
                && isSubmitting == Submitted(feedback, updateError)
                && statusTrail == old(statusTrail) + SubmissionTrail(feedback, updateError)
                && effects == old(effects)
                     + SubmissionEffects(id, isListening, log, codeLog, emotionLog, feedback, updateError, now)
    {
      if isSubmitting {
        return;
      }
      isSubmitting := true;
      showConfirmation := false;
      var entry: seq<Effect> := (if isListening then [StopListening] else [])
                                  + [CancelSpeech, RequestFeedback(FinalMessages(log, emotionLog))];
      SetStatus(Analyzing);
      SetStatus(Asking);
      var tail: seq<Effect>;
      if !feedback.FeedbackBody? {
        tail := [Alert(SubmitError)];
        isSubmitting := false;
      } else {
        SetStatus(Saving);
        var write := WriteUpdate(id, InterviewUpdate(log, codeLog, emotionLog, feedback.feedback, now));
        if updateError.Some? {
          tail := [write, Alert(SubmitError)];
          isSubmitting := false;
        } else {
          SetStatus(AllDone);
          tail := [write, Redirect(FeedbackPath(id))];
        }
      }
      assert entry + tail == SubmissionEffects(id, isListening, log, codeLog, emotionLog, feedback, updateError, now);
      SubmissionEffectsOrdered(id, isListening, log, codeLog, emotionLog, feedback, updateError, now);
      OrderedAppend(effects, entry + tail);
      effects := effects + (entry + tail);
    }

    /** `setSubmissionFeedback(message)`. */
    method SetStatus(message: string)
      modifies this`submissionFeedback, this`statusTrail
      ensures submissionFeedback == message && statusTrail == old(statusTrail) + [message]
    {
      submissionFeedback := message;
      statusTrail := statusTrail + [message];
    }
  }

  /** A second confirmed submission while the first is in flight does
      nothing, and a successful one ends on the results page. */
  method SubmitTwice(id: string, log: seq<Turn>, feedback: string, now: string)
    returns (effects: seq<Effect>)
    ensures effects == [CancelSpeech, RequestFeedback(FinalMessages(log, [])),
                        WriteUpdate(id, InterviewUpdate(log, [], [], feedback, now)),
                        Redirect(FeedbackPath(id))]
  {
    var s := new Submitter(id);
    s.HandleSubmitInterview(false, log, [], [], FeedbackBody(feedback), None, now);
    s.HandleSubmitInterview(false, log, [], [], FeedbackBody(feedback), None, now);
    effects := s.effects;
  }
}
