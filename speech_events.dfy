/**
 * The two effects of `src/hooks/useSpeechEvents.js` that bridge the
 * conversation log and the speech services: speak every new interviewer
 * text once, and turn finished speech into a candidate turn.
 */
module SpeechEvents {
  import opened Wrappers
  import opened InterviewFlow
  import SpeechToText

  /** The speech-output calls the speak effect makes, in order. */
  datatype SpeechCommand = CancelSpeech | Speak(text: string, voiceURI: string)

  function LastText(log: seq<Turn>): string
    requires |log| > 0
  {
    log[|log| - 1].text
  }

  /** One run of the speak effect: the new last-spoken marker and the calls
      made. Only an interviewer turn whose text differs from the marker is
      spoken: cancel, record the text, then speak it with the voice. */
  function SpeakStep(lastSpoken: Option<string>, log: seq<Turn>, voiceURI: string)
    : (r: (Option<string>, seq<SpeechCommand>))
    ensures r.1 != [] <==> LastIsAi(log) && lastSpoken != Some(LastText(log))
    ensures r.1 != [] ==> r == (Some(LastText(log)), [CancelSpeech, Speak(LastText(log), voiceURI)])
    ensures r.1 == [] ==> r.0 == lastSpoken
  {
    if LastIsAi(log) && lastSpoken != Some(LastText(log)) then
      (Some(LastText(log)), [CancelSpeech, Speak(LastText(log), voiceURI)])
    else
      (lastSpoken, [])
  }

  /** The speak effect run once per log update, in order. */
  function RunSpeak(lastSpoken: Option<string>, logs: seq<seq<Turn>>, voiceURI: string)
    : (Option<string>, seq<SpeechCommand>)
    decreases |logs|
  {
    if logs == [] then (lastSpoken, [])
    else
      var first := SpeakStep(lastSpoken, logs[0], voiceURI);
      var rest := RunSpeak(first.0, logs[1..], voiceURI);
      (rest.0, first.1 + rest.1)
  }

  function SpeakCount(cmds: seq<SpeechCommand>): nat {
    if cmds == [] then 0 else (if cmds[0].Speak? then 1 else 0) + SpeakCount(cmds[1..])
  }

  lemma {:induction false} SpeakCountAppend(a: seq<SpeechCommand>, b: seq<SpeechCommand>)
    ensures SpeakCount(a + b) == SpeakCount(a) + SpeakCount(b)
  {
    if a == [] {
      assert a + b == b;
    } else {
      assert (a + b)[1..] == a[1..] + b;
      SpeakCountAppend(a[1..], b);
    }
  }

  /** Speak-once: over any run of log updates whose latest interviewer text
      is always `t` (updates ending in a candidate turn, or empty, allowed),
      `t` is spoken at most once, and not at all if it was spoken before. */
  lemma {:induction false} SpeakOnce(lastSpoken: Option<string>, logs: seq<seq<Turn>>, voiceURI: string, t: string)
    requires forall k :: 0 <= k < |logs| && LastIsAi(logs[k]) ==> LastText(logs[k]) == t
    ensures SpeakCount(RunSpeak(lastSpoken, logs, voiceURI).1) <= 1
    ensures lastSpoken == Some(t) ==> SpeakCount(RunSpeak(lastSpoken, logs, voiceURI).1) == 0
    decreases |logs|
  {
    if logs != [] {
      var first := SpeakStep(lastSpoken, logs[0], voiceURI);
      SpeakOnce(first.0, logs[1..], voiceURI, t);
      SpeakCountAppend(first.1, RunSpeak(first.0, logs[1..], voiceURI).1);
      assert SpeakCount(first.1) == if first.1 == [] then 0 else 1;
    }
  }

  /** The speech output calls and the last-spoken marker (`lastSpokenTextRef`). */
  class SpeechCoordinator {
    var lastSpoken: Option<string>
    var commands: seq<SpeechCommand>

    constructor ()
      ensures lastSpoken == None && commands == []
    {
      lastSpoken := None;
      commands := [];
    }

    /** The speak effect, run after a log update. The marker is written
        before `speak` is called. */
    method OnConversationChanged(log: seq<Turn>, voiceURI: string)
      modifies this
      ensures lastSpoken == SpeakStep(old(lastSpoken), log, voiceURI).0
      ensures commands == old(commands) + SpeakStep(old(lastSpoken), log, voiceURI).1
    {
      if |log| == 0 {
        return;
      }
      var last := log[|log| - 1];
      if last.sender == Ai && lastSpoken != Some(last.text) {
        commands := commands + [CancelSpeech];
        lastSpoken := Some(last.text);
        commands := commands + [Speak(last.text, voiceURI)];
      }
    }
  }

  /** The transcript effect: finished, non-empty speech is offered to
      `addUserMessage` once and the transcript is cleared whether or not the
      turn was accepted; while listening, or with no speech, nothing happens. */
  method OnSpeechChanged(flow: Flow, recognizer: SpeechToText.Recognizer)
    requires flow.Valid()
    modifies flow`log, recognizer`transcript, recognizer`finalPrefix
    ensures flow.Valid()
    ensures old(recognizer.transcript) != "" && !recognizer.isListening ==>
              flow.log == WithUserMessage(old(flow.log), old(recognizer.transcript), None)
              && recognizer.transcript == "" && recognizer.finalPrefix == ""
    ensures old(recognizer.transcript) == "" || recognizer.isListening ==>
              flow.log == old(flow.log) && recognizer.transcript == old(recognizer.transcript)
              && recognizer.finalPrefix == old(recognizer.finalPrefix)
  {
    var speech := recognizer.transcript;
    if speech != "" && !recognizer.isListening {
      var accepted := flow.AddUserMessage(speech, None);
      recognizer.SetTranscript("");
    }
  }

  const CodeAcknowledgement := "I have finished writing my code. Here is my solution."

  /** Code submission while capture is active: capture is stopped first, the
      code turn is appended, and the speech still buffered when the
      recogniser ends is discarded rather than appended. */
  method CodeSubmissionWins(flow: Flow, recognizer: SpeechToText.Recognizer, code: string)
    requires flow.Valid() && LastIsAi(flow.log)
    requires recognizer.Valid() && recognizer.initialized && recognizer.isListening
    modifies flow`log, recognizer
    ensures flow.Valid()
    ensures flow.log == old(flow.log) + [Turn(User, CodeAcknowledgement, Some(code))]
    ensures recognizer.transcript == "" && !recognizer.isListening
    ensures recognizer.engine == old(recognizer.engine) + [SpeechToText.Stop]
  {
    recognizer.StopListening(false);
    var accepted := flow.AddUserMessage(CodeAcknowledgement, Some(code));
    recognizer.OnEnd(false);
    OnSpeechChanged(flow, recognizer);
  }
}
