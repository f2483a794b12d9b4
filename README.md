# CodeReflex interview core in Dafny

CodeReflex runs simulated job interviews in the browser. A candidate fills
in an interview form and can upload a PDF resume. The app then holds a
spoken conversation with a language-model interviewer. It captures the
candidate's replies with the browser's speech recogniser and reads the
interviewer's turns aloud. A timer runs, and the webcam can optionally
sample facial expressions. At the end the transcript is sent off for
overall feedback and saved. Around this sit a dashboard, a local cache of
the user's interviews, a credit balance, toasts, and two server routes:
`/api/chat` forwards messages to OpenRouter, and `/api/extract-pdf` turns
a PDF into text.

This project models that core and proves properties of the model:

- The React hooks and components whose state changes step by step are
  classes. Each has the hook's state as fields, and one method per handler
  or effect with a `modifies` frame. The new state is stated in its
  `ensures`.
- The pure parts are functions and lemmas: the history text, the chat
  messages, the voice filter and sort, `formatTime`, the schema, the PDF
  text cleanup, the credit rules and the route answers.
- Everything outside the program becomes a parameter. That covers
  `fetch`, Supabase, the speech engines, face-api, `pdfreader`, timers,
  `Date.now`, `Math.random` and `localStorage`. A call's outcome is a
  datatype value passed in. The calls a hook makes are recorded, in order,
  in a field (`requests`, `commands`, `engine`, `calls`, `effects`).

One module per source file:

| module | source |
|---|---|
| `InterviewFlow` | `src/hooks/useInterviewFlow.js` |
| `SpeechEvents` | `src/hooks/useSpeechEvents.js` |
| `Submission` | `src/hooks/useSubmission.js` |
| `SpeechToText` | `src/hooks/useSpeechToText.js` |
| `TextToSpeech` | `src/hooks/useTextToSpeech.js` |
| `Timer` | `src/components/Timer.js` |
| `FacialFeedback` | `src/components/FacialFeedback.js` |
| `InterviewValidation` | `src/lib/validations/interview.js` |
| `InterviewForm` | `src/components/InterviewFormModal.js` |
| `ExtractPdf` | `src/app/api/extract-pdf/route.js` |
| `Cache` | `src/context/CacheContext.js` |
| `Credits` | `src/lib/credits.js` |
| `Toasts` | `src/context/ToastContext.js` |
| `ChatRoute` | `src/app/api/chat/route.js` |
| `Dashboard` | `src/app/dashboard/page.js` |

`Wrappers` (`Option`, `Result`) and `Strings` are shared helpers.
`Strings` holds the JavaScript string built-ins the core relies on:
`trim`, `split`/`join`, `toLowerCase`, `padStart`, decimal rendering, and
the code-point order used for sorting.

## Model

| member | source | states |
|---|---|---|
| InterviewFlow.RenderTurn | src/hooks/useInterviewFlow.js:19-29 | An entry renders as `Interviewer: `/`Candidate: ` plus its text. A fenced `javascript` block follows exactly when the code is truthy, and the block holds that code. |
| InterviewFlow.RenderedTurns | src/hooks/useInterviewFlow.js:19-28 | One rendered entry per log entry, in log order. |
| InterviewFlow.HistoryAppend | src/hooks/useInterviewFlow.js:19-29 | Appending a turn to the log extends the history by a blank line and that turn's rendering. A single turn's history is its rendering. |
| InterviewFlow.ToApiMessages | src/hooks/useInterviewFlow.js:238-241 | The log maps to chat messages with `ai`→assistant and anything else→user. Length, order and text are kept. |
| InterviewFlow.Outbound | src/hooks/useInterviewFlow.js:35-51 | For a row without `interview_type` there is no body, because `toUpperCase` throws while the prompt is built. Otherwise the body is one system message followed by the whole log as chat messages. The system message is built from every column the prompt interpolates (company, role, job description, resume, type, focus areas, difficulty, duration, personality), the history and `isCodeSubmission`. |
| InterviewFlow.ReplyTurn | src/hooks/useInterviewFlow.js:255-300 | Every outcome yields exactly one interviewer turn. A parsed reply keeps its text, and its code only when the code is truthy. Unparseable content becomes the text with null code. A non-ok status or a throw gives the apology. |
| InterviewFlow.WithUserMessage | src/hooks/useInterviewFlow.js:323-334 | The candidate turn is appended iff the log is non-empty and ends with an interviewer turn. Otherwise the log is returned unchanged, including when it is empty. |
| InterviewFlow.WithUserMessageKeepsInvariant | src/hooks/useInterviewFlow.js:323-334 | The guarded append keeps "every candidate turn directly follows an interviewer turn". |
| InterviewFlow.ReplyKeepsInvariant | src/hooks/useInterviewFlow.js:263-300 | Appending the interviewer turn of any outcome keeps that invariant. |
| InterviewFlow.CodeAfter | src/hooks/useInterviewFlow.js:263-281 | The editor buffer changes only for a parsed reply with truthy code, and then becomes that code. |
| InterviewFlow.Flow.constructor | src/hooks/useInterviewFlow.js:6 | An empty log, not typing, the editor holds the initial placeholder, no requests. |
| InterviewFlow.Flow.AddUserMessage | src/hooks/useInterviewFlow.js:323-334 | The log becomes the guarded append. The turn is accepted iff the previous last entry is the interviewer's, and the invariant holds afterwards. |
| InterviewFlow.Flow.BeginAiResponse | src/hooks/useInterviewFlow.js:10-253 | Without `job_role` and `interviewer_personality` nothing changes. Otherwise the typing flag goes on. Exactly one request with the outbound body is issued iff the row has a type; without one the prompt throws, and no request goes out. |
| InterviewFlow.Flow.FinishAiResponse | src/hooks/useInterviewFlow.js:255-303 | Exactly one interviewer turn is appended, the editor follows `CodeAfter`, and the typing flag is off on every path. |
| InterviewFlow.Flow.GetAiResponse | src/hooks/useInterviewFlow.js:8-306 | A request is issued iff the interview is loaded and has a type. Without one, log, code and requests are unchanged. An unloaded interview also leaves the typing flag alone; a loaded one without a type leaves it on. With a request, there is one appended turn and typing ends off. |
| InterviewFlow.Flow.OnLogChanged | src/hooks/useInterviewFlow.js:308-315 | One request carrying the whole log is issued iff the latest entry is the candidate's and the interview is loaded and has a type. A candidate-latest log with a loaded interview turns typing on either way. Any other log issues nothing and leaves the flag alone. |
| InterviewFlow.Flow.StartInterview | src/hooks/useInterviewFlow.js:317-321 | The opening request, with an empty history, is issued iff the interview is present, loaded and typed and the log is empty. An empty log with a loaded interview turns typing on even when the prompt throws. |
| InterviewFlow.OpenInterview | src/hooks/useInterviewFlow.js:317-321 | Scenario. Starting a fresh interview that is loaded and has a type issues one request with an empty history. Its parsed reply, without code, becomes the only turn. |
| InterviewFlow.UntypedInterviewStalls | src/hooks/useInterviewFlow.js:17-48 | Scenario. Starting a fresh loaded interview without a type leaves the typing flag on, the log empty and no request sent. |
| InterviewFlow.HappyPath | src/hooks/useInterviewFlow.js:308-334 | Scenario. After the opening, one accepted answer makes the two-turn log, interviewer then candidate. The log change issues a second request built from exactly that log. |
| SpeechEvents.SpeakStep | src/hooks/useSpeechEvents.js:15-28 | Speech happens iff the last entry is the interviewer's and its text differs from the last-spoken marker. Then the calls are cancel followed by speak with the voice, and the marker becomes the text. Otherwise nothing is called and the marker is kept, which covers an empty log. |
| SpeechEvents.SpeakOnce | src/hooks/useSpeechEvents.js:20-27 | Over any run of log updates whose latest interviewer text is always `t`, `t` is spoken at most once, and never if it was already the marker. |
| SpeechEvents.SpeakCountAppend | src/hooks/useSpeechEvents.js:15-28 | Speak calls over two runs add up. |
| SpeechEvents.SpeechCoordinator.constructor | src/hooks/useSpeechEvents.js:15-28 | No text spoken yet and no calls made. |
| SpeechEvents.SpeechCoordinator.OnConversationChanged | src/hooks/useSpeechEvents.js:15-28 | The marker and the calls made are those of `SpeakStep`. The marker is written before `speak`. |
| SpeechEvents.OnSpeechChanged | src/hooks/useSpeechEvents.js:31-36 | Non-empty speech while not listening is offered once to the guarded append, and the transcript and prefix are then cleared whether or not it was accepted. While listening, or with no speech, nothing changes. |
| SpeechEvents.CodeSubmissionWins | src/hooks/useSpeechEvents.js:31-35 | Scenario. The interview page's code handler stops capture and appends the code turn. The speech still buffered when the recogniser ends is then offered and refused, because the last turn is the candidate's, and the transcript is cleared. |
| Submission.FinalMessages | src/hooks/useSubmission.js:65-73 | The feedback request is the log as assistant/user messages, in order, followed by exactly one system message built from the transcript and the emotion log. |
| Submission.FeedbackPromptLast | src/hooks/useSubmission.js:65-73 | The system message is last and is the only instruction. Every earlier message is the corresponding log entry with its mapped role. |
| Submission.OrderedAppend | src/hooks/useSubmission.js:75-99 | Appending an ordered block of effects keeps the order "a redirect directly follows the write of the same id, which directly follows a feedback request". |
| Submission.Submitter.constructor | src/hooks/useSubmission.js:17-19 | Not submitting, confirmation hidden, status "Gathering your responses...", no effects. |
| Submission.Submitter.HandleSubmitClick | src/hooks/useSubmission.js:117-121 | Listening is stopped only if active and speech is always cancelled. The confirmation is shown and nothing else changes. |
| Submission.Submitter.HandleCloseConfirmation | src/hooks/useSubmission.js:123-125 | Only the confirmation is hidden. |
| Submission.Submitter.HandleSubmitInterview | src/hooks/useSubmission.js:22-115 | A call while already submitting changes nothing (line 23). Otherwise the confirmation hides and `isSubmitting` stays on only if both the answer and the update got through. The effects appended are `SubmissionEffects` and the status messages `SubmissionTrail`, whose meaning the three lemmas below state. The effect log stays ordered. |
| Submission.SubmissionEffectsOrdered | src/hooks/useSubmission.js:24-99 | The effects of one submission are ordered: the write directly follows the feedback request, and the redirect directly follows the write of the same `id`. |
| Submission.SubmissionEffectsOutcome | src/hooks/useSubmission.js:75-104 | The run ends with the redirect to `/feedback/{id}` exactly when the answer and the update both got through, and with the alert otherwise. Without a usable answer nothing is written. With one, the write holds the transcript, code log, emotion log, raw feedback and timestamp. |
| Submission.SubmissionTrailSteps | src/hooks/useSubmission.js:30-98 | The status messages run Analyzing→Asking→Saving→All done and stop where the run stopped. They pass Asking exactly when the answer was usable, and reach All done exactly on success. |
| Submission.Submitter.SetStatus | src/hooks/useSubmission.js:30 | The status becomes the message, and the trail records it last. |
| Submission.SubmitTwice | src/hooks/useSubmission.js:23 | Scenario. A second confirmed submission after a successful one adds no effect, so there is exactly one request, one write and one redirect. |
| SpeechToText.AssembleTranscript | src/hooks/useSpeechToText.js:53-67 | The loop's transcript is the saved prefix, then all final parts in index order, then all interim parts in index order. |
| SpeechToText.PartsAccounted | src/hooks/useSpeechToText.js:58-65 | Each part is counted once, as final or as interim, so no spoken text is lost or doubled. |
| SpeechToText.AllFinalHasNoInterim | src/hooks/useSpeechToText.js:58-65 | An event whose parts are all final adds no interim text. |
| SpeechToText.Recognizer.constructor | src/hooks/useSpeechToText.js:13-24 | A recogniser exists only when the browser offers one. The errors for no window, no support and a failed setup are those of the source. |
| SpeechToText.Recognizer.SetTranscript | src/hooks/useSpeechToText.js:105-109 | Setting the transcript to `''` resets the saved prefix to `''`. Any other value keeps the prefix. |
| SpeechToText.Recognizer.OnStart | src/hooks/useSpeechToText.js:31-35 | Listening (flag and ref) on, error cleared. |
| SpeechToText.Recognizer.OnEnd | src/hooks/useSpeechToText.js:37-51 | Listening ends. Only an end the hook did not ask for restarts the recogniser, and it sets the prefix from the transcript captured at setup, which is `''`. A throwing restart sets the restart error. |
| SpeechToText.Recognizer.OnResult | src/hooks/useSpeechToText.js:53-73 | The transcript becomes the prefix, the finals and the interims, and the error is cleared. |
| SpeechToText.Recognizer.OnError | src/hooks/useSpeechToText.js:76-81 | Listening ends and the error is "Speech recognition error: " followed by the event's code. |
| SpeechToText.Recognizer.OnNoMatch | src/hooks/useSpeechToText.js:83-85 | The error is "No speech was recognized". |
| SpeechToText.Recognizer.StartListening | src/hooks/useSpeechToText.js:111-132 | Without a recogniser only the error "Speech recognition not initialized" is set. When already listening nothing changes. Otherwise the prefix becomes the current transcript, `start` is called, and listening turns on unless `start` throws. |
| SpeechToText.Recognizer.StopListening | src/hooks/useSpeechToText.js:134-150 | Without a recogniser only the error "Speech recognition not initialized" is set. When listening, the ref is cleared before `stop` is called and `isListening` is left for `onend`. When not listening nothing changes. |
| SpeechToText.Recognizer.Dispose | src/hooks/useSpeechToText.js:89-97 | The cleanup stops a created recogniser. |
| SpeechToText.ManualStopThenEnd | src/hooks/useSpeechToText.js:140-145 | A manual stop followed by `onend` calls `stop` once, never restarts, and ends not listening. |
| SpeechToText.UnexpectedEnd | src/hooks/useSpeechToText.js:37-50 | An end the hook did not ask for restarts exactly once, with the prefix reset to the stale `''`. |
| TextToSpeech.EnglishOnly | src/hooks/useTextToSpeech.js:14 | Exactly the voices whose `lang` starts with `en` are kept, and nothing is added. |
| TextToSpeech.EnglishOnlyByLang | src/hooks/useTextToSpeech.js:14 | The filter keeps order and repeats: for a tag starting with `en`, the voices with that tag are exactly those of the input, in input order. A voice with any other tag is dropped. |
| TextToSpeech.SortByLang | src/hooks/useTextToSpeech.js:15 | The result is a permutation of the input, sorted by `lang`. |
| TextToSpeech.InsertKeepsSorted | src/hooks/useTextToSpeech.js:15 | Inserting a voice into a sorted list keeps it sorted. |
| TextToSpeech.SortStable | src/hooks/useTextToSpeech.js:15 | The sort is stable: voices with the same tag keep their order. |
| TextToSpeech.EnglishVoices | src/hooks/useTextToSpeech.js:10-18 | The voice list is exactly the English voices, as a permutation of the filtered list, sorted by tag. |
| TextToSpeech.EnglishVoicesByLang | src/hooks/useTextToSpeech.js:10-18 | For each tag starting with `en`, the voice list holds exactly the offered voices with that tag, in offered order. Other tags are absent. |
| TextToSpeech.IndexOfUri | src/hooks/useTextToSpeech.js:39 | The index of the first voice with the URI, or the length when none has it. |
| TextToSpeech.IndexOfLang | src/hooks/useTextToSpeech.js:43 | The index of the first `en-US` voice, or the length when there is none. |
| TextToSpeech.DefaultVoice | src/components/InterviewFormModal.js:33 | The voice at the first `en-US` index when one exists, otherwise `voices[0]`. |
| TextToSpeech.SelectVoice | src/hooks/useTextToSpeech.js:39-44 | The exact URI match, else the first `en-US` voice, else the first voice. None only when the list is empty. |
| TextToSpeech.Synthesizer.constructor | src/hooks/useTextToSpeech.js:20-28 | Voices are loaded only when the page has a synthesiser. Not speaking, no calls. |
| TextToSpeech.Synthesizer.PopulateVoiceList | src/hooks/useTextToSpeech.js:10-18 | With a synthesiser the list becomes `EnglishVoices` of the offered voices. Otherwise it is unchanged. |
| TextToSpeech.Synthesizer.Speak | src/hooks/useTextToSpeech.js:30-57 | Without a synthesiser or with empty text, nothing is called. Otherwise speech in progress is cancelled first, and one utterance is queued with the `SelectVoice` voice. |
| TextToSpeech.Synthesizer.OnUtteranceStart | src/hooks/useTextToSpeech.js:46 | Speaking turns on. |
| TextToSpeech.Synthesizer.OnUtteranceEnd | src/hooks/useTextToSpeech.js:47-50 | Speaking turns off, then the callback runs once. |
| TextToSpeech.Synthesizer.OnUtteranceError | src/hooks/useTextToSpeech.js:51-54 | Speaking turns off and the callback does not run. |
| TextToSpeech.Synthesizer.Cancel | src/hooks/useTextToSpeech.js:59-64 | With a synthesiser, cancel is called and speaking turns off. Without one, nothing changes. |
| Timer.Settle | src/components/Timer.js:8-19 | The effect: at or below zero `onTimeUp` is called once and no tick is scheduled. Above zero a tick is scheduled and no callback runs. |
| Timer.Step | src/components/Timer.js:14-16 | A scheduled tick decreases the count by exactly one. Without a scheduled tick nothing moves. |
| Timer.CountdownRun | src/components/Timer.js:6-19 | From a positive duration, after `k` ticks the count is `duration*60 - k` while positive. At zero `onTimeUp` has run exactly once and ticking has stopped for good. |
| Timer.StepsStopped | src/components/Timer.js:9-12 | Once no tick is scheduled, nothing changes any more. |
| Timer.NonPositiveDuration | src/components/Timer.js:6-12 | A zero or negative duration calls back at once and never ticks. |
| Timer.CountdownTimer.constructor | src/components/Timer.js:6 | The count starts at `duration * 60`, and the effect's first run is applied. |
| Timer.CountdownTimer.Tick | src/components/Timer.js:14-18 | A firing interval is the model's `Step`. |
| Timer.CountdownTimer.CallbackChanged | src/components/Timer.js:19 | A new `onTimeUp` re-runs the effect: a stopped timer calls back again. |
| Timer.CountdownTimer.Unmount | src/components/Timer.js:18 | The cleanup cancels the pending tick, so later firings change nothing. |
| Timer.JsRem | src/components/Timer.js:23 | JavaScript's `%` equals Dafny's on non-negative counts and lies in `[0, 60)`. |
| Timer.FormatTimeReadsBack | src/components/Timer.js:21-25 | For a non-negative count the text splits at its colon into a minutes part of two or more digits and a two-digit seconds part, and minutes*60 + seconds reads back as the count. |
| Timer.TimeColor | src/components/Timer.js:27 | Red iff fewer than 60 seconds remain, otherwise white. |
| FacialFeedback.TopIndex | src/components/FacialFeedback.js:16 | A key with a maximal score. Every later key scores strictly less, so a tie goes to the later key. |
| FacialFeedback.TopExpression | src/components/FacialFeedback.js:14-17 | `neutral` for a missing map. Otherwise the `TopIndex` key, and none only for an empty map, where the source's `reduce` throws. |
| FacialFeedback.Recent | src/components/FacialFeedback.js:85 | The last three entries, or all of them when there are fewer. |
| FacialFeedback.TallyCounts | src/components/FacialFeedback.js:86-89 | The keys of the counting object are distinct, every emotion of the window has a key, and each key's count equals that emotion's number of occurrences. |
| FacialFeedback.TallyFirstSeen | src/components/FacialFeedback.js:86-89 | Every key is an emotion of the window with a count of at least one, and the keys follow the order of each emotion's first occurrence, the insertion order `Object.keys` reports. |
| FacialFeedback.TopEmotionIsMostFrequent | src/components/FacialFeedback.js:90 | The chosen emotion occurs, and no emotion occurs more often. |
| FacialFeedback.MajorityWins | src/components/FacialFeedback.js:85-90 | Among at most three entries, an emotion seen at least twice is chosen. |
| FacialFeedback.DistinctPicksLast | src/components/FacialFeedback.js:90 | With all counts tied at one, the tie goes to the last first-seen emotion. |
| FacialFeedback.FeedbackFor | src/components/FacialFeedback.js:82-98 | There is no message iff the log has fewer than two entries. |
| FacialFeedback.FeedbackIgnoresOlderEntries | src/components/FacialFeedback.js:85 | Entries older than the last three do not affect the message. |
| FacialFeedback.FeedbackMajority | src/components/FacialFeedback.js:85-98 | An emotion found at least twice in the last three entries decides the message. |
| FacialFeedback.FeedbackMessages | src/components/FacialFeedback.js:92-98 | With two or more entries, the message is one of the four messages. |
| FacialFeedback.MessageForOther | src/components/FacialFeedback.js:97 | Any emotion other than happy, neutral and surprised gets "Maintaining a professional demeanor.". |
| FacialFeedback.EmotionSampler.constructor | src/components/FacialFeedback.js:21-24 | Models not loaded, video not ready, no sampling, empty log, no feedback. |
| FacialFeedback.EmotionSampler.OnModelsLoaded | src/components/FacialFeedback.js:26-42 | A failed load leaves the models unloaded. Sampling is rescheduled from the flags. |
| FacialFeedback.EmotionSampler.OnCanPlay | src/components/FacialFeedback.js:118 | The video becomes ready. Sampling is rescheduled from the flags. |
| FacialFeedback.EmotionSampler.SetInterviewActive | src/components/FacialFeedback.js:66-76 | Sampling runs iff the models are loaded, the interview is active and the video is ready. |
| FacialFeedback.EmotionSampler.HandleAnalysis | src/components/FacialFeedback.js:50-64 | Exactly one `{time, emotion}` entry is appended and reported iff the video is present, the models are loaded, the interview is active and a face was found. Otherwise the log is unchanged. |
| FacialFeedback.EmotionSampler.GenerateFeedback | src/components/FacialFeedback.js:78-103 | While the interview is active, the message shown is `FeedbackFor` of the log, and with fewer than two entries the old one stays. While inactive nothing is shown. |
| FacialFeedback.EmotionSampler.ClearFeedback | src/components/FacialFeedback.js:102 | The timeout hides the message. |
| InterviewValidation.ParseType | src/lib/validations/interview.js:6-8 | Only the six interview type names parse, each to its own value. |
| InterviewValidation.ParseDifficulty | src/lib/validations/interview.js:9-11 | Only Easy, Medium and Hard parse. |
| InterviewValidation.ParsePersona | src/lib/validations/interview.js:16-23 | Only the four persona names parse. |
| InterviewValidation.EnumRoundTrip | src/lib/validations/interview.js:6-23 | Every enum value's name parses back to that value. |
| InterviewValidation.Issues | src/lib/validations/interview.js:3-31 | The failing fields are exactly those whose own check fails. There are none iff the form conforms to the schema. |
| InterviewValidation.ConformsEveryField | src/lib/validations/interview.js:3-31 | A form conforms to the schema iff every field's own check passes. |
| InterviewValidation.FailingSchemaFields | src/lib/validations/interview.js:3-31 | Listing the failing fields over the whole schema finds each field whose check fails, and only those. |
| InterviewValidation.Parse | src/lib/validations/interview.js:3-31 | A form parses iff it has no issues. The parsed record carries the typed values, and `enableWebcam` defaults to false. `jobDescription` and `customFocusAreas` are the given strings, or absent when not given. A resume type is present iff a file was given, and is then the PDF type. |
| InterviewValidation.DurationBounds | src/lib/validations/interview.js:12-14 | 5 and 60 pass. 4, 61 and a non-number fail. |
| InterviewValidation.ParseRoundTrip | src/lib/validations/interview.js:3-31 | Every configuration that meets the schema's bounds parses back from its own form values. |
| InterviewForm.PersonaPrompt | src/components/InterviewFormModal.js:11-16 | The lookup of a persona the schema accepts yields a string, and that string is the persona's prompt. |
| InterviewForm.PersonaPromptKnown | src/components/InterviewFormModal.js:11-16 | Each of the four personas maps to its own prompt. It differs from the name and from the other three prompts. |
| InterviewForm.PersonaPromptPassThrough | src/components/InterviewFormModal.js:156 | Any other name that is not inherited from `Object.prototype` passes through unchanged. |
| InterviewForm.PersonaPromptInherited | src/components/InterviewFormModal.js:156 | A name inherited from `Object.prototype` (`toString`, `constructor`, `__proto__` and the others) yields the inherited member, not the name. |
| InterviewForm.FocusAreas | src/components/InterviewFormModal.js:158 | An empty or absent value gives `[]`. Otherwise the value is split on `,` and each piece trimmed. |
| InterviewForm.FocusAreasTrimmed | src/components/InterviewFormModal.js:158 | One area per comma plus one, each trimmed and comma-free. |
| InterviewForm.FocusAreasJoinBack | src/components/InterviewFormModal.js:158 | When no piece has surrounding white space, joining the areas with `,` gives back the input. |
| InterviewForm.ServerMessage | src/components/InterviewFormModal.js:80 | The error message prefers `details`, then `error`, then the default. |
| InterviewForm.ExtractTextFromPdf | src/components/InterviewFormModal.js:56-99 | A non-PDF type is rejected first, then a size over 10·1024·1024 bytes. For an accepted file, a thrown request fails with the thrown message, and a non-ok reply fails with `ServerMessage` of its body (details, then error, then the default). An ok reply without text fails with the no-text message. The upload succeeds iff the reply is ok with non-empty text, and the result is that text. |
| InterviewForm.SizeLimit | src/components/InterviewFormModal.js:64-66 | Exactly 10 MiB passes, and one byte more is rejected. |
| InterviewForm.UploadResult | src/components/InterviewFormModal.js:110-114 | An extraction whose text is only white space is a failure. Every failure carries a non-empty message. |
| InterviewForm.StoredResume | src/components/InterviewFormModal.js:145 | No resume key gives `''`. Otherwise the stored text under the key, or `null` when storage lacks it. |
| InterviewForm.RowFor | src/components/InterviewFormModal.js:148-161 | The row carries the user id and the persona prompt. It holds the focus areas split and trimmed, and the stored resume text and time given. Job role, company, type and difficulty names, duration, job description and `enable_webcam` are copied from the form. |
| InterviewForm.FormModal.constructor | src/components/InterviewFormModal.js:19-25 | Nothing selected, uploaded or loading. |
| InterviewForm.FormModal.DefaultVoiceEffect | src/components/InterviewFormModal.js:27-36 | The saved URI if any. Otherwise, when voices exist, the `DefaultVoice`. Otherwise the selection is unchanged. |
| InterviewForm.FormModal.HandleVoiceChange | src/components/InterviewFormModal.js:38-42 | The selection and the stored voice URI both become the chosen URI. |
| InterviewForm.FormModal.HandleResumeUpload | src/components/InterviewFormModal.js:101-133 | No file changes nothing. Otherwise extraction ends off. A successful upload stores the text under a fresh key and keeps the file name. Any failure alerts and resets the key and the file name to `''`. |
| InterviewForm.FormModal.ApplyUpload | src/components/InterviewFormModal.js:115-132 | Success stores the text under the key. Failure alerts its message and clears key and name. |
| InterviewForm.FormModal.OnSubmit | src/components/InterviewFormModal.js:135-192 | Without a user only the failure alert is raised. With one, the draft is saved locally and the row inserted. A failed insert alerts, a successful one redirects to the new interview. Loading ends off on every path. |
| ExtractPdf.CollapseSpaces | src/app/api/extract-pdf/route.js:7 | No two consecutive spaces remain. Only spaces are removed, and the first character is kept. |
| ExtractPdf.CollapseSpacesIdentity | src/app/api/extract-pdf/route.js:7 | Text without double spaces is left as it is. |
| ExtractPdf.CollapseSpacesConcat | src/app/api/extract-pdf/route.js:7 | Behind a character other than a space no run is shared, so the two sides collapse on their own. |
| ExtractPdf.SpaceRun | src/app/api/extract-pdf/route.js:7 | A run of one or more spaces between two other characters becomes exactly one space, and the text on either side collapses on its own. |
| ExtractPdf.CollapseBreaksNormal | src/app/api/extract-pdf/route.js:10 | Afterwards no two newlines have only white space between them unless they are adjacent. |
| ExtractPdf.CollapseBreaksConcat | src/app/api/extract-pdf/route.js:10 | Behind a character that is not white space no match is shared, so the two sides are replaced on their own. |
| ExtractPdf.LeadingStretch | src/app/api/extract-pdf/route.js:10 | A leading newline, white space and a newline, before text that does not start with white space, become exactly `"\n\n"`. |
| ExtractPdf.BreakStretch | src/app/api/extract-pdf/route.js:10 | Between two characters that are not white space, a newline, any white space and a newline become exactly `"\n\n"`. The text on either side is replaced on its own. |
| ExtractPdf.CollapseBreaksIdentity | src/app/api/extract-pdf/route.js:10 | Text whose breaks are already normal is left as it is. |
| ExtractPdf.CollapseBreaksVisible | src/app/api/extract-pdf/route.js:10 | The step removes only white space. |
| ExtractPdf.TrimVisible | src/app/api/extract-pdf/route.js:13 | Trimming removes only white space. |
| Strings.TrimIdentity | src/app/api/extract-pdf/route.js:13 | Text without white space at either end is not changed by trimming. |
| ExtractPdf.CollapseBreaksSingleSpaced | src/app/api/extract-pdf/route.js:10 | Replacing stretches by `"\n\n"` creates no double space, and the first character is kept. |
| ExtractPdf.FormatExtractedTextProperties | src/app/api/extract-pdf/route.js:5-16 | The cleaned text keeps every visible character in order and has no leading or trailing white space. It has no double space, and its line breaks are normal. |
| ExtractPdf.FormatCleanIdentity | src/app/api/extract-pdf/route.js:5-16 | Text that is already clean (single spaces, normal breaks, no white space at either end) comes back unchanged. |
| ExtractPdf.AddFragment | src/app/api/extract-pdf/route.js:44-49 | A fragment with text is pushed onto the line of its `y` and other lines are untouched. An empty fragment changes nothing. |
| ExtractPdf.AssembleFragments | src/app/api/extract-pdf/route.js:44-49 | The line of each `y` is its fragments in arrival order. |
| ExtractPdf.AssembleKeys | src/app/api/extract-pdf/route.js:44-49 | A line exists iff some fragment with text had that `y`. |
| ExtractPdf.SortedKeys | src/app/api/extract-pdf/route.js:39-40 | The `y` keys are strictly ascending, each exactly once. |
| ExtractPdf.LineTexts | src/app/api/extract-pdf/route.js:39-41 | Each line is its fragments concatenated, in key order. |
| ExtractPdf.SettleAtEnd | src/app/api/extract-pdf/route.js:38-43 | At the end of the file the text is the ascending lines joined by `\n`. |
| ExtractPdf.SettleAtError | src/app/api/extract-pdf/route.js:34-37 | A reader error before the end rejects with its message. |
| ExtractPdf.PageAssembler.constructor | src/app/api/extract-pdf/route.js:30 | No lines yet. |
| ExtractPdf.PageAssembler.OnItem | src/app/api/extract-pdf/route.js:44-49 | The lines become `AddFragment` of the item. |
| ExtractPdf.PageAssembler.ParseBuffer | src/app/api/extract-pdf/route.js:30-51 | The callback loop settles as `SettleFrom` does on the events. |
| ExtractPdf.Post | src/app/api/extract-pdf/route.js:18-76 | A missing file gives 400 "No file provided". Text that is only white space gives 400. A parse failure gives 500 with `details`. Success gives 200 with `formatExtractedText` applied to the assembled text. |
| Cache.CacheLifetime | src/context/CacheContext.js:18-32 | `isCacheValid` compares the age against 86 400 000 ms: a cache is valid one millisecond before 24 hours and invalid at 24 hours. A cache valid later is valid earlier. |
| Cache.Sanitized | src/context/CacheContext.js:75 | Cached copies are the records with `user_id` removed, in the same order. |
| Cache.SanitizedProperties | src/context/CacheContext.js:75 | Sanitising leaves no user id, is idempotent, distributes over concatenation, and keeps ids and notes. |
| Cache.WithoutId | src/context/CacheContext.js:87 | The list minus the entries with that id, and nothing else removed. |
| Cache.WithoutIdConcat | src/context/CacheContext.js:87 | The filter works piece by piece, so the other entries keep their order. |
| Cache.WithoutAbsentId | src/context/CacheContext.js:87 | Removing an id no entry has leaves the list as it was. |
| Cache.ReplaceById | src/context/CacheContext.js:126-128 | Only the entries with the id are replaced by the returned row. Length and order are kept. |
| Cache.ReplaceByIdProperties | src/context/CacheContext.js:126-128 | An id that no row has leaves the list unchanged. Replacing the same id twice, where the first row keeps the id, is the same as replacing it once with the second row. |
| Cache.CacheStore.constructor | src/context/CacheContext.js:25-28 | No user, no interviews, no feedback, loading. |
| Cache.CacheStore.SetInterviews | src/context/CacheContext.js:72-76 | The list becomes the rows, and the cache holds them sanitised. |
| Cache.CacheStore.FetchInterviews | src/context/CacheContext.js:60-80 | Without a session, with a user id of `""` or on a query error, nothing changes. Otherwise the list is the rows, or `[]` for null data, and storage holds its sanitised copy. |
| Cache.CacheStore.SignOutUser | src/context/CacheContext.js:50-58 | The three cache keys are removed and the user, interviews and feedback are reset. |
| Cache.CacheStore.DeleteInterview | src/context/CacheContext.js:82-109 | Unauthenticated, it fails before touching the list. While the delete is pending the list is `WithoutId`. On backend failure it is restored to exactly the previous list and the error is rethrown. |
| Cache.CacheStore.UpdateInterviewNotes | src/context/CacheContext.js:111-138 | Success replaces by id. Any failure leaves both the list and the cache unchanged and rethrows. |
| Cache.CacheStore.FetchFeedbackForInterview | src/context/CacheContext.js:140-162 | A falsy id is a no-op. Data sets only that interview's key. Error `PGRST116` is ignored silently, and other errors are logged. |
| Cache.CacheStore.LoadData | src/context/CacheContext.js:164-185 | With a user and a valid cache, the cached lists are read without fetching and storage is untouched. Otherwise the list is fetched and a new timestamp written. Fetched rows become the list and, sanitised, the stored copy. A query error, or a user id of `""` (no query at all), keeps both. Without a user nothing is loaded and storage is untouched. Stored feedback never changes. Loading ends off. |
| Cache.CacheStore.OnAuthStateChange | src/context/CacheContext.js:187-198 | `SIGNED_IN` sets the user, writes a timestamp and fetches, leaving feedback and its stored copy alone. A query error or a user id of `""` keeps the list and its stored copy. `SIGNED_OUT` clears the user, list, feedback and all three storage entries. Any other event changes no field. |
| Credits.GetUserCredits | src/lib/credits.js:9-25 | No user id reads as 0. An error or null data gives null. Otherwise the first row's `credits_updated`, or 0 when there is no row. |
| Credits.DeductUserCredits | src/lib/credits.js:33-54 | A new balance is written iff the balance is known and at least the amount. It is the balance minus the amount and is never negative. Otherwise "Insufficient credits". A write error is rethrown, and a successful write resolves with the row. |
| Credits.SpendEverything | src/lib/credits.js:38-46 | Spending the whole balance is allowed and writes 0. |
| Credits.Overspend | src/lib/credits.js:38-40 | One credit more than the balance is refused, and so is any deduction whose balance could not be read. |
| Credits.MissingUser | src/lib/credits.js:10 | Without a user id, only an amount of at most 0 passes the balance test. |
| Credits.DeductTwice | src/lib/credits.js:41-46 | Two deductions in a row use up exactly the sum of the two amounts. |
| Toasts.WithoutToast | src/context/ToastContext.js:22-24 | Exactly the toasts with other ids remain. |
| Toasts.WithoutToastConcat | src/context/ToastContext.js:22-24 | The filter works piece by piece, so the kept toasts keep their order. |
| Toasts.WithoutToastIdempotent | src/context/ToastContext.js:22-24 | Removing an id twice is removing it once. |
| Toasts.AddThenRemove | src/context/ToastContext.js:12-20 | A toast with a fresh id, appended and then removed by its auto-removal, leaves exactly the earlier toasts. |
| Toasts.ToastQueue.constructor | src/context/ToastContext.js:10 | No toasts and no timers. |
| Toasts.ToastQueue.AddToast | src/context/ToastContext.js:12-20 | One toast is appended, of kind `info` when none is given, and its removal timer is armed. |
| Toasts.ToastQueue.RemoveToast | src/context/ToastContext.js:22-24 | The toasts with the id are removed, and the timers stay armed. |
| Toasts.ToastQueue.FireNextTimer | src/context/ToastContext.js:17-19 | The earliest timer fires and removes the toast with its id, if that toast is still there. |
| Toasts.ShowAndExpire | src/context/ToastContext.js:12-20 | Scenario. A toast with a fresh id is on screen until its timer fires, and then the list is as before. |
| ChatRoute.ApiStatus | src/app/api/chat/route.js:57-59 | `error.status \|\| 500`: never 0. A missing or zero status is 500. |
| ChatRoute.ErrorResponse | src/app/api/chat/route.js:51-66 | An API error keeps its status and prefixes its message. ENOTFOUND/ECONNRESET give 504 with the network message. Anything else gives 500 with the default message. |
| ChatRoute.Post | src/app/api/chat/route.js:17-67 | A body that is not JSON gives 400 "Invalid JSON body". `messages` that is not a non-empty array gives 400 with its own message. A message is returned, with 200 and the first choice, iff the request is valid and there is a choice. No choices gives 500. A thrown error is answered by `ErrorResponse`. |
| ChatRoute.PostStatuses | src/app/api/chat/route.js:17-67 | The only statuses are 200 with a message, 400 for a bad request, 500, 504, or an API error's own non-zero status. |
| ChatRoute.ValidRequestNot400 | src/app/api/chat/route.js:23-31 | A valid request never gets 400 unless OpenRouter itself answered 400. |
| Dashboard.DifficultyColorAsWritten | src/app/dashboard/page.js:93-100 | The lookup as written. An own entry is returned as found, an inherited member is returned as that member, and anything else is gray. |
| Dashboard.ConstructorLevel | src/app/dashboard/page.js:99 | The level "Constructor" yields the inherited `constructor` member, not a class name. |
| Dashboard.InheritedLevel | src/app/dashboard/page.js:99 | Every level whose lower-case form is an inherited name yields that member. |
| Dashboard.DifficultyColor | src/app/dashboard/page.js:93-100 | The intended colour: green, yellow or red for easy, medium or hard, in any letter case, and gray for everything else. |
| Dashboard.DifficultyColorCaseInsensitive | src/app/dashboard/page.js:93-100 | The colour ignores letter case. The written lookup agrees with it on every level that is not an inherited name. |
| Dashboard.DashboardState.constructor | src/app/dashboard/page.js:37-52 | No interviews, no confirmation, no alerts. |
| Dashboard.DashboardState.AskToDelete | src/app/dashboard/page.js:218 | The confirmation opens for that interview, and nothing else changes. |
| Dashboard.DashboardState.CancelDelete | src/app/dashboard/page.js:244 | The confirmation closes, and nothing else changes. |
| Dashboard.DashboardState.FetchInterviews | src/app/dashboard/page.js:37-52 | Without a user or on a query error, nothing changes. Otherwise the list is the rows, or `[]`. |
| Dashboard.DashboardState.HandleDeleteInterview | src/app/dashboard/page.js:58-72 | A failed delete alerts and keeps the confirmation open and the list as it was. A successful one refetches and then closes the confirmation, whatever the refetch returned. |
| Strings.Trim | src/app/api/extract-pdf/route.js:13 | The result has no white space at either end and is the input with white space cut off both ends. |
| Strings.TrimEmptyIff | src/components/InterviewFormModal.js:112 | Trimming gives `''` iff the text is only white space. |
| Strings.Split | src/components/InterviewFormModal.js:158 | One piece per separator plus one, no piece contains the separator, and joining the pieces gives back the input. |
| Strings.ToLower | src/app/dashboard/page.js:99 | Lower-casing works character by character and keeps the length. |
| Strings.LexLeTotal | src/hooks/useTextToSpeech.js:15 | Any two tags are ordered one way or the other. |
| Strings.LexLeTransitive | src/hooks/useTextToSpeech.js:15 | The tag order is transitive. |
| Strings.NatToStringRoundTrip | src/components/Timer.js:24 | The decimal rendering of a count reads back as the count. |
| Strings.PadStart | src/components/Timer.js:24 | Padding reaches the width with leading fill characters and keeps the original text at the end. |

## Left out

- Prompt wording: the interviewer and feedback system prompts are
  recorded as the values they are built from, not as text. For the
  interviewer prompt these are all nine interpolated columns of the row.
  The defaults `"None specified"`, the upper-casing of the type and the
  tone-profile lookup by personality are part of the wording. Each is a
  function of a recorded column.
- InterviewFlow.Outbound: only a missing or `null` `interview_type`
  throws. A column of another type that lacks `toUpperCase` would also
  throw, but the column holds text.
- JSON handling: serialisation and parsing of request and storage bodies
  are not modelled. A reply's content is already one of "parsed",
  "unparseable", "not ok" or "threw".
- Floating point: face-api scores and the PDF reader's `y` positions are
  integers. Only their order and equality are used.
- React scheduling: state updates apply at once and in order. Two clicks
  between renders (a double submit before `isSubmitting` re-renders) and
  other stale-closure races are not modelled. The one stale closure the
  behaviour depends on, the `''` transcript seen by `onend`, is modelled.
- Timers are explicit steps (`Tick`, `FireNextTimer`, `ClearFeedback`,
  the sampling flag). Wall-clock time, `Date.now()` and `Math.random()`
  ids are parameters.
- The sign-out call to Supabase and `fetchUser`'s error path are outside
  the model. The session is a parameter.
- The dashboard's `fetchUser`, redirect, sign-out button and `formatDate`
  are not modelled: they are calls into the auth service and display
  formatting.
- Toast rendering (a map over the list, in order) and `useToast`'s error
  outside a provider are not modelled.
- Dashboard.DifficultyColorAsWritten: a `null` or missing level, on which
  `toLowerCase` throws, is not modelled. Levels are strings.
- TextToSpeech.SortByLang: `localeCompare` is plain code-point order.
  Locale collation is not modelled.
- ExtractPdf.SortedKeys: the explicit numeric sort at route.js:40 orders
  the keys whatever order `Object.keys` returns them in, and the model
  sorts its integer keys the same way. What is not modelled is a
  fractional `y`, which the floating-point line above covers.
- Strings.ToLower lower-cases only `A`-`Z`, while `toLowerCase` maps all
  of Unicode. The only non-ASCII characters whose lower case holds an
  ASCII letter are the Kelvin sign (`k`) and `İ` (`i` followed by a
  combining dot). No colour key or inherited name contains a `k` or the
  combining dot. So the lookup finds the same entry either way.
- InterviewValidation.Parse: `z.number()` also accepts fractional
  durations such as 7.5, but a duration in the model is an integer.
  Fractional durations are not modelled.
- ExtractPdf.Post: `await request.formData()` sits outside the `try`. A
  body that is not form data therefore rejects without the JSON 500
  answer. The model starts from the parsed form field, so that path is
  not modelled.
- The `codeLog` append in the interview page's `handleSubmitCode` belongs
  to the page, not the hooks. `codeLog` is a parameter of the submission.
- Credits.DeductUserCredits: the returned row is taken from the write
  outcome as given. It is not checked against the written balance.
- Speech recognition and synthesis engines, the webcam, face-api model
  loading, the PDF parser and the OpenRouter SDK are event sources or
  outcome parameters. Their own behaviour is not modelled.

## Findings

| source | as written | input that shows it | evidently intended | confidence | as-written member | corrected member |
|---|---|---|---|---|---|---|
| src/app/dashboard/page.js:93-100 | `colors[level.toLowerCase()] \|\| 'text-gray-400'` looks the level up on a plain object literal, which also finds the names it inherits from `Object.prototype`. The form's schema admits only Easy/Medium/Hard, so only a level stored by other means reaches this. | difficulty level `"Constructor"`: the lookup yields the inherited `constructor` function, which is truthy, so becomes the class name | only `easy`, `medium` and `hard` (any case) get colours, and every other level gets `text-gray-400` | not executed | Dashboard.DifficultyColorAsWritten (shown by Dashboard.ConstructorLevel) | Dashboard.DifficultyColor (proved by Dashboard.DifficultyColorCaseInsensitive) |
