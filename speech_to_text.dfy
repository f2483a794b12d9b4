/**
 * The speech-capture hook of `src/hooks/useSpeechToText.js`: the flags and
 * refs its event handlers and its start/stop functions update, and the live
 * transcript assembled from a result event. The browser's recogniser is an
 * event source: its events are the `On...` methods, and the calls the hook
 * makes on it are recorded in `engine`. Whether a call into it throws is a
 * parameter.
 */
module SpeechToText {
  import opened Wrappers

  /** One entry of `event.results`: its first alternative and `isFinal`. */
  datatype ResultPart = ResultPart(transcript: string, isFinal: bool)

  /** The final parts of a result event, concatenated in index order. */
  function Finals(results: seq<ResultPart>): string {
    if results == [] then ""
    else
      var last := results[|results| - 1];
      Finals(results[..|results| - 1]) + (if last.isFinal then last.transcript else "")
  }

  /** The interim parts of a result event, concatenated in index order. */
  function Interims(results: seq<ResultPart>): string {
    if results == [] then ""
    else
      var last := results[|results| - 1];
      Interims(results[..|results| - 1]) + (if last.isFinal then "" else last.transcript)
  }

  /** The loop of `onresult`: the saved prefix, then every final part, then
      every interim part, each group in index order. */
  method AssembleTranscript(prefix: string, results: seq<ResultPart>) returns (transcript: string)
    ensures transcript == prefix + Finals(results) + Interims(results)
  {
    var interim := "";
    var sessionFinal := "";
    var i := 0;
    while i < |results|
      invariant 0 <= i <= |results|
      invariant sessionFinal == Finals(results[..i])
      invariant interim == Interims(results[..i])
    {
      assert results[..i + 1][..i] == results[..i];
      var part := results[i].transcript;
      if results[i].isFinal {
        sessionFinal := sessionFinal + part;
      } else {
        interim := interim + part;
      }
      i := i + 1;
    }
    assert results[..i] == results;
    transcript := prefix + sessionFinal + interim;
  }

  /** A part is either final or interim, so every character spoken in the
      event is in the assembled text exactly once. */
  lemma {:induction false} PartsAccounted(results: seq<ResultPart>)
    ensures |Finals(results)| + |Interims(results)| == TotalLength(results)
  {
    if results != [] {
      PartsAccounted(results[..|results| - 1]);
    }
  }

  function TotalLength(results: seq<ResultPart>): nat {
    if results == [] then 0
    else TotalLength(results[..|results| - 1]) + |results[|results| - 1].transcript|
  }

  /** An event whose parts are all final contributes no interim text. */
  lemma {:induction false} AllFinalHasNoInterim(results: seq<ResultPart>)
    requires forall k :: 0 <= k < |results| ==> results[k].isFinal
    ensures Interims(results) == ""
  {
    if results != [] {
      AllFinalHasNoInterim(results[..|results| - 1]);
    }
  }

  /** What the page offers when the hook mounts. */
  datatype Environment =
    | NoWindow          // rendered outside a browser
    | Unsupported       // no `SpeechRecognition` constructor
    | SetupFailed       // constructing the recogniser threw
    | Available

  /** Calls the hook makes on the recogniser. */
  datatype EngineCall = Start | Stop

  const NotInitialized := "Speech recognition not initialized"

  /** The `transcript` captured by the mount effect's closures. The effect
      has no dependencies, so `onend` always sees the first render's value. */
  const SetupTranscript := ""

  class Recognizer {
    var isListening: bool
    var listeningRef: bool       // isListeningRef
    var transcript: string
    var finalPrefix: string      // finalTranscriptRef
    var error: Option<string>
    var initialized: bool        // recognitionRef.current != null
    var engine: seq<EngineCall>

    ghost predicate Valid()
      reads this
    {
      && (listeningRef ==> isListening)
      && (!initialized ==> !isListening && engine == [])
    }

    /** The mount effect. */
    constructor (env: Environment)
      ensures Valid()
      ensures !isListening && !listeningRef && transcript == "" && finalPrefix == "" && engine == []
      ensures initialized <==> env == Available
      ensures error == match env
                       case NoWindow => Some("Speech recognition not available in this environment")
                       case Unsupported => Some("Speech recognition not supported in this browser")
                       case SetupFailed => Some("Failed to initialize speech recognition")
                       case Available => None
    {
      isListening, listeningRef := false, false;
      transcript, finalPrefix := "", "";
      engine := [];
      initialized := env == Available;
      error := match env
               case NoWindow => Some("Speech recognition not available in this environment")
               case Unsupported => Some("Speech recognition not supported in this browser")
               case SetupFailed => Some("Failed to initialize speech recognition")
               case Available => None;
    }

    /** `setTranscript(t)` followed by the effect that resets the saved
        prefix whenever the transcript becomes empty. */
    method SetTranscript(t: string)
      modifies this`transcript, this`finalPrefix
      ensures transcript == t
      ensures finalPrefix == if t == "" then "" else old(finalPrefix)
    {
      transcript := t;
      if t == "" {
        finalPrefix := "";
      }
    }

    method OnStart()
      requires Valid() && initialized
      modifies this`listeningRef, this`isListening, this`error
      ensures Valid()
      ensures listeningRef && isListening && error == None
    {
      listeningRef := true;
      isListening := true;
      error := None;
    }

    /** `onend`: listening ends; only an end the hook did not ask for restarts
        the recogniser, with the prefix taken from the stale `''`. */
    method OnEnd(restartThrows: bool)
      requires Valid() && initialized
      modifies this`listeningRef, this`isListening, this`finalPrefix, this`engine, this`error
      ensures Valid()
      ensures !listeningRef && !isListening
      ensures old(listeningRef) ==> finalPrefix == SetupTranscript && engine == old(engine) + [Start]
      ensures !old(listeningRef) ==> finalPrefix == old(finalPrefix) && engine == old(engine)
      ensures error == if old(listeningRef) && restartThrows
                       then Some("Failed to restart speech recognition") else old(error)
    {
      var wasListening := listeningRef;
      listeningRef := false;
      isListening := false;
      if wasListening {
        finalPrefix := SetupTranscript;
        engine := engine + [Start];
        if restartThrows {
          error := Some("Failed to restart speech recognition");
        }
      }
    }

    /** `onresult` with the effect on an emptied transcript. */
    method OnResult(results: seq<ResultPart>)
      requires Valid() && initialized
      modifies this`transcript, this`finalPrefix, this`error
      ensures Valid()
      ensures transcript == old(finalPrefix) + Finals(results) + Interims(results)
      ensures finalPrefix == old(finalPrefix) && error == None
    {
      var t := AssembleTranscript(finalPrefix, results);
      SetTranscript(t);
      error := None;
    }

    /** `onerror`: listening ends and the error names the event's code. */
    method OnError(code: string)
      requires Valid() && initialized
      modifies this`listeningRef, this`isListening, this`error
      ensures Valid()
      ensures !listeningRef && !isListening
      ensures error == Some("Speech recognition error: " + code)
    {
      error := Some("Speech recognition error: " + code);
      listeningRef := false;
      isListening := false;
    }

    method OnNoMatch()
      requires initialized
      modifies this`error
      ensures error == Some("No speech was recognized")
    {
      error := Some("No speech was recognized");
    }

    /** `startListening`. */
    method StartListening(startThrows: bool)
      requires Valid()
      modifies this`finalPrefix, this`engine, this`listeningRef, this`isListening, this`error
      ensures Valid()
      ensures !initialized ==> error == Some(NotInitialized) && finalPrefix == old(finalPrefix)
                               && engine == old(engine) && isListening == old(isListening)
                               && listeningRef == old(listeningRef)
      ensures initialized && old(isListening) ==> unchanged(this)
      ensures initialized && !old(isListening) ==>
                finalPrefix == transcript && engine == old(engine) + [Start]
                && isListening == listeningRef == !startThrows
                && error == if startThrows then Some("Failed to start speech recognition") else None
    {
      if !initialized {
        error := Some(NotInitialized);
        return;
      }
      if !isListening {
        finalPrefix := transcript;
        engine := engine + [Start];
        if startThrows {
          error := Some("Failed to start speech recognition");
          listeningRef := false;
          isListening := false;
        } else {
          listeningRef := true;
          isListening := true;
          error := None;
        }
      }
    }

    /** `stopListening`: a manual stop clears the ref before stopping, and
        leaves clearing `isListening` to `onend`. */
    method StopListening(stopThrows: bool)
      requires Valid()
      modifies this`listeningRef, this`engine, this`error
      ensures Valid()
      ensures isListening == old(isListening)
      ensures !initialized ==> error == Some(NotInitialized) && engine == old(engine)
                               && listeningRef == old(listeningRef)
      ensures initialized && !isListening ==> unchanged(this)
      ensures initialized && isListening ==>
                !listeningRef && engine == old(engine) + [Stop]
                && error == if stopThrows then Some("Failed to stop speech recognition") else old(error)
    {
      if !initialized {
        error := Some(NotInitialized);
        return;
      }
      if isListening {
        listeningRef := false;
        engine := engine + [Stop];
        if stopThrows {
          error := Some("Failed to stop speech recognition");
        }
      }
    }

    /** The mount effect's cleanup stops a created recogniser. */
    method Dispose()
      modifies this`engine
      ensures engine == if initialized then old(engine) + [Stop] else old(engine)
    {
      if initialized {
        engine := engine + [Stop];
      }
    }
  }

  /** A manual stop followed by the recogniser's `onend` stops it once and
      does not restart it. */
  method ManualStopThenEnd(r: Recognizer)
    requires r.Valid() && r.initialized && r.isListening
    modifies r
    ensures r.Valid() && !r.isListening && !r.listeningRef
    ensures r.engine == old(r.engine) + [Stop]
  {
    r.StopListening(false);
    r.OnEnd(false);
  }

  /** An end the hook did not ask for restarts the recogniser exactly once
      and forgets the prefix. */
  method UnexpectedEnd(r: Recognizer)
    requires r.Valid() && r.initialized && r.listeningRef
    modifies r
    ensures r.Valid() && !r.isListening
    ensures r.engine == old(r.engine) + [Start] && r.finalPrefix == ""
  {
    r.OnEnd(false);
  }
}
