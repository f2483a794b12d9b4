/**
 * The speech-output hook of `src/hooks/useTextToSpeech.js`: the English
 * voice list (filtered, then stably sorted by language tag), the voice an
 * utterance gets, and the `isSpeaking` flag set by the utterance handlers.
 * The browser's synthesiser is an outside party: the hook's calls on it are
 * recorded in `calls`, and whether it is currently speaking is a parameter.
 */
module TextToSpeech {
  import opened Wrappers
  import opened Strings

  datatype Voice = Voice(voiceURI: string, lang: string)

  predicate IsEnglish(v: Voice) {
    StartsWith(v.lang, "en")
  }

  /** `voices.filter(v => v.lang.startsWith('en'))`. */
  function EnglishOnly(voices: seq<Voice>): (r: seq<Voice>)
    ensures forall v :: v in r <==> v in voices && IsEnglish(v)
    ensures multiset(r) <= multiset(voices)
  {
    if voices == [] then []
    else
      var rest := EnglishOnly(voices[1..]);
      assert voices == [voices[0]] + voices[1..];
      if IsEnglish(voices[0]) then [voices[0]] + rest else rest
  }

  predicate SortedByLang(s: seq<Voice>) {
    forall i, j :: 0 <= i < j < |s| ==> LexLe(s[i].lang, s[j].lang)
  }

  /** Inserts `v` before the first voice whose tag is not below its own, so
      that `v` stays ahead of the voices with an equal tag. */
  function InsertByLang(v: Voice, s: seq<Voice>): (r: seq<Voice>)
    ensures multiset(r) == multiset(s) + multiset{v}
    ensures |r| == |s| + 1
  {
    if s == [] || LexLe(v.lang, s[0].lang) then [v] + s
    else
      assert s == [s[0]] + s[1..];
      [s[0]] + InsertByLang(v, s[1..])
  }

  predicate AllAtLeast(b: string, s: seq<Voice>) {
    forall k :: 0 <= k < |s| ==> LexLe(b, s[k].lang)
  }

  lemma {:induction false} InsertAtLeast(b: string, v: Voice, s: seq<Voice>)
    requires LexLe(b, v.lang) && AllAtLeast(b, s)
    ensures AllAtLeast(b, InsertByLang(v, s))
  {
    if s != [] && !LexLe(v.lang, s[0].lang) {
      InsertAtLeast(b, v, s[1..]);
    }
  }

  lemma SortedCons(x: Voice, s: seq<Voice>)
    requires AllAtLeast(x.lang, s) && SortedByLang(s)
    ensures SortedByLang([x] + s)
  {
    var r := [x] + s;
    forall i, j | 0 <= i < j < |r| ensures LexLe(r[i].lang, r[j].lang) {
      if i > 0 {
        assert r[i] == s[i - 1] && r[j] == s[j - 1];
      }
    }
  }

  lemma {:induction false} InsertKeepsSorted(v: Voice, s: seq<Voice>)
    requires SortedByLang(s)
    ensures SortedByLang(InsertByLang(v, s))
  {
    if s == [] {
    } else if LexLe(v.lang, s[0].lang) {
      forall k | 0 <= k < |s| ensures LexLe(v.lang, s[k].lang) {
        if k > 0 {
          LexLeTransitive(v.lang, s[0].lang, s[k].lang);
        }
      }
      SortedCons(v, s);
    } else {
      InsertKeepsSorted(v, s[1..]);
      LexLeTotal(v.lang, s[0].lang);
      InsertAtLeast(s[0].lang, v, s[1..]);
      SortedCons(s[0], InsertByLang(v, s[1..]));
    }
  }

  /** `.sort((a, b) => a.lang.localeCompare(b.lang))`, stable. */
  function SortByLang(s: seq<Voice>): (r: seq<Voice>)
    ensures multiset(r) == multiset(s)
    ensures SortedByLang(r)
  {
    if s == [] then []
    else
      assert s == [s[0]] + s[1..];
      InsertKeepsSorted(s[0], SortByLang(s[1..]));
      InsertByLang(s[0], SortByLang(s[1..]))
  }

  /** The voices with tag `lang`, in order. */
  function WithLang(s: seq<Voice>, lang: string): seq<Voice> {
    if s == [] then [] else (if s[0].lang == lang then [s[0]] else []) + WithLang(s[1..], lang)
  }

  lemma WithLangCons(x: Voice, s: seq<Voice>, lang: string)
    ensures WithLang([x] + s, lang) == (if x.lang == lang then [x] else []) + WithLang(s, lang)
  {
    assert ([x] + s)[1..] == s;
  }

  lemma {:induction false} InsertStable(v: Voice, s: seq<Voice>, lang: string)
    requires SortedByLang(s)
    ensures WithLang(InsertByLang(v, s), lang) ==
            if v.lang == lang then [v] + WithLang(s, lang) else WithLang(s, lang)
  {
    if s != [] && !LexLe(v.lang, s[0].lang) {
      var rest := InsertByLang(v, s[1..]);
      assert InsertByLang(v, s) == [s[0]] + rest;
      assert s == [s[0]] + s[1..];
      InsertStable(v, s[1..], lang);
      WithLangCons(s[0], rest, lang);
      WithLangCons(s[0], s[1..], lang);
      // every voice before the insertion point has a tag below `v`'s
      assert s[0].lang != v.lang by { if s[0].lang == v.lang { LexLeReflexive(v.lang); } }
    } else {
      WithLangCons(v, s, lang);
    }
  }

  lemma {:induction false} LexLeReflexive(a: string)
    ensures LexLe(a, a)
  {
    if a != [] {
      LexLeReflexive(a[1..]);
    }
  }

  /** The sort is stable: voices with the same tag keep their order. */
  lemma {:induction false} SortStable(s: seq<Voice>, lang: string)
    ensures WithLang(SortByLang(s), lang) == WithLang(s, lang)
  {
    if s != [] {
      SortStable(s[1..], lang);
      InsertStable(s[0], SortByLang(s[1..]), lang);
    }
  }

  /** The filter keeps, for every English tag, all voices with that tag in
      their order, and keeps no voice of any other tag. */
  lemma {:induction false} EnglishOnlyByLang(voices: seq<Voice>, lang: string)
    ensures WithLang(EnglishOnly(voices), lang) ==
            if StartsWith(lang, "en") then WithLang(voices, lang) else []
    decreases |voices|
  {
    if voices != [] {
      var v := voices[0];
      var rest := EnglishOnly(voices[1..]);
      assert voices == [v] + voices[1..];
      EnglishOnlyByLang(voices[1..], lang);
      WithLangCons(v, voices[1..], lang);
      if IsEnglish(v) {
        WithLangCons(v, rest, lang);
      }
    }
  }

  /** The voice list holds, for every tag starting with `en`, exactly the
      offered voices with that tag in their offered order; other tags are
      absent. */
  lemma EnglishVoicesByLang(available: seq<Voice>, lang: string)
    ensures WithLang(EnglishVoices(available), lang) ==
            if StartsWith(lang, "en") then WithLang(available, lang) else []
  {
    SortStable(EnglishOnly(available), lang);
    EnglishOnlyByLang(available, lang);
  }

  /** `populateVoiceList`: exactly the English voices, ordered by tag. */
  function EnglishVoices(available: seq<Voice>): (r: seq<Voice>)
    ensures forall v :: v in r <==> v in available && IsEnglish(v)
    ensures SortedByLang(r)
    ensures multiset(r) == multiset(EnglishOnly(available))
  {
    var r := SortByLang(EnglishOnly(available));
    assert forall v :: v in r <==> v in multiset(r);
    r
  }

  /** Index of the first voice with the URI, or `|voices|` when none has it. */
  function IndexOfUri(voices: seq<Voice>, uri: string): (i: nat)
    ensures i <= |voices|
    ensures i < |voices| ==> voices[i].voiceURI == uri
    ensures forall k :: 0 <= k < i ==> voices[k].voiceURI != uri
  {
    if voices == [] then 0
    else if voices[0].voiceURI == uri then 0
    else 1 + IndexOfUri(voices[1..], uri)
  }

  /** Index of the first voice with the tag, or `|voices|` when none has it. */
  function IndexOfLang(voices: seq<Voice>, lang: string): (i: nat)
    ensures i <= |voices|
    ensures i < |voices| ==> voices[i].lang == lang
    ensures forall k :: 0 <= k < i ==> voices[k].lang != lang
  {
    if voices == [] then 0
    else if voices[0].lang == lang then 0
    else 1 + IndexOfLang(voices[1..], lang)
  }

  /** `voices.find(v => v.lang === 'en-US') || voices[0]`. */
  function DefaultVoice(voices: seq<Voice>): (v: Voice)
    requires |voices| > 0
    ensures v in voices
    ensures (exists k :: 0 <= k < |voices| && voices[k].lang == "en-US") ==> v.lang == "en-US"
    ensures v.lang != "en-US" ==> v == voices[0]
    ensures IndexOfLang(voices, "en-US") < |voices| ==> v == voices[IndexOfLang(voices, "en-US")]
    ensures IndexOfLang(voices, "en-US") == |voices| ==> v == voices[0]
  {
    var i := IndexOfLang(voices, "en-US");
    if i < |voices| then voices[i] else voices[0]
  }

  /** The voice `speak` gives an utterance: the one with the URI, else the
      default voice, else none when the list is empty. */
  function SelectVoice(voices: seq<Voice>, uri: string): (r: Option<Voice>)
    ensures r.Some? <==> |voices| > 0
    ensures r.Some? ==> r.value in voices
    ensures (exists k :: 0 <= k < |voices| && voices[k].voiceURI == uri) ==>
              r == Some(voices[IndexOfUri(voices, uri)])
    ensures (forall k :: 0 <= k < |voices| ==> voices[k].voiceURI != uri) && |voices| > 0 ==>
              r == Some(DefaultVoice(voices))
    ensures (forall k :: 0 <= k < |voices| ==> voices[k].voiceURI != uri) && |voices| > 0 ==>
              var i := IndexOfLang(voices, "en-US");
              r == Some(if i < |voices| then voices[i] else voices[0])
  {
    var i := IndexOfUri(voices, uri);
    if i < |voices| then Some(voices[i])
    else if |voices| > 0 then Some(DefaultVoice(voices))
    else None
  }

  /** Calls the hook makes on `window.speechSynthesis`. */
  datatype SynthCall = CancelAll | Utter(text: string, voice: Option<Voice>)

  class Synthesizer {
    var available: bool          // speechSynthesis state is set
    var voices: seq<Voice>
    var isSpeaking: bool
    var calls: seq<SynthCall>
    /** How many times an utterance's `onEndCallback` has run. */
    var endCallbacks: nat

    /** The mount effect: the synthesiser is taken when the page has one,
        and the voice list populated from it. */
    constructor (hasSynthesis: bool, offered: seq<Voice>)
      ensures available == hasSynthesis
      ensures voices == if hasSynthesis then EnglishVoices(offered) else []
      ensures !isSpeaking && calls == [] && endCallbacks == 0
    {
      available := hasSynthesis;
      voices := if hasSynthesis then EnglishVoices(offered) else [];
      isSpeaking := false;
      calls := [];
      endCallbacks := 0;
    }

    /** `populateVoiceList`, also run on `voiceschanged`. */
    method PopulateVoiceList(offered: seq<Voice>)
      modifies this`voices
      ensures voices == if available then EnglishVoices(offered) else old(voices)
    {
      if available {
        voices := EnglishVoices(offered);
      }
    }

    /** `speak(text, {voiceURI})`: nothing without a synthesiser or text;
        speech in progress is cancelled before the new utterance is queued. */
    method Speak(text: string, voiceURI: string, engineSpeaking: bool)
      modifies this`calls
      ensures !available || text == "" ==> calls == old(calls)
      ensures available && text != "" ==>
                calls == old(calls) + (if engineSpeaking then [CancelAll] else [])
                                    + [Utter(text, SelectVoice(voices, voiceURI))]
    {
      if !available || text == "" {
        return;
      }
      if engineSpeaking {
        calls := calls + [CancelAll];
      }
      calls := calls + [Utter(text, SelectVoice(voices, voiceURI))];
    }

    method OnUtteranceStart()
      modifies this`isSpeaking
      ensures isSpeaking
    {
      isSpeaking := true;
    }

    /** `onend`: speaking stops, then the caller's callback runs. */
    method OnUtteranceEnd()
      modifies this`isSpeaking, this`endCallbacks
      ensures !isSpeaking && endCallbacks == old(endCallbacks) + 1
    {
      isSpeaking := false;
      endCallbacks := endCallbacks + 1;
    }

    /** `onerror`: speaking stops and the callback does not run. */
    method OnUtteranceError()
      modifies this`isSpeaking
      ensures !isSpeaking
    {
      isSpeaking := false;
    }

    /** `cancel()`. */
    method Cancel()
      modifies this`calls, this`isSpeaking
      ensures available ==> calls == old(calls) + [CancelAll] && !isSpeaking
      ensures !available ==> calls == old(calls) && isSpeaking == old(isSpeaking)
    {
      if available {
        calls := calls + [CancelAll];
        isSpeaking := false;
      }
    }
  }
}
