/**
 * Emotion summarisation of `src/components/FacialFeedback.js`: the argmax
 * of expression scores, the gated sampling that appends `{time, emotion}`
 * entries, and the vote over the last three entries that picks the live
 * feedback message.
 *
 * The face detector, the clock and the intervals are outside the model: a
 * detection result and the current time are parameters, and each interval
 * firing is one method call. Scores are integers (only their order matters).
 */
module FacialFeedback {
  import opened Wrappers

  /** An object of scores in key order (`Object.keys` order; keys distinct). */
  type Scores = seq<(string, int)>

  predicate DistinctKeys(s: Scores) {
    forall i, j :: 0 <= i < j < |s| ==> s[i].0 != s[j].0
  }

  /** `Object.keys(s).reduce((a, b) => s[a] > s[b] ? a : b)` as an index:
      the reduction keeps its accumulator only when it is strictly greater,
      so the result is the LAST index holding a maximal score. */
  function TopIndex(s: Scores): (r: nat)
    requires |s| > 0
    ensures r < |s|
    ensures forall j :: 0 <= j < |s| ==> s[j].1 <= s[r].1
    ensures forall j :: r < j < |s| ==> s[j].1 < s[r].1
    decreases |s|
  {
    if |s| == 1 then 0
    else
      var a := TopIndex(s[..|s| - 1]);
      if s[a].1 > s[|s| - 1].1 then a else |s| - 1
  }

  /** `getTopExpression`: `'neutral'` for a missing map; `None` stands for the
      `TypeError` that `reduce` without an initial value throws on an empty one. */
  function TopExpression(expressions: Option<Scores>): (r: Option<string>)
    ensures expressions.None? ==> r == Some("neutral")
    ensures expressions.Some? ==> (r.None? <==> expressions.value == [])
    ensures expressions.Some? && expressions.value != [] ==>
              exists i :: 0 <= i < |expressions.value| && r.value == expressions.value[i].0 &&
                (forall j :: 0 <= j < |expressions.value| ==> expressions.value[j].1 <= expressions.value[i].1) &&
                (forall j :: i < j < |expressions.value| ==> expressions.value[j].1 < expressions.value[i].1)
  {
    match expressions
    case None => Some("neutral")
    case Some(s) => if s == [] then None else Some(s[TopIndex(s)].0)
  }

  // ---------------------------------------------------------------------
  // The vote over recent entries

  datatype EmotionEntry = EmotionEntry(time: int, emotion: string)

  function Emotions(log: seq<EmotionEntry>): (r: seq<string>)
    ensures |r| == |log|
    ensures forall i :: 0 <= i < |log| ==> r[i] == log[i].emotion
  {
    seq(|log|, i requires 0 <= i < |log| => log[i].emotion)
  }

  /** `currentLog.slice(-3)`. */
  function Recent(log: seq<EmotionEntry>): (r: seq<EmotionEntry>)
    ensures |r| == if |log| < 3 then |log| else 3
    ensures r == log[|log| - |r|..]
  {
    if |log| <= 3 then log else log[|log| - 3..]
  }

  /** First index of key `k` in `c`, or `|c|`. */
  function KeyIndex(c: Scores, k: string): (i: nat)
    ensures i <= |c|
    ensures i < |c| ==> c[i].0 == k
    ensures forall j :: 0 <= j < i ==> c[j].0 != k
  {
    if c == [] then 0
    else if c[0].0 == k then 0
    else 1 + KeyIndex(c[1..], k)
  }

  /** One step of the `reduce`: `acc[e] = (acc[e] || 0) + 1`. */
  function Bump(c: Scores, e: string): Scores {
    var i := KeyIndex(c, e);
    if i < |c| then c[i := (e, c[i].1 + 1)] else c + [(e, 1)]
  }

  /** The `emotionCounts` object built by `reduce`, keys in first-seen order. */
  function Tally(w: seq<string>): (c: Scores)
    decreases |w|
  {
    if w == [] then [] else Bump(Tally(w[..|w| - 1]), w[|w| - 1])
  }

  /** A step keeps the keys distinct and in place, adds one to the count of
      `e` only, and appends `e` with count 1 when it had no key. */
  lemma {:induction false} BumpKeys(c: Scores, e: string)
    requires DistinctKeys(c)
    ensures var d := Bump(c, e);
            && DistinctKeys(d)
            && |c| <= |d| <= |c| + 1
            && (forall j :: 0 <= j < |c| ==> d[j].0 == c[j].0)
            && (forall j :: 0 <= j < |c| ==> d[j].1 == c[j].1 + (if c[j].0 == e then 1 else 0))
            && (|d| == |c| + 1 ==> d[|c|] == (e, 1) && KeyIndex(c, e) == |c|)
            && KeyIndex(d, e) < |d|
  {
    var i := KeyIndex(c, e);
    var d := Bump(c, e);
    if i < |c| {
      KeyIndexFound(d, i, e);
    } else {
      KeyIndexFound(d, |c|, e);
    }
  }

  /** Each key of the tally is counted exactly as often as it occurs, the
      keys are distinct, and every emotion of the window has a key. */
  lemma {:induction false} TallyCounts(w: seq<string>)
    ensures var c := Tally(w);
            && DistinctKeys(c)
            && (forall i :: 0 <= i < |c| ==> c[i].1 == multiset(w)[c[i].0])
            && (forall k :: 0 <= k < |w| ==> KeyIndex(c, w[k]) < |c|)
    decreases |w|
  {
    if w != [] {
      var p := w[..|w| - 1];
      var e := w[|w| - 1];
      assert w == p + [e];
      TallyCounts(p);
      var c := Tally(p);
      var d := Tally(w);
      assert d == Bump(c, e);
      BumpKeys(c, e);
      TallyStepCounts(p, e, c, d);
      forall k | 0 <= k < |w| ensures KeyIndex(d, w[k]) < |d| {
        if k < |p| {
          assert w[k] == p[k];
          var j := KeyIndex(c, p[k]);
          KeyIndexFound(d, j, p[k]);
        }
      }
    }
  }

  /** First index of emotion `e` in the window `w`, or `|w|`. */
  function FirstIndex(w: seq<string>, e: string): (i: nat)
    ensures i <= |w|
    ensures i < |w| ==> w[i] == e
    ensures forall j :: 0 <= j < i ==> w[j] != e
  {
    if w == [] then 0
    else if w[0] == e then 0
    else 1 + FirstIndex(w[1..], e)
  }

  /** Appending to the window keeps every first occurrence already in it. */
  lemma {:induction false} FirstIndexSnoc(p: seq<string>, e: string, x: string)
    ensures FirstIndex(p + [e], x) ==
            if FirstIndex(p, x) < |p| then FirstIndex(p, x) else if x == e then |p| else |p| + 1
  {
    if p != [] && p[0] != x {
      assert (p + [e])[1..] == p[1..] + [e];
      FirstIndexSnoc(p[1..], e, x);
    }
  }

  /** One step of the tally keeps its keys in first-seen order. */
  lemma {:induction false} FirstSeenStep(p: seq<string>, e: string, b: Scores)
    requires DistinctKeys(b)
    requires forall k :: 0 <= k < |p| ==> KeyIndex(b, p[k]) < |b|
    requires forall i :: 0 <= i < |b| ==> FirstIndex(p, b[i].0) < |p|
    requires forall i, j :: 0 <= i < j < |b| ==> FirstIndex(p, b[i].0) < FirstIndex(p, b[j].0)
    ensures var c := Bump(b, e);
            && (forall i :: 0 <= i < |c| ==> FirstIndex(p + [e], c[i].0) < |p| + 1)
            && (forall i, j :: 0 <= i < j < |c| ==> FirstIndex(p + [e], c[i].0) < FirstIndex(p + [e], c[j].0))
  {
    var c := Bump(b, e);
    var w := p + [e];
    BumpKeys(b, e);
    forall j | 0 <= j < |b| ensures FirstIndex(w, c[j].0) == FirstIndex(p, b[j].0) {
      FirstIndexSnoc(p, e, b[j].0);
    }
    if |c| == |b| + 1 {
      forall k | 0 <= k < |p| ensures p[k] != e {
        assert KeyIndex(b, p[k]) < |b|;
      }
      FirstIndexSnoc(p, e, e);
      assert FirstIndex(w, c[|b|].0) == |p|;
    }
  }

  /** The keys of the tally are emotions of the window, each counted at
      least once, in the order of their first occurrence. */
  lemma {:induction false} TallyFirstSeen(w: seq<string>)
    ensures var c := Tally(w);
            && (forall i :: 0 <= i < |c| ==> FirstIndex(w, c[i].0) < |w| && c[i].1 >= 1)
            && (forall i, j :: 0 <= i < j < |c| ==> FirstIndex(w, c[i].0) < FirstIndex(w, c[j].0))
    decreases |w|
  {
    if w != [] {
      var p := w[..|w| - 1];
      var e := w[|w| - 1];
      assert w == p + [e];
      TallyFirstSeen(p);
      TallyCounts(p);
      FirstSeenStep(p, e, Tally(p));
    }
    TallyCounts(w);
    var c := Tally(w);
    forall i | 0 <= i < |c| ensures c[i].1 >= 1 {
      assert w[FirstIndex(w, c[i].0)] in multiset(w);
    }
  }

  /** The counts after one step, from the counts before it. */
  lemma {:induction false} TallyStepCounts(p: seq<string>, e: string, c: Scores, d: Scores)
    requires forall i :: 0 <= i < |c| ==> c[i].1 == multiset(p)[c[i].0]
    requires forall k :: 0 <= k < |p| ==> KeyIndex(c, p[k]) < |c|
    requires |c| <= |d| <= |c| + 1
    requires forall j :: 0 <= j < |c| ==> d[j].0 == c[j].0
    requires forall j :: 0 <= j < |c| ==> d[j].1 == c[j].1 + (if c[j].0 == e then 1 else 0)
    requires |d| == |c| + 1 ==> d[|c|] == (e, 1) && KeyIndex(c, e) == |c|
    ensures forall i :: 0 <= i < |d| ==> d[i].1 == multiset(p + [e])[d[i].0]
  {
    assert multiset(p + [e]) == multiset(p) + multiset{e};
    if |d| == |c| + 1 {
      forall k | 0 <= k < |p| ensures p[k] != e {
        assert KeyIndex(c, p[k]) < |c|;
      }
      assert e !in multiset(p);
    }
  }

  lemma KeyIndexFound(c: Scores, j: nat, k: string)
    requires j < |c| && c[j].0 == k
    ensures KeyIndex(c, k) <= j
  {
  }

  /** The emotion the vote picks from a non-empty window. */
  function TopEmotion(w: seq<string>): (e: string)
    requires |w| > 0
  {
    TallyCounts(w);
    assert KeyIndex(Tally(w), w[0]) < |Tally(w)|;
    var c := Tally(w);
    c[TopIndex(c)].0
  }

  /** Two different emotions together occur no more often than the window is long. */
  lemma {:induction false} TwoCountsBound(w: seq<string>, a: string, b: string)
    requires a != b
    ensures multiset(w)[a] + multiset(w)[b] <= |w|
    decreases |w|
  {
    if w != [] {
      var p := w[..|w| - 1];
      assert w == p + [w[|w| - 1]];
      assert multiset(w) == multiset(p) + multiset{w[|w| - 1]};
      TwoCountsBound(p, a, b);
    }
  }

  /** The picked emotion occurs at least as often as any emotion of the window. */
  lemma TopEmotionIsMostFrequent(w: seq<string>, e: string)
    requires |w| > 0
    ensures multiset(w)[e] <= multiset(w)[TopEmotion(w)]
    ensures TopEmotion(w) in multiset(w)
  {
    TallyCounts(w);
    var c := Tally(w);
    assert KeyIndex(c, w[0]) < |c|;
    var r := TopIndex(c);
    if e in multiset(w) {
      var k :| 0 <= k < |w| && w[k] == e;
      assert c[KeyIndex(c, w[k])].1 <= c[r].1;
    }
    assert c[r].1 == multiset(w)[c[r].0];
    assert c[r].1 >= 1 by {
      var i := KeyIndex(c, w[0]);
      assert c[i].1 == multiset(w)[w[0]];
      assert w[0] in multiset(w);
    }
  }

  /** In a window of at most three, an emotion seen at least twice wins. */
  lemma MajorityWins(w: seq<string>, e: string)
    requires 0 < |w| <= 3
    requires multiset(w)[e] >= 2
    ensures TopEmotion(w) == e
  {
    TopEmotionIsMostFrequent(w, e);
    var t := TopEmotion(w);
    if t != e {
      TwoCountsBound(w, e, t);
    }
  }

  predicate AllDistinct(w: seq<string>) {
    forall i, j :: 0 <= i < j < |w| ==> w[i] != w[j]
  }

  /** Without repeats the tally lists each emotion once, in window order. */
  lemma {:induction false} TallyDistinct(w: seq<string>)
    requires AllDistinct(w)
    ensures |Tally(w)| == |w|
    ensures forall i :: 0 <= i < |w| ==> Tally(w)[i] == (w[i], 1)
    decreases |w|
  {
    if w != [] {
      var p := w[..|w| - 1];
      TallyDistinct(p);
      var c := Tally(p);
      var i := KeyIndex(c, w[|w| - 1]);
      if i < |c| {
        assert false;
      }
    }
  }

  /** A tie between emotions seen once each goes to the one seen last. */
  lemma DistinctPicksLast(w: seq<string>)
    requires |w| > 0 && AllDistinct(w)
    ensures TopEmotion(w) == w[|w| - 1]
  {
    TallyDistinct(w);
    var c := Tally(w);
    var r := TopIndex(c);
    if r < |c| - 1 {
      assert false;
    }
  }

  const HappyMessage := "Great energy! Your enthusiasm is showing."
  const NeutralMessage := "You seem calm and focused. Keep it up."
  const SurprisedMessage := "You appear very engaged with the questions."
  const DefaultMessage := "Maintaining a professional demeanor."

  /** The `switch (topEmotion)` of `generateFeedback`. */
  function MessageFor(emotion: string): string {
    match emotion
    case "happy" => HappyMessage
    case "neutral" => NeutralMessage
    case "surprised" => SurprisedMessage
    case _ => DefaultMessage
  }

  /** `generateFeedback` as a value: nothing below two entries, otherwise the
      message for the vote over the last three entries. */
  function FeedbackFor(log: seq<EmotionEntry>): (r: Option<string>)
    ensures r.None? <==> |log| < 2
  {
    if |log| < 2 then None else Some(MessageFor(TopEmotion(Emotions(Recent(log)))))
  }

  /** Only the last three entries matter. */
  lemma FeedbackIgnoresOlderEntries(older: seq<EmotionEntry>, log: seq<EmotionEntry>)
    requires |log| >= 3
    ensures FeedbackFor(older + log) == FeedbackFor(log)
  {
    var both := older + log;
    assert Recent(both) == Recent(log);
  }

  /** Two of the last three (or both of two) entries agreeing decide the message. */
  lemma FeedbackMajority(log: seq<EmotionEntry>, e: string)
    requires |log| >= 2
    requires multiset(Emotions(Recent(log)))[e] >= 2
    ensures FeedbackFor(log) == Some(MessageFor(e))
  {
    MajorityWins(Emotions(Recent(log)), e);
  }

  lemma FeedbackMessages(log: seq<EmotionEntry>)
    requires |log| >= 2
    ensures FeedbackFor(log).Some?
    ensures FeedbackFor(log).value in {HappyMessage, NeutralMessage, SurprisedMessage, DefaultMessage}
  {
  }

  /** Only `happy`, `neutral` and `surprised` have a message of their own. */
  lemma MessageForOther(emotion: string)
    requires emotion != "happy" && emotion != "neutral" && emotion != "surprised"
    ensures MessageFor(emotion) == DefaultMessage
  {
  }

  // ---------------------------------------------------------------------
  // The component's state

  /** A face detection; `expressions` may be missing. */
  datatype Detection = Detection(expressions: Option<Scores>)

  class EmotionSampler {
    var modelsLoaded: bool
    var isVideoReady: bool
    var isInterviewActive: bool
    /** `videoRef.current` is set. */
    var videoPresent: bool
    /** `emotionLogRef.current`. */
    var log: seq<EmotionEntry>
    /** Every `onEmotionLogUpdate` call, in order. */
    var reported: seq<EmotionEntry>
    var liveFeedback: string
    /** The 5-second analysis interval is scheduled. */
    var sampling: bool

    /** The interval effect has run for the current flags. */
    ghost predicate Valid()
      reads this
    {
      sampling == (modelsLoaded && isInterviewActive && isVideoReady)
    }

    constructor (videoPresent: bool, isInterviewActive: bool)
      ensures Valid()
      ensures !modelsLoaded && !isVideoReady && !sampling
      ensures this.videoPresent == videoPresent && this.isInterviewActive == isInterviewActive
      ensures log == [] && reported == [] && liveFeedback == ""
    {
      modelsLoaded := false;
      isVideoReady := false;
      this.isInterviewActive := isInterviewActive;
      this.videoPresent := videoPresent;
      log := [];
      reported := [];
      liveFeedback := "";
      sampling := false;
    }

    /** `loadModels` finished; a failed load leaves the models unloaded. */
    method OnModelsLoaded(success: bool)
      modifies this`modelsLoaded, this`sampling
      ensures Valid()
      ensures modelsLoaded == (old(modelsLoaded) || success)
    {
      if success {
        modelsLoaded := true;
      }
      sampling := modelsLoaded && isInterviewActive && isVideoReady;
    }

    /** The video's `onCanPlay`. */
    method OnCanPlay()
      modifies this`isVideoReady, this`sampling
      ensures Valid()
      ensures isVideoReady
    {
      isVideoReady := true;
      sampling := modelsLoaded && isInterviewActive;
    }

    /** The `isInterviewActive` prop changes. */
    method SetInterviewActive(active: bool)
      modifies this`isInterviewActive, this`sampling
      ensures Valid()
      ensures isInterviewActive == active
    {
      isInterviewActive := active;
      sampling := modelsLoaded && active && isVideoReady;
    }

    /** `handleAnalysis` at time `now` with the detector's answer: exactly one
        entry is appended (and reported) when the video is present, the models
        are loaded, the interview is active and a face was found. */
    method HandleAnalysis(now: int, detection: Option<Detection>)
      modifies this`log, this`reported
      ensures var gated := videoPresent && modelsLoaded && isInterviewActive && detection.Some?;
              var top := if detection.Some? then TopExpression(detection.value.expressions) else None;
              if gated && top.Some?
              then log == old(log) + [EmotionEntry(now, top.value)] && reported == old(reported) + [EmotionEntry(now, top.value)]
              else log == old(log) && reported == old(reported)
    {
      if videoPresent && modelsLoaded && isInterviewActive {
        if detection.Some? {
          var top := TopExpression(detection.value.expressions);
          if top.Some? {
            var entry := EmotionEntry(now, top.value);
            reported := reported + [entry];
            log := log + [entry];
          }
        }
      }
    }

    /** One firing of the 30-second feedback interval, which exists only while
        the interview is active; `shown` is the message set, if any. */
    method GenerateFeedback() returns (shown: Option<string>)
      modifies this`liveFeedback
      ensures shown == (if isInterviewActive then FeedbackFor(log) else None)
      ensures liveFeedback == (if shown.Some? then shown.value else old(liveFeedback))
    {
      shown := None;
      if isInterviewActive {
        shown := FeedbackFor(log);
        if shown.Some? {
          liveFeedback := shown.value;
        }
      }
    }

    /** The 7-second timeout that hides the message. */
    method ClearFeedback()
      modifies this`liveFeedback
      ensures liveFeedback == ""
    {
      liveFeedback := "";
    }
  }
}
