// src/asr/StreamingVadSegmenter.cpp: speech probabilities, one per frame, become speech regions.

module StreamingVadSegmenter {
  import opened Outcomes
  import opened LongFormChunkPlanner

  datatype VadConfiguration = VadConfiguration(
    threshold: real, probabilityFrameMs: int, minimumSpeechMs: int, minimumSilenceMs: int, speechPaddingMs: int)
  {
    predicate Valid() {
      probabilityFrameMs > 0 && minimumSpeechMs >= 0 && minimumSilenceMs >= 0 && speechPaddingMs >= 0
    }

    // An utterance that counts is not empty, or its padding is not.
    predicate LeavesNoEmptyRegion() {
      speechPaddingMs > 0 || minimumSpeechMs > 0
    }

    // When a frame starts: frame * probabilityFrameMs, as a sum.
    function Time(frame: int): int {
      if frame <= 0 then 0 else Time(frame - 1) + probabilityFrameMs
    }
  }

  lemma {:induction false} TimeIsProduct(c: VadConfiguration, frame: nat)
    ensures c.Time(frame) == frame * c.probabilityFrameMs
  {
    if frame > 0 {
      TimeIsProduct(c, frame - 1);
      assert frame * c.probabilityFrameMs == (frame - 1) * c.probabilityFrameMs + c.probabilityFrameMs;
    }
  }

  // Which frames are voiced.
  function Voiced(c: VadConfiguration, probabilities: seq<real>): seq<bool> {
    seq(|probabilities|, i requires 0 <= i < |probabilities| => probabilities[i] >= c.threshold)
  }

  lemma {:induction false} VoicedAppend(c: VadConfiguration, probabilities: seq<real>, next: real)
    ensures Voiced(c, probabilities + [next]) == Voiced(c, probabilities) + [next >= c.threshold]
  {
  }

  // ---- What an utterance is: voiced frames with every shorter silence between them bridged.

  // The silence that starts at frame e is still unbroken at frame j and long enough by then.
  predicate LongSilence(c: VadConfiguration, v: seq<bool>, e: nat, j: nat) {
    e <= j < |v| && c.Time(j) - c.Time(e) >= c.minimumSilenceMs && forall k :: e <= k <= j ==> !v[k]
  }

  ghost predicate Break(c: VadConfiguration, v: seq<bool>, e: nat) {
    0 < e < |v| && v[e - 1] && exists j :: LongSilence(c, v, e, j)
  }

  datatype Utterance = Utterance(first: nat, end: nat)

  ghost predicate Closed(c: VadConfiguration, v: seq<bool>, u: Utterance) {
    && u.first < u.end < |v| && v[u.first]
    && Break(c, v, u.end)
    && forall b {:trigger Break(c, v, b)} :: u.first < b < u.end ==> !Break(c, v, b)
  }

  function LastEnd(us: seq<Utterance>): nat {
    if us == [] then 0 else us[|us| - 1].end
  }

  // Utterance i ends in a break and only silence lies between it and the one before.
  ghost predicate FinishedAt(c: VadConfiguration, v: seq<bool>, us: seq<Utterance>, i: nat)
    requires i < |us|
  {
    var previousEnd := if i == 0 then 0 else us[i - 1].end;
    Closed(c, v, us[i]) && previousEnd <= us[i].first && Silent(v, previousEnd, us[i].first)
  }

  // Exactly the utterances of v: us are the finished ones in order, and open is the first frame of the one
  // still running at the end of v, or -1. Outside them every frame is silent.
  ghost predicate Utterances(c: VadConfiguration, v: seq<bool>, us: seq<Utterance>, open: int) {
    && (forall i {:trigger FinishedAt(c, v, us, i)} :: 0 <= i < |us| ==> FinishedAt(c, v, us, i))
    && LastEnd(us) <= |v|
    && (if open == -1 then Silent(v, LastEnd(us), |v|)
        else
          && LastEnd(us) <= open < |v| && v[open] && Silent(v, LastEnd(us), open)
          && forall b {:trigger Break(c, v, b)} :: open < b ==> !Break(c, v, b))
  }

  predicate Silent(v: seq<bool>, low: int, high: int) {
    forall k :: 0 <= k < |v| && low <= k < high ==> !v[k]
  }

  // ---- What the regions are: the union of the padded utterances that are long enough.

  datatype Span = Span(startMs: int, endMs: int)

  predicate Reaches(c: VadConfiguration, span: Span, t: int) {
    && span.endMs - span.startMs >= c.minimumSpeechMs
    && Max(0, span.startMs - c.speechPaddingMs) <= t < span.endMs + c.speechPaddingMs
  }

  predicate Covered(regions: seq<SpeechRegion>, t: int) {
    exists i :: 0 <= i < |regions| && regions[i].startMs <= t < regions[i].endMs
  }

  predicate AnyReaches(c: VadConfiguration, spans: seq<Span>, t: int) {
    exists i :: 0 <= i < |spans| && Reaches(c, spans[i], t)
  }

  // A stretch that the spans reach begins at or after t.
  ghost predicate BeginsAfter(c: VadConfiguration, spans: seq<Span>, durationMs: int) {
    exists t {:trigger AnyReaches(c, spans, t)} :: t >= durationMs && AnyReaches(c, spans, t) && !AnyReaches(c, spans, t - 1)
  }

  // Non-empty, increasing, and strictly separated.
  predicate Separated(regions: seq<SpeechRegion>) {
    forall i {:trigger SeparatedAt(regions, i)} :: 0 <= i < |regions| ==> SeparatedAt(regions, i)
  }

  predicate SeparatedAt(regions: seq<SpeechRegion>, i: nat)
    requires i < |regions|
  {
    0 <= regions[i].startMs < regions[i].endMs && (i > 0 ==> regions[i - 1].endMs < regions[i].startMs)
  }

  function Spans(c: VadConfiguration, us: seq<Utterance>): (spans: seq<Span>)
  {
    seq(|us|, i requires 0 <= i < |us| => Span(c.Time(us[i].first), c.Time(us[i].end)))
  }

  // A running utterance lasts to the end of the audio.
  function AllSpans(c: VadConfiguration, us: seq<Utterance>, open: int, durationMs: int): seq<Span> {
    Spans(c, us) + if open == -1 then [] else [Span(c.Time(open), durationMs)]
  }

  // The regions of a stretch of voiced frames and an audio duration.
  ghost predicate RegionsOf(c: VadConfiguration, v: seq<bool>, durationMs: int, regions: seq<SpeechRegion>) {
    && Separated(regions)
    && exists us, open {:trigger Utterances(c, v, us, open)} ::
         && Utterances(c, v, us, open)
         && forall t :: Covered(regions, t) <==> t < durationMs && AnyReaches(c, AllSpans(c, us, open, durationMs), t)
  }

  lemma {:induction false} TimeIsMonotone(c: VadConfiguration, a: int, b: int)
    requires c.Valid() && 0 <= a && 0 <= b
    ensures a <= b ==> c.Time(a) <= c.Time(b)
    ensures a < b ==> c.Time(a) < c.Time(b)
    decreases b
  {
    if 0 < b && a < b {
      TimeIsMonotone(c, a, b - 1);
    }
  }

  lemma {:induction false} SilenceStopsBeforeSpeech(c: VadConfiguration, v: seq<bool>, more: seq<bool>, b: nat, j: nat,
                                                    w: nat)
    requires b <= w <= |v| && w < |v + more| && (v + more)[w]
    requires LongSilence(c, v + more, b, j)
    ensures LongSilence(c, v, b, j)
  {
    forall k | b <= k <= j ensures k < |v| && !v[k] {
      assert !(v + more)[k];
    }
  }

  // Later frames cannot make a break before a voiced frame.
  lemma {:induction false} BreaksBeforeSpeechAreSettled(c: VadConfiguration, v: seq<bool>, more: seq<bool>, b: nat,
                                                        w: nat)
    requires b <= w < |v| && v[w]
    ensures Break(c, v, b) <==> Break(c, v + more, b)
  {
    if Break(c, v, b) {
      var j :| LongSilence(c, v, b, j);
      assert LongSilence(c, v + more, b, j);
    }
    if Break(c, v + more, b) {
      var j :| LongSilence(c, v + more, b, j);
      SilenceStopsBeforeSpeech(c, v, more, b, j, w);
    }
  }

  lemma {:induction false} ClosedStaysClosed(c: VadConfiguration, v: seq<bool>, more: seq<bool>, u: Utterance)
    requires Closed(c, v, u)
    ensures Closed(c, v + more, u)
  {
    var j :| LongSilence(c, v, u.end, j);
    assert LongSilence(c, v + more, u.end, j);
    forall b: nat | u.first < b < u.end ensures !Break(c, v + more, b) {
      BreaksBeforeSpeechAreSettled(c, v, more, b, u.end - 1);
    }
  }

  lemma {:induction false} UtterancesStay(c: VadConfiguration, v: seq<bool>, us: seq<Utterance>, open: int,
                                          more: seq<bool>)
    requires Utterances(c, v, us, open)
    ensures forall i {:trigger FinishedAt(c, v + more, us, i)} :: 0 <= i < |us| ==> FinishedAt(c, v + more, us, i)
    ensures LastEnd(us) <= |v|
  {
    forall i | 0 <= i < |us| ensures FinishedAt(c, v + more, us, i) {
      assert FinishedAt(c, v, us, i);
      ClosedStaysClosed(c, v, more, us[i]);
    }
  }

  // Everything heard so far: the frames, the finished utterances, the first frame of the running one and
  // of the silence running inside it (-1 for none).
  datatype Heard = Heard(voiced: seq<bool>, closed: seq<Utterance>, open: int, silence: int)

  ghost predicate Sound(c: VadConfiguration, h: Heard) {
    && Utterances(c, h.voiced, h.closed, h.open)
    && (if h.open == -1 then h.silence == -1
        else if h.silence == -1 then h.voiced[|h.voiced| - 1]
        else
          && 0 <= h.open < h.silence < |h.voiced| && h.voiced[h.silence - 1]
          && Silent(h.voiced, h.silence, |h.voiced|)
          && c.Time(|h.voiced| - 1) - c.Time(h.silence) < c.minimumSilenceMs)
  }

  function FrontierMs(c: VadConfiguration, h: Heard): int {
    c.Time(LastEnd(h.closed))
  }

  class Segmenter {
    const configuration: VadConfiguration
    var regions: seq<SpeechRegion>
    var frameIndex: int
    var speechStartMs: int
    var silenceStartMs: int

    ghost var heard: Heard
    ghost var probabilities: seq<real>

    ghost predicate Valid()
      reads this
    {
      Describes() && heard.voiced == Voiced(configuration, probabilities)
    }

    // The fields describe what was heard.
    ghost predicate Describes()
      reads this
    {
      && configuration.Valid()
      && Sound(configuration, heard)
      && frameIndex == |heard.voiced|
      && speechStartMs == (if heard.open == -1 then -1 else configuration.Time(heard.open))
      && silenceStartMs == (if heard.silence == -1 then -1 else configuration.Time(heard.silence))
      && Merged(configuration, Spans(configuration, heard.closed), FrontierMs(configuration, heard), regions)
    }

    constructor (configuration: VadConfiguration)
      requires configuration.Valid()
      ensures Valid() && heard.voiced == [] && probabilities == [] && this.configuration == configuration
    {
      this.configuration := configuration;
      probabilities := [];
      regions, frameIndex, speechStartMs, silenceStartMs := [], 0, -1, -1;
      heard := Heard([], [], -1, -1);
    }

    method AppendProbabilities(added: seq<real>)
      requires Valid()
      modifies this
      ensures Valid() && probabilities == old(probabilities) + added
    {
      for n := 0 to |added|
        invariant Valid() && probabilities == old(probabilities) + added[..n]
      {
        if added[n] >= configuration.threshold {
          HearSpeech();
        } else {
          HearSilence();
        }
        VoicedAppend(configuration, probabilities, added[n]);
        probabilities := probabilities + [added[n]];
        assert added[..n + 1] == added[..n] + [added[n]];
      }
      assert added[..|added|] == added;
    }

    method FrameStart() returns (t: int)
      requires frameIndex >= 0
      ensures t == configuration.Time(frameIndex)
    {
      TimeIsProduct(configuration, frameIndex);
      return frameIndex * configuration.probabilityFrameMs;
    }

    // The loop body of appendProbabilities for a frame at or above the threshold.
    method HearSpeech()
      requires Describes()
      modifies `regions, `frameIndex, `speechStartMs, `silenceStartMs, `heard
      ensures Describes()
      ensures heard.voiced == old(heard.voiced) + [true]
    {
      var frameStart := FrameStart();
      TimesAreOrdered(configuration, heard);
      SpeechExtends(configuration, heard);
      if speechStartMs < 0 {
        speechStartMs := frameStart;
      }
      silenceStartMs := -1;
      heard := AfterSpeech(heard);
      frameIndex := frameIndex + 1;
    }

    // The loop body of appendProbabilities for a frame below the threshold.
    method HearSilence()
      requires Describes()
      modifies `regions, `frameIndex, `speechStartMs, `silenceStartMs, `heard
      ensures Describes()
      ensures heard.voiced == old(heard.voiced) + [false]
    {
      var frameStart := FrameStart();
      TimesAreOrdered(configuration, heard);
      if speechStartMs >= 0 {
        if silenceStartMs < 0 {
          silenceStartMs := frameStart;
        }
        heard := heard.(silence := if heard.silence == -1 then |heard.voiced| else heard.silence);
        if frameStart - silenceStartMs >= configuration.minimumSilenceMs {
          SilenceEnds(configuration, heard);
          MergedNext(configuration, Spans(configuration, heard.closed), FrontierMs(configuration, heard), regions, speechStartMs, silenceStartMs);
          SpansAppend(configuration, heard.closed, Utterance(heard.open, heard.silence));
          CloseSpeech(silenceStartMs);
          heard := AfterBreak(heard);
        } else {
          SilenceBridged(configuration, heard);
          heard := heard.(voiced := heard.voiced + [false]);
        }
      } else {
        SilenceOutside(configuration, heard);
        heard := heard.(voiced := heard.voiced + [false]);
      }
      frameIndex := frameIndex + 1;
    }

    // Afterwards the regions cover what they covered and what the utterance reaches.
    method CloseSpeech(endMs: int)
      modifies this`regions, this`speechStartMs, this`silenceStartMs
      ensures Closing(configuration, old(regions), old(speechStartMs), endMs) ==>
        forall t :: Covered(regions, t) <==>
          Covered(old(regions), t) || Reaches(configuration, Span(old(speechStartMs), endMs), t)
      ensures regions == if old(speechStartMs) >= 0 then Merge(configuration, old(regions), old(speechStartMs), endMs) else old(regions)
      ensures speechStartMs == -1 && silenceStartMs == -1
    {
      if Closing(configuration, regions, speechStartMs, endMs) {
        forall t {
          MergeCovers(configuration, regions, speechStartMs, endMs, t);
        }
      }
      if speechStartMs >= 0 && endMs - speechStartMs >= configuration.minimumSpeechMs {
        var paddedStart := Max(0, speechStartMs - configuration.speechPaddingMs);
        var paddedEnd := endMs + configuration.speechPaddingMs;
        if regions != [] && paddedStart <= regions[|regions| - 1].endMs {
          var last := regions[|regions| - 1];
          regions := regions[|regions| - 1 := SpeechRegion(last.startMs, Max(last.endMs, paddedEnd))];
        } else {
          regions := regions + [SpeechRegion(paddedStart, paddedEnd)];
        }
      }
      speechStartMs := -1;
      silenceStartMs := -1;
    }

    // The result is the region list of the declarative definition, whatever batches the probabilities came in,
    // exactly when the last region starts before the audio ends: only that one is clipped. In terms of what was
    // heard: exactly when no stretch that the utterances reach begins at or after the end. None does if every frame
    // that was heard starts before the end.
    method Finish(audioDurationMs: int) returns (result: seq<SpeechRegion>)
      requires Valid()
      modifies this
      ensures result == regions && heard == old(heard) && probabilities == old(probabilities)
      ensures RegionsOf(configuration, heard.voiced, audioDurationMs, result) <==>
        LastStartsBefore(Ended(configuration, heard, old(regions), Max(0, audioDurationMs)), audioDurationMs)
      ensures configuration.LeavesNoEmptyRegion() ==>
        (RegionsOf(configuration, heard.voiced, audioDurationMs, result) <==>
         !BeginsAfter(configuration, AllSpans(configuration, heard.closed, heard.open, Max(0, audioDurationMs)), audioDurationMs))
      ensures StartsBefore(configuration, heard.voiced, audioDurationMs) ==>
        RegionsOf(configuration, heard.voiced, audioDurationMs, result)
      ensures KeepsSpeech(configuration, probabilities, audioDurationMs, result)
      ensures KeepsSilence(configuration, probabilities, result)
      ensures (forall i :: 0 <= i < |probabilities| ==> probabilities[i] < configuration.threshold) ==> result == []
    {
      SpeechIsKept(configuration, probabilities, heard, regions, audioDurationMs);
      SilenceIsKept(configuration, probabilities, heard, regions, audioDurationMs);
      NothingToReport(configuration, probabilities, heard, regions, audioDurationMs);
      FinishMeetsTheDefinition(configuration, heard, regions, audioDurationMs);
      if configuration.LeavesNoEmptyRegion() {
        LastStartsBeforeIff(configuration, heard, regions, audioDurationMs);
      }
      ghost var before := regions;
      var endMs := Max(0, audioDurationMs);
      if heard.open >= 0 {
        TimeIsMonotone(configuration, 0, heard.open);
      }
      if speechStartMs >= 0 {
        CloseSpeech(endMs);
      }
      if regions != [] {
        var last := regions[|regions| - 1];
        regions := regions[|regions| - 1 := SpeechRegion(last.startMs, Min(last.endMs, endMs))];
      }
      assert regions == Clipped(Ended(configuration, heard, before, endMs), endMs);
      return regions;
    }

    method Reset()
      requires configuration.Valid()
      modifies this
      ensures Valid() && heard.voiced == [] && probabilities == []
    {
      regions, probabilities := [], [];
      frameIndex, speechStartMs, silenceStartMs := 0, -1, -1;
      heard := Heard([], [], -1, -1);
    }
  }

  // ---- What the regions say of the probabilities.

  // The frames from a up to b all reach the threshold.
  predicate Loud(c: VadConfiguration, probabilities: seq<real>, a: nat, b: nat) {
    a < b <= |probabilities| && forall i :: a <= i < b ==> probabilities[i] >= c.threshold
  }

  // None of them does, for as long as ends an utterance.
  predicate LongQuiet(c: VadConfiguration, probabilities: seq<real>, a: nat, b: nat) {
    && a < b <= |probabilities| && (forall i :: a <= i < b ==> probabilities[i] < c.threshold)
    && c.Time(b - 1) - c.Time(a) >= c.minimumSilenceMs
  }

  // Speech that lasts the minimum within the audio is in the regions.
  ghost predicate KeepsSpeech(c: VadConfiguration, probabilities: seq<real>, durationMs: int, regions: seq<SpeechRegion>) {
    forall a: nat, b: nat, t {:trigger Loud(c, probabilities, a, b), Covered(regions, t)} ::
      Loud(c, probabilities, a, b) && Min(c.Time(b), durationMs) - c.Time(a) >= c.minimumSpeechMs
      && c.Time(a) <= t < Min(c.Time(b), durationMs) ==>
        Covered(regions, t)
  }

  // Silence that is long enough is not, except for the padding.
  ghost predicate KeepsSilence(c: VadConfiguration, probabilities: seq<real>, regions: seq<SpeechRegion>) {
    forall a: nat, b: nat, t {:trigger LongQuiet(c, probabilities, a, b), Covered(regions, t)} ::
      LongQuiet(c, probabilities, a, b) && c.Time(a) + c.speechPaddingMs <= t < c.Time(b) - c.speechPaddingMs ==>
        !Covered(regions, t)
  }

  lemma {:induction false} CoveredByEnded(c: VadConfiguration, h: Heard, regions: seq<SpeechRegion>, endMs: int, t: int)
    requires c.Valid() && Sound(c, h) && Merged(c, Spans(c, h.closed), FrontierMs(c, h), regions) && 0 <= endMs
    ensures Covered(Ended(c, h, regions, endMs), t) <==> AnyReaches(c, AllSpans(c, h.closed, h.open, endMs), t)
  {
    TimesAreOrdered(c, h);
    if h.open >= 0 {
      ReachesAppend(c, Spans(c, h.closed), Span(c.Time(h.open), endMs), t);
      if c.Time(h.open) <= endMs {
        MergeCovers(c, regions, c.Time(h.open), endMs, t);
      }
    } else {
      assert AllSpans(c, h.closed, h.open, endMs) == Spans(c, h.closed);
    }
  }

  lemma {:induction false} ClippedCovers(regions: seq<SpeechRegion>, endMs: int, t: int)
    ensures Covered(Clipped(regions, endMs), t) ==> Covered(regions, t)
    ensures t < endMs && Covered(regions, t) ==> Covered(Clipped(regions, endMs), t)
  {
    var clipped := Clipped(regions, endMs);
    if i :| 0 <= i < |clipped| && clipped[i].startMs <= t < clipped[i].endMs {
      assert regions[i].startMs <= t < regions[i].endMs;
    }
    if i :| 0 <= i < |regions| && regions[i].startMs <= t < regions[i].endMs && t < endMs {
      assert clipped[i].startMs <= t < clipped[i].endMs;
    }
  }

  // A voiced frame before the end of the n-th utterance is in one of the first n.
  lemma {:induction false} VoicedIsUttered(c: VadConfiguration, v: seq<bool>, us: seq<Utterance>, open: int, k: nat, n: nat)
    requires Utterances(c, v, us, open) && n <= |us| && k < |v| && v[k] && (n < |us| || open == -1 || k < open)
    requires k < if n < |us| then us[n].first else |v|
    ensures exists i :: 0 <= i < n && us[i].first <= k < us[i].end
  {
    if n < |us| {
      assert FinishedAt(c, v, us, n);
    }
    if n > 0 {
      assert FinishedAt(c, v, us, n - 1);
      if k < us[n - 1].first {
        VoicedIsUttered(c, v, us, open, k, n - 1);
      } else {
        assert us[n - 1].first <= k < us[n - 1].end;
      }
    }
  }

  // Loud frames belong to one utterance.
  lemma {:induction false} LoudIsUttered(c: VadConfiguration, probabilities: seq<real>, us: seq<Utterance>, open: int, a: nat, b: nat)
    requires Utterances(c, Voiced(c, probabilities), us, open) && Loud(c, probabilities, a, b)
    ensures 0 <= open <= a || exists i :: 0 <= i < |us| && us[i].first <= a && b <= us[i].end
  {
    var v := Voiced(c, probabilities);
    if open == -1 || a < open {
      VoicedIsUttered(c, v, us, open, a, |us|);
      var i :| 0 <= i < |us| && us[i].first <= a < us[i].end;
      assert FinishedAt(c, v, us, i);
      assert !v[us[i].end];
    }
  }

  lemma {:induction false} SpeechIsKept(c: VadConfiguration, probabilities: seq<real>, h: Heard, regions: seq<SpeechRegion>,
                                        durationMs: int)
    requires c.Valid() && Sound(c, h) && h.voiced == Voiced(c, probabilities)
    requires Merged(c, Spans(c, h.closed), FrontierMs(c, h), regions)
    ensures
      var endMs := Max(0, durationMs);
      KeepsSpeech(c, probabilities, durationMs, Clipped(Ended(c, h, regions, endMs), endMs))
  {
    var endMs := Max(0, durationMs);
    var ended := Ended(c, h, regions, endMs);
    forall a: nat, b: nat, t | Loud(c, probabilities, a, b) && Min(c.Time(b), durationMs) - c.Time(a) >= c.minimumSpeechMs
      && c.Time(a) <= t < Min(c.Time(b), durationMs)
      ensures Covered(Clipped(ended, endMs), t)
    {
      TimeIsMonotone(c, 0, a);
      LoudIsReached(c, probabilities, h, endMs, a, b, t);
      CoveredByEnded(c, h, regions, endMs, t);
      ClippedCovers(ended, endMs, t);
    }
  }

  lemma {:induction false} LoudIsReached(c: VadConfiguration, probabilities: seq<real>, h: Heard, endMs: int, a: nat, b: nat, t: int)
    requires c.Valid() && Sound(c, h) && h.voiced == Voiced(c, probabilities) && Loud(c, probabilities, a, b)
    requires Min(c.Time(b), endMs) - c.Time(a) >= c.minimumSpeechMs && 0 <= c.Time(a) <= t < Min(c.Time(b), endMs)
    ensures AnyReaches(c, AllSpans(c, h.closed, h.open, endMs), t)
  {
    var spans := AllSpans(c, h.closed, h.open, endMs);
    LoudIsUttered(c, probabilities, h.closed, h.open, a, b);
    if 0 <= h.open <= a {
      TimeIsMonotone(c, h.open, a);
      assert Reaches(c, spans[|h.closed|], t);
    } else {
      var i :| 0 <= i < |h.closed| && h.closed[i].first <= a && b <= h.closed[i].end;
      TimeIsMonotone(c, h.closed[i].first, a);
      TimeIsMonotone(c, b, h.closed[i].end);
      assert Reaches(c, spans[i], t);
    }
  }

  // Where the silence around frame a begins: after a voiced frame, or at the very start.
  lemma {:induction false} SilenceBegins(v: seq<bool>, a: nat) returns (e: nat)
    requires a < |v| && !v[a]
    ensures e <= a && (forall k :: e <= k <= a ==> !v[k]) && (e == 0 || v[e - 1])
  {
    e := a;
    while e > 0 && !v[e - 1]
      invariant e <= a && forall k :: e <= k <= a ==> !v[k]
    {
      e := e - 1;
    }
  }

  // An utterance ends before a long silence or begins after it.
  lemma {:induction false} QuietSeparates(c: VadConfiguration, v: seq<bool>, first: nat, end: nat, a: nat, b: nat)
    requires c.Valid() && first < end && first < |v| && v[first] && a < b <= |v|
    requires (forall k :: a <= k < b ==> !v[k]) && c.Time(b - 1) - c.Time(a) >= c.minimumSilenceMs
    requires forall e {:trigger Break(c, v, e)} :: first < e < end ==> !Break(c, v, e)
    ensures end <= a || b <= first
  {
    var e := SilenceBegins(v, a);
    TimeIsMonotone(c, e, a);
    assert LongSilence(c, v, e, b - 1);
    assert e > 0 ==> Break(c, v, e);
  }

  lemma {:induction false} SilenceIsKept(c: VadConfiguration, probabilities: seq<real>, h: Heard, regions: seq<SpeechRegion>,
                                         durationMs: int)
    requires c.Valid() && Sound(c, h) && h.voiced == Voiced(c, probabilities)
    requires Merged(c, Spans(c, h.closed), FrontierMs(c, h), regions)
    ensures
      var endMs := Max(0, durationMs);
      KeepsSilence(c, probabilities, Clipped(Ended(c, h, regions, endMs), endMs))
  {
    var endMs := Max(0, durationMs);
    var ended := Ended(c, h, regions, endMs);
    forall a: nat, b: nat, t | LongQuiet(c, probabilities, a, b)
      && c.Time(a) + c.speechPaddingMs <= t < c.Time(b) - c.speechPaddingMs
      ensures !Covered(Clipped(ended, endMs), t)
    {
      QuietIsNotReached(c, probabilities, h, endMs, a, b, t);
      CoveredByEnded(c, h, regions, endMs, t);
      ClippedCovers(ended, endMs, t);
    }
  }

  lemma {:induction false} QuietIsNotReached(c: VadConfiguration, probabilities: seq<real>, h: Heard, endMs: int, a: nat, b: nat,
                                             t: int)
    requires c.Valid() && Sound(c, h) && h.voiced == Voiced(c, probabilities) && LongQuiet(c, probabilities, a, b)
    requires c.Time(a) + c.speechPaddingMs <= t < c.Time(b) - c.speechPaddingMs
    ensures !AnyReaches(c, AllSpans(c, h.closed, h.open, endMs), t)
  {
    var spans := AllSpans(c, h.closed, h.open, endMs);
    forall i | 0 <= i < |spans| ensures !Reaches(c, spans[i], t) {
      if i < |h.closed| {
        assert FinishedAt(c, h.voiced, h.closed, i);
        QuietSeparates(c, h.voiced, h.closed[i].first, h.closed[i].end, a, b);
        TimeIsMonotone(c, h.closed[i].end, a);
        TimeIsMonotone(c, b, h.closed[i].first);
      } else {
        QuietSeparates(c, h.voiced, h.open, |h.voiced| + 1, a, b);
        TimeIsMonotone(c, b, h.open);
      }
    }
  }

  lemma {:induction false} NothingToReport(c: VadConfiguration, probabilities: seq<real>, h: Heard, regions: seq<SpeechRegion>,
                                           durationMs: int)
    requires c.Valid() && Sound(c, h) && h.voiced == Voiced(c, probabilities)
    requires Merged(c, Spans(c, h.closed), FrontierMs(c, h), regions)
    ensures
      var endMs := Max(0, durationMs);
      (forall i :: 0 <= i < |probabilities| ==> probabilities[i] < c.threshold) ==> Clipped(Ended(c, h, regions, endMs), endMs) == []
  {
    if forall i :: 0 <= i < |probabilities| ==> probabilities[i] < c.threshold {
      assert forall i :: 0 <= i < |h.voiced| ==> !h.voiced[i];
      assert h.closed != [] ==> FinishedAt(c, h.voiced, h.closed, 0);
      FirstRegionCovers(regions);
    }
  }

  predicate StartsBefore(c: VadConfiguration, v: seq<bool>, durationMs: int) {
    v == [] || c.Time(|v| - 1) < durationMs
  }

  // An utterance runs that no earlier region starts behind.
  predicate Closing(c: VadConfiguration, regions: seq<SpeechRegion>, startMs: int, endMs: int) {
    c.Valid() && 0 <= startMs <= endMs && Separated(regions) && StartsBy(c, regions, startMs)
  }

  predicate LastStartsBefore(regions: seq<SpeechRegion>, durationMs: int) {
    regions == [] || regions[|regions| - 1].startMs < durationMs
  }

  function AfterSpeech(h: Heard): Heard {
    Heard(h.voiced + [true], h.closed, if h.open == -1 then |h.voiced| else h.open, -1)
  }

  function AfterBreak(h: Heard): Heard
    requires 0 <= h.open && 0 <= h.silence
  {
    Heard(h.voiced + [false], h.closed + [Utterance(h.open, h.silence)], -1, -1)
  }

  lemma {:induction false} TimesAreOrdered(c: VadConfiguration, h: Heard)
    requires c.Valid() && Sound(c, h)
    ensures 0 <= c.Time(|h.voiced|) && 0 <= FrontierMs(c, h)
    ensures h.open >= 0 ==> FrontierMs(c, h) <= c.Time(h.open) < c.Time(|h.voiced|)
    ensures h.silence >= 0 ==> c.Time(h.open) < c.Time(h.silence)
  {
    TimeIsMonotone(c, 0, |h.voiced|);
    TimeIsMonotone(c, 0, LastEnd(h.closed));
    if h.open >= 0 {
      TimeIsMonotone(c, LastEnd(h.closed), h.open);
      TimeIsMonotone(c, h.open, |h.voiced|);
      if h.silence >= 0 {
        TimeIsMonotone(c, h.open, h.silence);
      }
    }
  }

  lemma {:induction false} SpansAppend(c: VadConfiguration, us: seq<Utterance>, u: Utterance)
    ensures Spans(c, us + [u]) == Spans(c, us) + [Span(c.Time(u.first), c.Time(u.end))]
  {
  }

  // finish, on values.
  function Ended(c: VadConfiguration, h: Heard, regions: seq<SpeechRegion>, endMs: int): seq<SpeechRegion> {
    if h.open == -1 then regions else Merge(c, regions, c.Time(h.open), endMs)
  }

  function Clipped(regions: seq<SpeechRegion>, endMs: int): seq<SpeechRegion> {
    if regions == [] then regions
    else
      var last := regions[|regions| - 1];
      regions[|regions| - 1 := SpeechRegion(last.startMs, Min(last.endMs, endMs))]
  }

  lemma {:induction false} FinishMeetsTheDefinition(c: VadConfiguration, h: Heard, regions: seq<SpeechRegion>,
                                                    durationMs: int)
    requires c.Valid() && Sound(c, h)
    requires Merged(c, Spans(c, h.closed), FrontierMs(c, h), regions)
    ensures
      var ended := Ended(c, h, regions, Max(0, durationMs));
      && (RegionsOf(c, h.voiced, durationMs, Clipped(ended, Max(0, durationMs))) <==> LastStartsBefore(ended, durationMs))
      && (StartsBefore(c, h.voiced, durationMs) ==> LastStartsBefore(ended, durationMs))
  {
    var endMs := Max(0, durationMs);
    var ended := Ended(c, h, regions, endMs);
    TimesAreOrdered(c, h);
    if LastStartsBefore(ended, durationMs) {
      if h.open >= 0 {
        LastSpanMerges(c, Spans(c, h.closed), FrontierMs(c, h), regions, c.Time(h.open), endMs);
      } else {
        assert AllSpans(c, h.closed, h.open, durationMs) == Spans(c, h.closed);
      }
      assert ended != [] ==> SeparatedAt(ended, |ended| - 1);
      ClippingTheLast(ended, durationMs);
      assert Utterances(c, h.voiced, h.closed, h.open);
    } else {
      assert RegionsOf(c, h.voiced, durationMs, Clipped(ended, endMs)) ==> SeparatedAt(Clipped(ended, endMs), |ended| - 1);
    }
    if StartsBefore(c, h.voiced, durationMs) {
      EarlyFramesStartEarly(c, h, regions, durationMs);
    }
  }

  lemma {:induction false} EarlyFramesStartEarly(c: VadConfiguration, h: Heard, regions: seq<SpeechRegion>, durationMs: int)
    requires c.Valid() && Sound(c, h) && StartsBefore(c, h.voiced, durationMs)
    requires Merged(c, Spans(c, h.closed), FrontierMs(c, h), regions)
    ensures LastStartsBefore(Ended(c, h, regions, Max(0, durationMs)), durationMs)
  {
    if h.closed != [] {
      assert FinishedAt(c, h.voiced, h.closed, |h.closed| - 1);
    }
    if h.voiced == [] {
      FirstRegionCovers(regions);
    } else {
      TimesAreOrdered(c, h);
      TimeIsMonotone(c, 0, |h.voiced| - 1);
      if h.closed != [] {
        TimeIsMonotone(c, LastEnd(h.closed), |h.voiced| - 1);
      }
      if h.open >= 0 {
        TimeIsMonotone(c, h.open, |h.voiced| - 1);
      }
    }
  }

  // The running utterance, which the end of the audio cuts.
  lemma {:induction false} LastSpanMerges(c: VadConfiguration, spans: seq<Span>, frontierMs: int, regions: seq<SpeechRegion>,
                                          startMs: int, endMs: int)
    requires c.Valid() && Merged(c, spans, frontierMs, regions) && 0 <= frontierMs <= startMs && 0 <= endMs
    requires c.LeavesNoEmptyRegion() || LastStartsBefore(Merge(c, regions, startMs, endMs), endMs)
    ensures Separated(Merge(c, regions, startMs, endMs))
    ensures Covers(c, spans + [Span(startMs, endMs)], Merge(c, regions, startMs, endMs))
  {
    var last, merged := Span(startMs, endMs), Merge(c, regions, startMs, endMs);
    forall i | 0 <= i < |merged| ensures SeparatedAt(merged, i) {
      assert i < |regions| ==> SeparatedAt(regions, i);
    }
    forall t ensures Covered(merged, t) <==> AnyReaches(c, spans + [last], t) {
      ReachesAppend(c, spans, last, t);
      if endMs - startMs >= c.minimumSpeechMs {
        MergeCovers(c, regions, startMs, endMs, t);
      }
    }
  }

  // The last region starts before the end exactly if no stretch that the utterances reach begins at or after it.
  lemma {:induction false} LastStartsBeforeIff(c: VadConfiguration, h: Heard, regions: seq<SpeechRegion>, durationMs: int)
    requires c.Valid() && Sound(c, h) && Merged(c, Spans(c, h.closed), FrontierMs(c, h), regions) && c.LeavesNoEmptyRegion()
    ensures LastStartsBefore(Ended(c, h, regions, Max(0, durationMs)), durationMs) <==>
            !BeginsAfter(c, AllSpans(c, h.closed, h.open, Max(0, durationMs)), durationMs)
  {
    var endMs := Max(0, durationMs);
    TimesAreOrdered(c, h);
    if h.open >= 0 {
      LastSpanMerges(c, Spans(c, h.closed), FrontierMs(c, h), regions, c.Time(h.open), endMs);
    } else {
      assert AllSpans(c, h.closed, h.open, endMs) == Spans(c, h.closed);
    }
    LastRegionBegins(c, AllSpans(c, h.closed, h.open, endMs), Ended(c, h, regions, endMs), durationMs);
  }

  lemma {:induction false} LastRegionBegins(c: VadConfiguration, spans: seq<Span>, regions: seq<SpeechRegion>, durationMs: int)
    requires Separated(regions) && Covers(c, spans, regions)
    ensures LastStartsBefore(regions, durationMs) <==> !BeginsAfter(c, spans, durationMs)
  {
    var last := |regions| - 1;
    if t :| t >= durationMs && AnyReaches(c, spans, t) && !AnyReaches(c, spans, t - 1) {
      var i :| 0 <= i < |regions| && regions[i].startMs <= t < regions[i].endMs;
      assert t - 1 >= regions[i].startMs ==> Covered(regions, t - 1);
      if i < last {
        StartsIncrease(regions, i, last);
      }
    }
    if !LastStartsBefore(regions, durationMs) {
      var t := regions[last].startMs;
      assert SeparatedAt(regions, last) && Covered(regions, t);
      if Covered(regions, t - 1) {
        var i :| 0 <= i < |regions| && regions[i].startMs <= t - 1 < regions[i].endMs;
        StartsIncrease(regions, i, last);
      }
      assert AnyReaches(c, spans, t) && !AnyReaches(c, spans, t - 1);
    }
  }

  // A region that starts after the end of the audio is not clipped away: one voiced frame and a silence, in
  // audio said to be empty.
  method RegionPastTheEnd() returns (c: VadConfiguration, probabilities: seq<real>, result: seq<SpeechRegion>)
    ensures c.Valid() && !RegionsOf(c, Voiced(c, probabilities), 0, result)
  {
    c, probabilities := VadConfiguration(0.5, 10, 10, 10, 0), [1.0, 0.0, 0.0];
    var segmenter := new Segmenter(c);
    segmenter.AppendProbabilities(probabilities);
    ghost var v := segmenter.heard.voiced;
    assert v == [true, false, false] == Voiced(c, probabilities);
    OneUtterance(c, v, segmenter.heard.closed, segmenter.heard.open);
    OneSpan(c, segmenter.heard.closed, segmenter.heard.open);
    result := segmenter.Finish(0);
  }

  lemma {:induction false} OneUtterance(c: VadConfiguration, v: seq<bool>, us: seq<Utterance>, open: int)
    requires c.Valid() && c.probabilityFrameMs >= c.minimumSilenceMs && v == [true, false, false] && Utterances(c, v, us, open)
    ensures us == [Utterance(0, 1)] && open == -1
  {
    var one := [Utterance(0, 1)];
    assert c.Time(2) == c.Time(1) + c.probabilityFrameMs;
    assert LongSilence(c, v, 1, 2);
    assert FinishedAt(c, v, one, 0);
    UtterancesAgree(c, v, us, open, one, -1, 0);
  }

  // The utterance begins at the very start.
  lemma {:induction false} OneSpan(c: VadConfiguration, us: seq<Utterance>, open: int)
    requires c.probabilityFrameMs >= c.minimumSpeechMs && c.Time(1) > 0 && us == [Utterance(0, 1)] && open == -1
    requires c.speechPaddingMs >= 0
    ensures BeginsAfter(c, AllSpans(c, us, open, 0), 0)
  {
    var spans := AllSpans(c, us, open, 0);
    assert spans == [Span(0, c.Time(1))] && c.Time(1) == c.probabilityFrameMs;
    assert Reaches(c, spans[0], 0);
    assert AnyReaches(c, spans, 0) && !AnyReaches(c, spans, 0 - 1);
  }

  // The ways the frames can go on. In each, the finished utterances are kept.

  lemma {:induction false} SpeechExtends(c: VadConfiguration, h: Heard)
    requires c.Valid() && Sound(c, h)
    ensures Sound(c, AfterSpeech(h))
  {
    var v, longer := h.voiced, h.voiced + [true];
    UtterancesStay(c, v, h.closed, h.open, [true]);
    forall b: nat | AfterSpeech(h).open < b ensures !Break(c, longer, b) {
      if b < |v| && Break(c, longer, b) {
        var j :| LongSilence(c, longer, b, j);
        SilenceStopsBeforeSpeech(c, v, [true], b, j, |v|);
        assert Break(c, v, b);
      } else if b == |v| {
        assert longer[b];
      }
    }
  }

  predicate Pausing(h: Heard) {
    0 <= h.open < h.silence <= |h.voiced| && h.voiced[h.silence - 1] && Silent(h.voiced, h.silence, |h.voiced|)
  }

  lemma {:induction false} SilenceEnds(c: VadConfiguration, h: Heard)
    requires c.Valid() && Utterances(c, h.voiced, h.closed, h.open) && Pausing(h)
    requires c.Time(|h.voiced|) - c.Time(h.silence) >= c.minimumSilenceMs
    ensures Sound(c, AfterBreak(h))
  {
    var v, longer := h.voiced, h.voiced + [false];
    var us := h.closed;
    var u := Utterance(h.open, h.silence);
    UtterancesStay(c, v, us, h.open, [false]);
    assert LongSilence(c, longer, h.silence, |v|);
    forall b: nat | h.open < b < h.silence ensures !Break(c, longer, b) {
      BreaksBeforeSpeechAreSettled(c, v, [false], b, h.silence - 1);
    }
    assert Closed(c, longer, u);
    var more := us + [u];
    forall i | 0 <= i < |more| ensures FinishedAt(c, longer, more, i) {
      if i < |us| {
        assert FinishedAt(c, longer, us, i);
      }
    }
  }

  lemma {:induction false} SilenceBridged(c: VadConfiguration, h: Heard)
    requires c.Valid() && Utterances(c, h.voiced, h.closed, h.open) && Pausing(h)
    requires c.Time(|h.voiced|) - c.Time(h.silence) < c.minimumSilenceMs
    ensures Sound(c, h.(voiced := h.voiced + [false]))
  {
    var v, longer := h.voiced, h.voiced + [false];
    UtterancesStay(c, v, h.closed, h.open, [false]);
    forall b: nat | h.open < b ensures !Break(c, longer, b) {
      if b < h.silence {
        BreaksBeforeSpeechAreSettled(c, v, [false], b, h.silence - 1);
      } else if b == h.silence {
        forall j: nat | b <= j < |longer| ensures !LongSilence(c, longer, b, j) {
          TimeIsMonotone(c, j, |v|);
        }
      } else if b < |longer| {
        assert !longer[b - 1];
      }
    }
  }

  lemma {:induction false} SilenceOutside(c: VadConfiguration, h: Heard)
    requires c.Valid() && Sound(c, h) && h.open == -1
    ensures Sound(c, h.(voiced := h.voiced + [false]))
  {
    UtterancesStay(c, h.voiced, h.closed, -1, [false]);
  }

  // closeSpeech, on values.
  function Merge(c: VadConfiguration, regions: seq<SpeechRegion>, startMs: int, endMs: int): seq<SpeechRegion> {
    if endMs - startMs < c.minimumSpeechMs then regions
    else
      var paddedStart, paddedEnd := Max(0, startMs - c.speechPaddingMs), endMs + c.speechPaddingMs;
      if regions != [] && paddedStart <= regions[|regions| - 1].endMs then
        var last := regions[|regions| - 1];
        regions[|regions| - 1 := SpeechRegion(last.startMs, Max(last.endMs, paddedEnd))]
      else
        regions + [SpeechRegion(paddedStart, paddedEnd)]
  }

  predicate StartsBy(c: VadConfiguration, regions: seq<SpeechRegion>, frontierMs: int) {
    regions != [] ==> regions[|regions| - 1].startMs <= Max(0, frontierMs - c.speechPaddingMs)
  }

  ghost predicate Covers(c: VadConfiguration, spans: seq<Span>, regions: seq<SpeechRegion>) {
    forall t :: Covered(regions, t) <==> AnyReaches(c, spans, t)
  }

  // The regions cover exactly what the spans reach, and the next span, which starts no earlier than
  // frontierMs, cannot reach back before the last region's start.
  ghost predicate Merged(c: VadConfiguration, spans: seq<Span>, frontierMs: int, regions: seq<SpeechRegion>) {
    Separated(regions) && StartsBy(c, regions, frontierMs) && Covers(c, spans, regions)
  }

  lemma {:induction false} MergedNext(c: VadConfiguration, spans: seq<Span>, frontierMs: int,
                                      regions: seq<SpeechRegion>, startMs: int, endMs: int)
    requires c.Valid() && Merged(c, spans, frontierMs, regions)
    requires 0 <= frontierMs <= startMs < endMs
    ensures Merged(c, spans + [Span(startMs, endMs)], endMs, Merge(c, regions, startMs, endMs))
    ensures StartsBy(c, Merge(c, regions, startMs, endMs), startMs)
  {
    var next := Span(startMs, endMs);
    var merged := Merge(c, regions, startMs, endMs);
    forall i | 0 <= i < |merged| ensures SeparatedAt(merged, i) {
      if i < |regions| {
        assert SeparatedAt(regions, i);
      }
    }
    forall t ensures AnyReaches(c, spans + [next], t) <==> AnyReaches(c, spans, t) || Reaches(c, next, t) {
      ReachesAppend(c, spans, next, t);
    }
    forall t ensures Covered(merged, t) <==> Covered(regions, t) || Reaches(c, next, t) {
      MergeCovers(c, regions, startMs, endMs, t);
    }
  }

  lemma {:induction false} ReachesAppend(c: VadConfiguration, spans: seq<Span>, next: Span, t: int)
    ensures AnyReaches(c, spans + [next], t) <==> AnyReaches(c, spans, t) || Reaches(c, next, t)
  {
    var more := spans + [next];
    if AnyReaches(c, spans, t) {
      var i :| 0 <= i < |spans| && Reaches(c, spans[i], t);
      assert more[i] == spans[i];
    }
    if Reaches(c, next, t) {
      assert more[|spans|] == next;
    }
  }

  lemma {:induction false} MergeCovers(c: VadConfiguration, regions: seq<SpeechRegion>, startMs: int, endMs: int,
                                       t: int)
    requires c.Valid() && Separated(regions) && 0 <= startMs <= endMs
    requires StartsBy(c, regions, startMs)
    ensures Covered(Merge(c, regions, startMs, endMs), t) <==> Covered(regions, t) || Reaches(c, Span(startMs, endMs), t)
  {
    var merged := Merge(c, regions, startMs, endMs);
    if Covered(regions, t) {
      var i :| 0 <= i < |regions| && regions[i].startMs <= t < regions[i].endMs;
      assert merged[i].startMs <= t < merged[i].endMs;
    }
    if Reaches(c, Span(startMs, endMs), t) && !Covered(regions, t) {
      assert merged[|merged| - 1].startMs <= t < merged[|merged| - 1].endMs;
    }
    if Covered(merged, t) {
      var i :| 0 <= i < |merged| && merged[i].startMs <= t < merged[i].endMs;
      if i < |regions| && merged[i] == regions[i] {
        assert Covered(regions, t);
      } else if i < |regions| {
        assert t < regions[i].endMs ==> Covered(regions, t);
      }
    }
  }

  // Only the last region can reach past the end of the audio.
  lemma {:induction false} ClippingTheLast(regions: seq<SpeechRegion>, durationMs: int)
    requires Separated(regions)
    requires regions != [] ==> regions[|regions| - 1].startMs < durationMs
    ensures Separated(Clipped(regions, durationMs))
    ensures forall t :: Covered(Clipped(regions, durationMs), t) <==> t < durationMs && Covered(regions, t)
  {
    if regions != [] {
      var last := |regions| - 1;
      var clipped := Clipped(regions, durationMs);
      forall i | 0 <= i < last ensures regions[i].endMs < regions[last].startMs {
        StartsIncrease(regions, i, last);
      }
      forall i | 0 <= i < |regions| ensures SeparatedAt(clipped, i) {
        assert SeparatedAt(regions, i);
      }
      forall t ensures Covered(clipped, t) <==> t < durationMs && Covered(regions, t) {
        if Covered(clipped, t) {
          var i :| 0 <= i < |clipped| && clipped[i].startMs <= t < clipped[i].endMs;
          assert regions[i].startMs <= t < regions[i].endMs;
        }
        if t < durationMs && Covered(regions, t) {
          var i :| 0 <= i < |regions| && regions[i].startMs <= t < regions[i].endMs;
          assert clipped[i].startMs <= t < clipped[i].endMs;
        }
      }
    }
  }

  lemma {:induction false} StartsIncrease(regions: seq<SpeechRegion>, i: nat, j: nat)
    requires Separated(regions) && i < j < |regions|
    ensures regions[i].endMs < regions[j].startMs
    decreases j - i
  {
    assert SeparatedAt(regions, i) && SeparatedAt(regions, j) && SeparatedAt(regions, j - 1);
    if i < j - 1 {
      StartsIncrease(regions, i, j - 1);
    }
  }

  lemma {:induction false} FirstRegionCovers(regions: seq<SpeechRegion>)
    requires Separated(regions)
    ensures regions == [] || Covered(regions, regions[0].startMs)
  {
    assert regions != [] ==> SeparatedAt(regions, 0);
  }

  // ---- The definition determines the regions.

  lemma {:induction false} UtterancesAgree(c: VadConfiguration, v: seq<bool>, us: seq<Utterance>, open: int,
                                           us': seq<Utterance>, open': int, n: nat)
    requires Utterances(c, v, us, open) && Utterances(c, v, us', open')
    requires n <= |us| && n <= |us'| && us[..n] == us'[..n]
    ensures us == us' && open == open'
    decreases |us| - n
  {
    assert n > 0 ==> us[n - 1] == us[..n][n - 1] && us'[n - 1] == us'[..n][n - 1];
    if n < |us| {
      HasNext(c, v, us, open, us', open', n);
      assert us[..n + 1] == us[..n] + [us[n]] && us'[..n + 1] == us'[..n] + [us'[n]];
      UtterancesAgree(c, v, us, open, us', open', n + 1);
    } else if n < |us'| {
      HasNext(c, v, us', open', us, open, n);
    } else {
      assert us == us[..n] && us' == us'[..n];
    }
  }

  lemma {:induction false} HasNext(c: VadConfiguration, v: seq<bool>, us: seq<Utterance>, open: int,
                                   us': seq<Utterance>, open': int, n: nat)
    requires Utterances(c, v, us, open) && Utterances(c, v, us', open')
    requires n < |us| && n <= |us'|
    requires n > 0 ==> us[n - 1] == us'[n - 1]
    ensures n < |us'| && us[n] == us'[n]
  {
    assert FinishedAt(c, v, us, n);
    var u := us[n];
    assert v[u.first] && Break(c, v, u.end);
    if n < |us'| {
      assert FinishedAt(c, v, us', n);
      assert v[us'[n].first] && Break(c, v, us'[n].end);
    }
  }

  lemma {:induction false} RegionsAgree(a: seq<SpeechRegion>, b: seq<SpeechRegion>, n: nat)
    requires Separated(a) && Separated(b) && forall t :: Covered(a, t) <==> Covered(b, t)
    requires n <= |a| && n <= |b| && a[..n] == b[..n]
    ensures a == b
    decreases |a| - n
  {
    if n < |a| {
      NextRegionStarts(a, b, n);
      NextRegionStarts(b, a, n);
      NextRegionEnds(a, b, n);
      NextRegionEnds(b, a, n);
      assert a[n] == b[n];
      assert a[..n + 1] == a[..n] + [a[n]] && b[..n + 1] == b[..n] + [b[n]];
      RegionsAgree(a, b, n + 1);
    } else if n < |b| {
      NextRegionStarts(b, a, n);
    } else {
      assert a == a[..n] && b == b[..n];
    }
  }

  lemma {:induction false} NextRegionStarts(a: seq<SpeechRegion>, b: seq<SpeechRegion>, n: nat)
    requires Separated(a) && Separated(b) && forall t :: Covered(a, t) <==> Covered(b, t)
    requires n < |a| && n <= |b| && a[..n] == b[..n]
    ensures n < |b| && b[n].startMs <= a[n].startMs
  {
    var t := a[n].startMs;
    assert SeparatedAt(a, n);
    assert Covered(a, t) && Covered(b, t);
    var j :| 0 <= j < |b| && b[j].startMs <= t < b[j].endMs;
    if j < n {
      assert a[j] == a[..n][j] == b[j];
      StartsIncrease(a, j, n);
    } else if n < j {
      assert SeparatedAt(b, n);
      StartsIncrease(b, n, j);
    }
  }

  lemma {:induction false} NextRegionEnds(a: seq<SpeechRegion>, b: seq<SpeechRegion>, n: nat)
    requires Separated(a) && Separated(b) && forall t :: Covered(a, t) <==> Covered(b, t)
    requires n < |a| && n < |b| && a[n].startMs == b[n].startMs
    ensures b[n].endMs <= a[n].endMs
  {
    var t := a[n].endMs;
    assert SeparatedAt(a, n) && SeparatedAt(b, n);
    if t < b[n].endMs {
      assert Covered(b, t) && Covered(a, t);
      var j :| 0 <= j < |a| && a[j].startMs <= t < a[j].endMs;
      if j < n {
        StartsIncrease(a, j, n);
      } else if n < j {
        StartsIncrease(a, n, j);
      }
    }
  }

  // One list of regions at most fits the frames and the duration, so batching cannot show.
  lemma {:induction false} RegionsAreDetermined(c: VadConfiguration, v: seq<bool>, durationMs: int,
                                                a: seq<SpeechRegion>, b: seq<SpeechRegion>)
    requires RegionsOf(c, v, durationMs, a) && RegionsOf(c, v, durationMs, b)
    ensures a == b
  {
    var us, open :| Utterances(c, v, us, open)
      && forall t :: Covered(a, t) <==> t < durationMs && AnyReaches(c, AllSpans(c, us, open, durationMs), t);
    var us', open' :| Utterances(c, v, us', open')
      && forall t :: Covered(b, t) <==> t < durationMs && AnyReaches(c, AllSpans(c, us', open', durationMs), t);
    UtterancesAgree(c, v, us, open, us', open', 0);
    RegionsAgree(a, b, 0);
  }
}
