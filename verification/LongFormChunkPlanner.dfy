// src/asr/LongFormChunkPlanner.cpp: cutting long audio at silences into overlapping chunks.

module LongFormChunkPlanner {
  import opened Outcomes
  import opened ChunkPlan

  datatype SpeechRegion = SpeechRegion(startMs: int, endMs: int) {
    // Strictly inside: cutting here would split speech.
    predicate Splits(t: int) {
      startMs < t < endMs
    }

    predicate Holds(t: int) {
      startMs <= t < endMs
    }
  }

  datatype PlannerConfiguration = PlannerConfiguration(
    shortAudioThresholdMs: int, targetChunkMs: int, minimumPreferredChunkMs: int,
    maximumPreferredChunkMs: int, hardMaximumChunkMs: int, hardCutOverlapMs: int)
  {
    predicate Valid() {
      0 <= hardCutOverlapMs < minimumPreferredChunkMs <= targetChunkMs <= maximumPreferredChunkMs <= hardMaximumChunkMs
    }
  }

  const DEFAULT_CONFIGURATION :=
    PlannerConfiguration(12 * 60 * 1000, 10 * 60 * 1000, 8 * 60 * 1000, 12 * 60 * 1000, 15 * 60 * 1000, 900)

  // Clamped regions in the order given; regions left empty by clamping are dropped.
  function Clamped(regions: seq<SpeechRegion>, durationMs: int): (r: seq<SpeechRegion>)
    requires durationMs > 0
    ensures forall k :: 0 <= k < |r| ==> 0 <= r[k].startMs < r[k].endMs <= durationMs
  {
    if regions == [] then []
    else
      var last := regions[|regions| - 1];
      var start, end := Clamp(last.startMs, 0, durationMs), Clamp(last.endMs, 0, durationMs);
      Clamped(regions[..|regions| - 1], durationMs) + (if end > start then [SpeechRegion(start, end)] else [])
  }

  // Some region holds millisecond t of the audio.
  predicate Spoken(regions: seq<SpeechRegion>, durationMs: int, t: int) {
    0 <= t < durationMs && exists k :: 0 <= k < |regions| && regions[k].Holds(t)
  }

  ghost predicate SameSpeech(a: seq<SpeechRegion>, b: seq<SpeechRegion>, durationMs: int) {
    forall t :: Spoken(a, durationMs, t) <==> Spoken(b, durationMs, t)
  }

  // Clamping keeps exactly the speech within the audio.
  lemma {:induction false} ClampingKeepsSpeech(regions: seq<SpeechRegion>, durationMs: int)
    requires durationMs > 0
    ensures SameSpeech(Clamped(regions, durationMs), regions, durationMs)
    ensures Clamped(regions, durationMs) == [] <==> forall t :: !Spoken(regions, durationMs, t)
  {
    var clamped := Clamped(regions, durationMs);
    if regions != [] {
      var n := |regions| - 1;
      var rest, last := regions[..n], regions[n];
      ClampingKeepsSpeech(rest, durationMs);
      assert regions == rest + [last];
      ClampingOneMore(rest, last, Clamped(rest, durationMs), clamped, durationMs);
    }
    assert clamped != [] ==> clamped[0].Holds(clamped[0].startMs) && Spoken(clamped, durationMs, clamped[0].startMs);
  }

  lemma {:induction false} ClampingOneMore(rest: seq<SpeechRegion>, last: SpeechRegion, kept: seq<SpeechRegion>,
                                           clamped: seq<SpeechRegion>, durationMs: int)
    requires durationMs > 0 && SameSpeech(kept, rest, durationMs)
    requires
      var start, end := Clamp(last.startMs, 0, durationMs), Clamp(last.endMs, 0, durationMs);
      clamped == if end > start then kept + [SpeechRegion(start, end)] else kept
    ensures SameSpeech(clamped, rest + [last], durationMs)
  {
    var clip := SpeechRegion(Clamp(last.startMs, 0, durationMs), Clamp(last.endMs, 0, durationMs));
    forall t ensures Spoken(clamped, durationMs, t) <==> Spoken(rest + [last], durationMs, t) {
      OneMoreRegion(rest, last, durationMs, t);
      OneMoreRegion(kept, clip, durationMs, t);
    }
  }

  lemma {:induction false} OneMoreRegion(regions: seq<SpeechRegion>, last: SpeechRegion, durationMs: int, t: int)
    ensures Spoken(regions + [last], durationMs, t) <==> Spoken(regions, durationMs, t) || (0 <= t < durationMs && last.Holds(t))
  {
    var more := regions + [last];
    assert more[|regions|] == last && forall k :: 0 <= k < |regions| ==> more[k] == regions[k];
  }

  predicate SortedByStart(regions: seq<SpeechRegion>) {
    forall i, j :: 0 <= i < j < |regions| ==> regions[i].startMs <= regions[j].startMs
  }

  predicate Regions(regions: seq<SpeechRegion>, durationMs: int) {
    forall k :: 0 <= k < |regions| ==> 0 <= regions[k].startMs < regions[k].endMs <= durationMs
  }

  // A stretch [low, high) of the audio without speech that cannot be made longer.
  ghost predicate MaximalSilence(regions: seq<SpeechRegion>, durationMs: int, low: int, high: int) {
    && 0 <= low < high <= durationMs
    && (forall t :: low <= t < high ==> !Spoken(regions, durationMs, t))
    && (low == 0 || Spoken(regions, durationMs, low - 1))
    && (high == durationMs || Spoken(regions, durationMs, high))
  }

  // Equally far from both ends, up to a millisecond.
  predicate Between(low: int, high: int, t: int) {
    0 <= (high - t) - (t - low) <= 1
  }

  ghost predicate Midpoint(regions: seq<SpeechRegion>, durationMs: int, t: int) {
    exists low, high :: MaximalSilence(regions, durationMs, low, high) && Between(low, high, t)
  }

  // Where the planner may cut without overlap.
  ghost predicate SilenceBoundary(c: PlannerConfiguration, regions: seq<SpeechRegion>, durationMs: int, t: int) {
    || Midpoint(regions, durationMs, t)
    || ((forall s :: !Spoken(regions, durationMs, s)) && 0 < t < durationMs && exists n: nat :: t == c.targetChunkMs * n)
  }

  // All of them.
  ghost function Silences(c: PlannerConfiguration, regions: seq<SpeechRegion>, durationMs: int): iset<int> {
    iset t | SilenceBoundary(c, regions, durationMs, t)
  }

  predicate PreferredWindow(c: PlannerConfiguration, durationMs: int, cursor: int, t: int) {
    cursor + c.minimumPreferredChunkMs <= t <= Min(durationMs, cursor + c.maximumPreferredChunkMs)
  }

  predicate PermittedWindow(c: PlannerConfiguration, durationMs: int, cursor: int, t: int) {
    cursor + c.minimumPreferredChunkMs <= t <= Min(durationMs, cursor + c.hardMaximumChunkMs)
  }

  function TargetDistance(c: PlannerConfiguration, durationMs: int, cursor: int, t: int): nat {
    Abs(t - Min(durationMs, cursor + c.targetChunkMs))
  }

  // Some silence boundary lies in the preferred window of a chunk that starts at cursor.
  ghost predicate HasPreferred(c: PlannerConfiguration, silences: iset<int>, durationMs: int, cursor: int) {
    exists t :: t in silences && PreferredWindow(c, durationMs, cursor, t)
  }

  ghost predicate HasPermitted(c: PlannerConfiguration, silences: iset<int>, durationMs: int, cursor: int) {
    exists t :: t in silences && PermittedWindow(c, durationMs, cursor, t)
  }

  ghost predicate ClosestPreferred(c: PlannerConfiguration, silences: iset<int>, durationMs: int, cursor: int,
                                   end: int) {
    && end in silences && PreferredWindow(c, durationMs, cursor, end)
    && forall t :: t in silences && PreferredWindow(c, durationMs, cursor, t) ==>
         TargetDistance(c, durationMs, cursor, end) <= TargetDistance(c, durationMs, cursor, t)
  }

  ghost predicate ClosestPermitted(c: PlannerConfiguration, silences: iset<int>, durationMs: int, cursor: int,
                                   end: int) {
    && end in silences && PermittedWindow(c, durationMs, cursor, end)
    && forall t :: t in silences && PermittedWindow(c, durationMs, cursor, t) ==>
         TargetDistance(c, durationMs, cursor, end) <= TargetDistance(c, durationMs, cursor, t)
  }

  // The choice the planner is meant to make for a chunk that is not the last: the silence closest to the
  // target in the preferred window, else the closest up to the hard maximum, else the hard maximum itself,
  // overlapping the next chunk unless the audio ends there.
  ghost predicate WellCut(c: PlannerConfiguration, silences: iset<int>, durationMs: int, chunk: Chunk) {
    if HasPreferred(c, silences, durationMs, chunk.startMs) then
      chunk.overlapAfterMs == 0 && ClosestPreferred(c, silences, durationMs, chunk.startMs, chunk.endMs)
    else if HasPermitted(c, silences, durationMs, chunk.startMs) then
      chunk.overlapAfterMs == 0 && ClosestPermitted(c, silences, durationMs, chunk.startMs, chunk.endMs)
    else
      && chunk.endMs == Min(durationMs, chunk.startMs + c.hardMaximumChunkMs)
      && chunk.overlapAfterMs == if chunk.endMs < durationMs then c.hardCutOverlapMs else 0
  }

  // What the planner is meant to do from chunk.startMs on: audio that fits one preferred chunk is the last chunk.
  ghost predicate Chosen(c: PlannerConfiguration, silences: iset<int>, durationMs: int, chunk: Chunk) {
    if durationMs - chunk.startMs <= c.maximumPreferredChunkMs then chunk.endMs == durationMs && chunk.overlapAfterMs == 0
    else WellCut(c, silences, durationMs, chunk)
  }

  ghost predicate Lists(boundaries: seq<int>, silences: iset<int>) {
    forall t :: t in boundaries <==> t in silences
  }

  // std::sort by start. Which of two regions with equal starts comes first is left open by the source;
  // nothing below depends on it.
  method SortByStart(regions: seq<SpeechRegion>) returns (sorted: seq<SpeechRegion>)
    ensures multiset(sorted) == multiset(regions)
    ensures SortedByStart(sorted)
  {
    sorted := [];
    for n := 0 to |regions|
      invariant SortedByStart(sorted)
      invariant multiset(sorted) == multiset(regions[..n])
    {
      var at := CountBefore(sorted, regions[n].startMs);
      InsertKeepsOrder(sorted, at, regions[n]);
      assert regions[..n + 1] == regions[..n] + [regions[n]];
      sorted := sorted[..at] + [regions[n]] + sorted[at..];
    }
    assert regions[..|regions|] == regions;
  }

  lemma {:induction false} InsertKeepsOrder(sorted: seq<SpeechRegion>, at: nat, region: SpeechRegion)
    requires SortedByStart(sorted) && at <= |sorted|
    requires forall k :: 0 <= k < at ==> sorted[k].startMs < region.startMs
    requires at < |sorted| ==> region.startMs <= sorted[at].startMs
    ensures SortedByStart(sorted[..at] + [region] + sorted[at..])
    ensures multiset(sorted[..at] + [region] + sorted[at..]) == multiset(sorted) + multiset{region}
  {
    assert sorted == sorted[..at] + sorted[at..];
  }

  function CountBefore(regions: seq<SpeechRegion>, high: int): (n: nat)
    requires SortedByStart(regions)
    ensures n <= |regions|
    ensures forall k :: 0 <= k < n ==> regions[k].startMs < high
    ensures n < |regions| ==> high <= regions[n].startMs
  {
    if regions == [] then 0
    else
      var last := |regions| - 1;
      if regions[last].startMs < high then |regions| else CountBefore(regions[..last], high)
  }

  lemma {:induction false} SameRegions(a: seq<SpeechRegion>, b: seq<SpeechRegion>)
    requires multiset(a) == multiset(b)
    ensures |a| == |b|
    ensures forall k :: 0 <= k < |a| ==> a[k] in b
    ensures forall k :: 0 <= k < |b| ==> b[k] in a
  {
    assert |multiset(a)| == |a| && |multiset(b)| == |b|;
    forall k | 0 <= k < |a| ensures a[k] in b {
      assert a[k] in multiset(b);
    }
    forall k | 0 <= k < |b| ensures b[k] in a {
      assert b[k] in multiset(a);
    }
  }

  lemma {:induction false} SameSpeechSameSilences(c: PlannerConfiguration, a: seq<SpeechRegion>, b: seq<SpeechRegion>,
                                                  durationMs: int, t: int)
    requires SameSpeech(a, b, durationMs)
    ensures SilenceBoundary(c, a, durationMs, t) <==> SilenceBoundary(c, b, durationMs, t)
  {
    assert forall low, high :: MaximalSilence(a, durationMs, low, high) <==> MaximalSilence(b, durationMs, low, high);
  }

  lemma {:induction false} BoundariesIgnoreOrder(c: PlannerConfiguration, a: seq<SpeechRegion>, b: seq<SpeechRegion>,
                                                 durationMs: int, t: int)
    requires multiset(a) == multiset(b)
    ensures SameSpeech(a, b, durationMs)
    ensures SilenceBoundary(c, a, durationMs, t) <==> SilenceBoundary(c, b, durationMs, t)
  {
    SameRegions(a, b);
    SameSpeechSameSilences(c, a, b, durationMs, t);
  }

  // How far the first n regions reach.
  function Reach(regions: seq<SpeechRegion>, n: nat): (r: int)
    requires n <= |regions|
    ensures r >= 0
    ensures forall k :: 0 <= k < n ==> regions[k].endMs <= r
    ensures r == 0 || exists k :: 0 <= k < n && regions[k].endMs == r
  {
    if n == 0 then 0 else Max(Reach(regions, n - 1), regions[n - 1].endMs)
  }

  lemma {:induction false} SweptGapIsMaximal(regions: seq<SpeechRegion>, durationMs: int, n: nat)
    requires Regions(regions, durationMs) && SortedByStart(regions) && n <= |regions|
    requires n < |regions| ==> Reach(regions, n) < regions[n].startMs
    requires n == |regions| ==> Reach(regions, n) < durationMs
    ensures
      MaximalSilence(regions, durationMs, Reach(regions, n), if n < |regions| then regions[n].startMs else durationMs)
  {
    var low, high := Reach(regions, n), if n < |regions| then regions[n].startMs else durationMs;
    if low != 0 {
      var k :| 0 <= k < n && regions[k].endMs == low;
      assert regions[k].Holds(low - 1);
    }
    assert n < |regions| ==> regions[n].Holds(high);
  }

  // Every maximal silence shows up in the left-to-right sweep.
  lemma {:induction false} MaximalSilenceIsSwept(regions: seq<SpeechRegion>, durationMs: int, low: int, high: int, n: nat)
    requires Regions(regions, durationMs) && SortedByStart(regions) && n <= |regions|
    requires MaximalSilence(regions, durationMs, low, high)
    requires forall k :: 0 <= k < n ==> regions[k].startMs < high
    requires n < |regions| ==> high <= regions[n].startMs
    ensures Reach(regions, n) == low
    ensures n < |regions| ==> regions[n].startMs == high
    ensures n == |regions| ==> high == durationMs
  {
    forall k | 0 <= k < n ensures regions[k].endMs <= low {
      var t := Max(regions[k].startMs, low);
      assert regions[k].endMs > low ==> regions[k].Holds(t) && Spoken(regions, durationMs, t);
    }
    if low != 0 {
      var k :| 0 <= k < |regions| && regions[k].Holds(low - 1);
      assert k < n;
    }
    if high != durationMs {
      var k :| 0 <= k < |regions| && regions[k].Holds(high);
      assert n <= k;
    }
  }

  // Without any speech the planner cuts at multiples of the target length.
  method RegularBoundaries(c: PlannerConfiguration, durationMs: int) returns (boundaries: seq<int>)
    requires c.Valid() && durationMs > 0
    ensures forall t :: t in boundaries <==> 0 < t < durationMs && exists n: nat :: t == c.targetChunkMs * n
  {
    boundaries := [];
    var boundary := c.targetChunkMs;
    ghost var n: nat := 1;
    while boundary < durationMs
      invariant n >= 1 && boundary == c.targetChunkMs * n
      invariant forall t :: t in boundaries ==> 0 < t < durationMs && exists k: nat :: t == c.targetChunkMs * k
      invariant forall k: nat :: 1 <= k < n ==> c.targetChunkMs * k in boundaries
      decreases durationMs - boundary
    {
      boundaries := boundaries + [boundary];
      boundary := boundary + c.targetChunkMs;
      n := n + 1;
    }
    forall t | 0 < t < durationMs && exists k: nat :: t == c.targetChunkMs * k ensures t in boundaries {
      var k: nat :| t == c.targetChunkMs * k;
      if k >= n {
        MultiplesGrow(c.targetChunkMs, n, k);
      }
    }
  }

  function Halved(low: int, high: int): (t: int)
    ensures Between(low, high, t) && forall u :: Between(low, high, u) ==> u == t
  {
    low + (high - low) / 2
  }

  // The sweep over the sorted regions, which carries the furthest end seen so far.
  method GapMidpoints(regions: seq<SpeechRegion>, durationMs: int) returns (boundaries: seq<int>)
    requires durationMs > 0 && Regions(regions, durationMs) && SortedByStart(regions)
    ensures forall t :: t in boundaries <==> Midpoint(regions, durationMs, t)
  {
    boundaries := [];
    var previousEnd := 0;
    for n := 0 to |regions|
      invariant previousEnd == Reach(regions, n)
      invariant forall t :: t in boundaries ==> Midpoint(regions, durationMs, t)
      invariant forall m :: 0 <= m < n && Reach(regions, m) < regions[m].startMs ==>
                  Halved(Reach(regions, m), regions[m].startMs) in boundaries
    {
      var region := regions[n];
      if region.startMs > previousEnd {
        SweptGapIsMaximal(regions, durationMs, n);
        boundaries := boundaries + [Halved(previousEnd, region.startMs)];
      }
      previousEnd := Max(previousEnd, region.endMs);
    }
    if previousEnd < durationMs {
      SweptGapIsMaximal(regions, durationMs, |regions|);
      boundaries := boundaries + [Halved(previousEnd, durationMs)];
    }
    forall t | Midpoint(regions, durationMs, t) ensures t in boundaries {
      var low, high :| MaximalSilence(regions, durationMs, low, high) && Between(low, high, t);
      MaximalSilenceIsSwept(regions, durationMs, low, high, CountBefore(regions, high));
    }
  }

  method SilenceBoundaries(c: PlannerConfiguration, regions: seq<SpeechRegion>,
                           durationMs: int) returns (boundaries: seq<int>)
    requires c.Valid() && durationMs > 0
    requires Regions(regions, durationMs) && SortedByStart(regions)
    ensures Lists(boundaries, Silences(c, regions, durationMs))
  {
    boundaries := [];
    if regions == [] {
      boundaries := RegularBoundaries(c, durationMs);
    } else {
      assert regions[0].Holds(regions[0].startMs) && Spoken(regions, durationMs, regions[0].startMs);
    }
    var midpoints := GapMidpoints(regions, durationMs);
    boundaries := boundaries + midpoints;
  }

  lemma {:induction false} MultiplesGrow(d: nat, m: nat, n: nat)
    requires m <= n
    ensures d * m <= d * n
  {
    assert d * n == d * m + d * (n - m);
  }

  // One of the two search loops: the candidate in [low, high] closest to target, the first of several.
  method NearestBoundary(boundaries: seq<int>, low: int, high: int, target: int) returns (found: bool, boundary: int)
    ensures found <==> exists t :: t in boundaries && low <= t <= high
    ensures found ==> boundary in boundaries && low <= boundary <= high
    ensures found ==> forall t :: t in boundaries && low <= t <= high ==> Abs(boundary - target) <= Abs(t - target)
  {
    found, boundary := false, -1;
    for k := 0 to |boundaries|
      invariant found <==> exists t :: t in boundaries[..k] && low <= t <= high
      invariant found ==> boundary in boundaries[..k] && low <= boundary <= high
      invariant found ==> forall t :: t in boundaries[..k] && low <= t <= high ==> Abs(boundary - target) <= Abs(t - target)
    {
      var candidate := boundaries[k];
      assert boundaries[..k + 1] == boundaries[..k] + [candidate];
      if low <= candidate <= high && (!found || Abs(candidate - target) < Abs(boundary - target)) {
        found, boundary := true, candidate;
      }
    }
    assert boundaries[..|boundaries|] == boundaries;
  }

  ghost predicate LongPlan(c: PlannerConfiguration, silences: iset<int>, durationMs: int, chunks: seq<Chunk>) {
    && GeometryUpTo(chunks, |chunks|)
    && (forall k :: 0 <= k < |chunks| ==> chunks[k].Length() <= c.hardMaximumChunkMs && chunks[k].endMs <= durationMs)
    && (forall k :: 0 <= k < |chunks| ==> Chosen(c, silences, durationMs, chunks[k]))
  }

  function Cursor(chunks: seq<Chunk>): int {
    if chunks == [] then 0 else chunks[|chunks| - 1].endMs - chunks[|chunks| - 1].overlapAfterMs
  }

  class Planner {
    const configuration: PlannerConfiguration

    constructor (configuration: PlannerConfiguration)
      ensures this.configuration == configuration
    {
      this.configuration := configuration;
    }

    method Plan(durationMs: int, speechRegions: seq<SpeechRegion>) returns (chunks: seq<Chunk>)
      requires configuration.Valid()
      ensures durationMs <= 0 ==> chunks == []
      ensures 0 < durationMs <= configuration.shortAudioThresholdMs ==> chunks == [Chunk(0, 0, durationMs, 0, 0)]
      ensures durationMs > 0 ==> DurableGeometry(chunks) && chunks[|chunks| - 1].endMs == durationMs
      ensures 0 < durationMs && configuration.shortAudioThresholdMs < durationMs ==>
        Finished(configuration, Silences(configuration, speechRegions, durationMs), durationMs, chunks)
      ensures configuration.hardCutOverlapMs > 0 && configuration.shortAudioThresholdMs < durationMs ==>
        PlainCutsSplitNone(chunks, speechRegions, durationMs)
    {
      chunks := [];
      if durationMs <= 0 {
        return;
      }
      if durationMs <= configuration.shortAudioThresholdMs {
        chunks := [Chunk(0, 0, durationMs, 0, 0)];
        assert SoundAt(chunks, 0);
        return;
      }
      var c := configuration;
      var regions := [];
      for n := 0 to |speechRegions|
        invariant regions == Clamped(speechRegions[..n], durationMs)
      {
        var region := speechRegions[n];
        assert speechRegions[..n + 1][..n] == speechRegions[..n];
        var start := Clamp(region.startMs, 0, durationMs);
        var end := Clamp(region.endMs, 0, durationMs);
        if end > start {
          regions := regions + [SpeechRegion(start, end)];
        }
      }
      assert speechRegions[..|speechRegions|] == speechRegions;
      ghost var clamped := regions;
      regions := SortByStart(regions);
      SameRegions(regions, clamped);
      assert Regions(regions, durationMs);
      var silenceBoundaries := SilenceBoundaries(c, regions, durationMs);
      ClampingKeepsSpeech(speechRegions, durationMs);
      forall t ensures t in silenceBoundaries <==> SilenceBoundary(c, speechRegions, durationMs, t) {
        BoundariesIgnoreOrder(c, regions, clamped, durationMs, t);
        SameSpeechSameSilences(c, clamped, speechRegions, durationMs, t);
      }
      chunks := CutAtSilences(c, Silences(c, speechRegions, durationMs), durationMs, silenceBoundaries);
      if c.hardCutOverlapMs > 0 {
        NoPlainCutSplits(c, speechRegions, durationMs, chunks);
      }
    }
  }

  // One round of the main loop of plan, for a chunk that is too long to be the last.
  method CutChunk(c: PlannerConfiguration, ghost silences: iset<int>, durationMs: int, silenceBoundaries: seq<int>,
                  ordinal: nat, cursor: int, overlapBeforeMs: int)
    returns (chunk: Chunk)
    requires c.Valid() && 0 <= cursor && durationMs - cursor > c.maximumPreferredChunkMs
    requires Lists(silenceBoundaries, silences)
    requires overlapBeforeMs == 0 || overlapBeforeMs == c.hardCutOverlapMs
    ensures ValidChunk(chunk, ordinal) && chunk.startMs == cursor && chunk.overlapBeforeMs == overlapBeforeMs
    ensures c.minimumPreferredChunkMs <= chunk.Length() <= c.hardMaximumChunkMs && chunk.endMs <= durationMs
    ensures chunk.overlapAfterMs == 0 || (chunk.overlapAfterMs == c.hardCutOverlapMs && chunk.endMs < durationMs)
    ensures WellCut(c, silences, durationMs, chunk)
  {
    var preferredMin := cursor + c.minimumPreferredChunkMs;
    var preferredMax := Min(durationMs, cursor + c.maximumPreferredChunkMs);
    var target := Min(durationMs, cursor + c.targetChunkMs);
    var found, boundary := NearestBoundary(silenceBoundaries, preferredMin, preferredMax, target);
    var hardCut := false;
    if found {
      assert ClosestPreferred(c, silences, durationMs, cursor, boundary);
    } else {
      assert !HasPreferred(c, silences, durationMs, cursor);
      var hardMaximum := Min(durationMs, cursor + c.hardMaximumChunkMs);
      found, boundary := NearestBoundary(silenceBoundaries, preferredMin, hardMaximum, target);
      if found {
        assert ClosestPermitted(c, silences, durationMs, cursor, boundary);
      } else {
        assert !HasPermitted(c, silences, durationMs, cursor);
        boundary := hardMaximum;
        hardCut := boundary < durationMs;
      }
    }
    var overlap := if hardCut then c.hardCutOverlapMs else 0;
    chunk := Chunk(ordinal, cursor, boundary, overlapBeforeMs, overlap);
  }

  // What holds of the chunks cut so far when the next one starts at Cursor(chunks), before the end.
  ghost predicate Underway(c: PlannerConfiguration, silences: iset<int>, durationMs: int, chunks: seq<Chunk>) {
    && LongPlan(c, silences, durationMs, chunks)
    && 0 <= Cursor(chunks) < durationMs
    && |chunks| * (c.minimumPreferredChunkMs - c.hardCutOverlapMs) <= Cursor(chunks)
    && (chunks != [] ==>
          var last := chunks[|chunks| - 1];
          last.endMs < durationMs && (last.overlapAfterMs == 0 || last.overlapAfterMs == c.hardCutOverlapMs))
  }

  ghost predicate Finished(c: PlannerConfiguration, silences: iset<int>, durationMs: int, chunks: seq<Chunk>) {
    && DurableGeometry(chunks) && chunks[|chunks| - 1].endMs == durationMs
    && LongPlan(c, silences, durationMs, chunks)
    && (|chunks| - 1) * (c.minimumPreferredChunkMs - c.hardCutOverlapMs) <= durationMs - 1
  }

  // The main loop of plan. The guard the source keeps against a cursor that does not advance is
  // unreachable: every cut is at least the minimum preferred length away, which exceeds the overlap.
  method CutAtSilences(c: PlannerConfiguration, ghost silences: iset<int>, durationMs: int, silenceBoundaries: seq<int>)
    returns (chunks: seq<Chunk>)
    requires c.Valid() && durationMs > 0
    requires Lists(silenceBoundaries, silences)
    ensures Finished(c, silences, durationMs, chunks)
  {
    chunks := [];
    var cursor, ordinal := 0, 0;
    while cursor < durationMs
      invariant ordinal == |chunks| && cursor == Cursor(chunks)
      invariant if cursor < durationMs then Underway(c, silences, durationMs, chunks) else Finished(c, silences, durationMs, chunks)
      decreases durationMs - cursor
    {
      var remaining := durationMs - cursor;
      var overlapBefore := if chunks == [] then 0 else chunks[|chunks| - 1].overlapAfterMs;
      if remaining <= c.maximumPreferredChunkMs {
        LastChunk(c, silences, durationMs, chunks);
        chunks := chunks + [Chunk(ordinal, cursor, durationMs, overlapBefore, 0)];
        break;
      }
      var chunk := CutChunk(c, silences, durationMs, silenceBoundaries, ordinal, cursor, overlapBefore);
      AnotherChunk(c, silences, durationMs, chunks, chunk);
      chunks := chunks + [chunk];
      ordinal := ordinal + 1;
      var nextCursor := chunk.endMs - chunk.overlapAfterMs;
      assert nextCursor > cursor;
      cursor := nextCursor;
    }
  }

  lemma {:induction false} LastChunk(c: PlannerConfiguration, silences: iset<int>, durationMs: int, chunks: seq<Chunk>)
    requires c.Valid() && Underway(c, silences, durationMs, chunks)
    requires durationMs - Cursor(chunks) <= c.maximumPreferredChunkMs
    ensures
      var overlapBefore := if chunks == [] then 0 else chunks[|chunks| - 1].overlapAfterMs;
      Finished(c, silences, durationMs, chunks + [Chunk(|chunks|, Cursor(chunks), durationMs, overlapBefore, 0)])
  {
    var overlapBefore := if chunks == [] then 0 else chunks[|chunks| - 1].overlapAfterMs;
    AppendKeepsLongPlan(c, silences, durationMs, chunks, Chunk(|chunks|, Cursor(chunks), durationMs, overlapBefore, 0));
  }

  lemma {:induction false} AnotherChunk(c: PlannerConfiguration, silences: iset<int>, durationMs: int,
                                        chunks: seq<Chunk>, chunk: Chunk)
    requires c.Valid() && Underway(c, silences, durationMs, chunks)
    requires ValidChunk(chunk, |chunks|) && chunk.startMs == Cursor(chunks)
    requires chunk.overlapBeforeMs == if chunks == [] then 0 else chunks[|chunks| - 1].overlapAfterMs
    requires c.minimumPreferredChunkMs <= chunk.Length() <= c.hardMaximumChunkMs && chunk.endMs <= durationMs
    requires chunk.overlapAfterMs == 0 || (chunk.overlapAfterMs == c.hardCutOverlapMs && chunk.endMs < durationMs)
    requires Chosen(c, silences, durationMs, chunk)
    ensures
      if Cursor(chunks + [chunk]) < durationMs then Underway(c, silences, durationMs, chunks + [chunk])
      else Finished(c, silences, durationMs, chunks + [chunk])
  {
    AppendKeepsLongPlan(c, silences, durationMs, chunks, chunk);
    var longer := chunks + [chunk];
    assert Cursor(longer) == chunk.endMs - chunk.overlapAfterMs;
    OneMoreStep(|chunks|, c.minimumPreferredChunkMs - c.hardCutOverlapMs, Cursor(chunks), Cursor(longer));
  }

  lemma {:induction false} OneMoreStep(n: nat, step: nat, before: int, after: int)
    requires n * step <= before && before + step <= after
    ensures (n + 1) * step <= after
  {
  }

  lemma {:induction false} AppendKeepsLongPlan(c: PlannerConfiguration, silences: iset<int>, durationMs: int,
                                               chunks: seq<Chunk>, chunk: Chunk)
    requires LongPlan(c, silences, durationMs, chunks)
    requires ValidChunk(chunk, |chunks|) && chunk.Length() <= c.hardMaximumChunkMs && chunk.endMs <= durationMs
    requires Chosen(c, silences, durationMs, chunk)
    requires chunks == [] ==> chunk.startMs == 0 && chunk.overlapBeforeMs == 0
    requires chunks != [] ==>
      chunk.overlapBeforeMs == chunks[|chunks| - 1].overlapAfterMs &&
      chunk.startMs == chunks[|chunks| - 1].endMs - chunk.overlapBeforeMs
    ensures LongPlan(c, silences, durationMs, chunks + [chunk])
    ensures chunk.endMs == durationMs && chunk.overlapAfterMs == 0 ==> DurableGeometry(chunks + [chunk])
  {
    var longer := chunks + [chunk];
    PrefixStaysSound(chunks, [chunk]);
    assert SoundAt(longer, |chunks|);
  }

  // A silence boundary never splits speech, however the regions were ordered, nested or overlapping.
  lemma {:induction false} SilenceBoundariesSplitNothing(c: PlannerConfiguration, regions: seq<SpeechRegion>,
                                                         durationMs: int, t: int, k: nat)
    requires c.Valid() && k < |regions| && SilenceBoundary(c, regions, durationMs, t)
    ensures !regions[k].Splits(t)
  {
    if Midpoint(regions, durationMs, t) {
      var low, high :| MaximalSilence(regions, durationMs, low, high) && Between(low, high, t);
      assert low <= t < high;
    }
    assert 0 <= t < durationMs && !Spoken(regions, durationMs, t);
    assert !regions[k].Holds(t);
  }

  // A cut before the end either overlaps or splits no speech. (With a configured overlap of zero the
  // two are not exclusive and a hard cut may split speech without overlapping.)
  lemma {:induction false} CutsWithoutOverlapSplitNoSpeech(c: PlannerConfiguration, speech: seq<SpeechRegion>,
                                                           durationMs: int, chunk: Chunk, k: nat)
    requires c.Valid() && c.hardCutOverlapMs > 0
    requires WellCut(c, Silences(c, speech, durationMs), durationMs, chunk)
    requires chunk.endMs < durationMs && chunk.overlapAfterMs == 0
    requires k < |speech|
    ensures !speech[k].Splits(chunk.endMs)
  {
    var silences := Silences(c, speech, durationMs);
    if HasPreferred(c, silences, durationMs, chunk.startMs) || HasPermitted(c, silences, durationMs, chunk.startMs) {
      SilenceBoundariesSplitNothing(c, speech, durationMs, chunk.endMs, k);
    }
  }

  // No chunk that ends before the audio without overlap ends inside a region.
  predicate PlainCutsSplitNone(chunks: seq<Chunk>, speech: seq<SpeechRegion>, durationMs: int) {
    forall i, k {:trigger chunks[i], speech[k]} :: 0 <= i < |chunks| && 0 <= k < |speech| ==>
      chunks[i].endMs < durationMs && chunks[i].overlapAfterMs == 0 ==> !speech[k].Splits(chunks[i].endMs)
  }

  lemma {:induction false} NoPlainCutSplits(c: PlannerConfiguration, speech: seq<SpeechRegion>, durationMs: int, chunks: seq<Chunk>)
    requires c.Valid() && c.hardCutOverlapMs > 0
    requires Finished(c, Silences(c, speech, durationMs), durationMs, chunks)
    ensures PlainCutsSplitNone(chunks, speech, durationMs)
  {
    forall i, k | 0 <= i < |chunks| && 0 <= k < |speech| && chunks[i].endMs < durationMs && chunks[i].overlapAfterMs == 0
      ensures !speech[k].Splits(chunks[i].endMs)
    {
      assert Chosen(c, Silences(c, speech, durationMs), durationMs, chunks[i]);
      CutsWithoutOverlapSplitNoSpeech(c, speech, durationMs, chunks[i], k);
    }
  }

  // A hard cut is a last resort: no silence lies between the minimum preferred length and the hard maximum.
  lemma {:induction false} OverlapOnlyWithoutSilence(c: PlannerConfiguration, silences: iset<int>, durationMs: int,
                                                     chunk: Chunk, t: int)
    requires c.Valid()
    requires WellCut(c, silences, durationMs, chunk) && chunk.overlapAfterMs > 0
    requires t in silences
    ensures !PermittedWindow(c, durationMs, chunk.startMs, t)
  {
    assert PermittedWindow(c, durationMs, chunk.startMs, t) ==> HasPermitted(c, silences, durationMs, chunk.startMs);
  }

  // The condition on the overlap is exact: with none configured, whatever the lengths, every plan for speech that
  // outlasts the hard maximum starts with a chunk that splits it without overlap.
  lemma {:induction false} ZeroOverlapSplitsSpeech(c: PlannerConfiguration, chunks: seq<Chunk>)
    requires c.Valid() && c.hardCutOverlapMs == 0
    ensures
      var durationMs := Max(c.hardMaximumChunkMs, c.shortAudioThresholdMs) + 1;
      var speech := [SpeechRegion(0, durationMs)];
      Finished(c, Silences(c, speech, durationMs), durationMs, chunks) ==>
        chunks[0] == Chunk(0, 0, c.hardMaximumChunkMs, 0, 0) && speech[0].Splits(chunks[0].endMs)
  {
    var durationMs := Max(c.hardMaximumChunkMs, c.shortAudioThresholdMs) + 1;
    var speech := [SpeechRegion(0, durationMs)];
    assert forall t :: 0 <= t < durationMs ==> speech[0].Holds(t) && Spoken(speech, durationMs, t);
    forall low, high ensures !MaximalSilence(speech, durationMs, low, high) {
      assert 0 <= low < high <= durationMs ==> Spoken(speech, durationMs, low);
    }
    var silences := Silences(c, speech, durationMs);
    assert Spoken(speech, durationMs, 0) && forall t :: t !in silences;
    if Finished(c, silences, durationMs, chunks) {
      assert SoundAt(chunks, 0) && Chosen(c, silences, durationMs, chunks[0]);
    }
  }

  lemma {:induction false} DefaultConfigurationIsValid()
    ensures DEFAULT_CONFIGURATION.Valid() && DEFAULT_CONFIGURATION.hardCutOverlapMs > 0
  {
  }
}
