// src/audio/WaveformGenerator.cpp, generation: minima and maxima of 256-sample windows, aggregated four to
// one until at most 2048 peaks are left.

module WaveformPyramid {
  import opened Outcomes
  import opened Bytes

  type int16 = x: int | -0x8000 <= x < 0x8000

  const BASE_WINDOW_SAMPLES: nat := 256
  const MAXIMUM_SERIALIZED_PEAK_PAIRS: nat := 64 * 1024 * 1024 / 4
  const MAXIMUM_LEVELS: nat := 32
  const COARSEST_PEAKS: nat := 2048
  const UINT32_MAX: nat := 0xFFFF_FFFF

  datatype WaveformLevel = WaveformLevel(samplesPerPeak: nat, minimums: seq<int16>, maximums: seq<int16>)

  // ---- What a level says.

  // lo and hi are the least and the greatest of samples[from..to].
  predicate PeakOver(samples: seq<int16>, from: nat, to: nat, lo: int16, hi: int16) {
    && from < to <= |samples|
    && (forall k :: from <= k < to ==> lo <= samples[k] <= hi)
    && (exists k :: from <= k < to && samples[k] == lo)
    && (exists k :: from <= k < to && samples[k] == hi)
  }

  // Where window i of width w begins, or the end of the samples if that comes first.
  function Edge(n: nat, w: nat, i: nat): nat {
    Min(n, i * w)
  }

  // count windows of width w cover n samples and none of them is empty.
  predicate Windows(n: nat, w: nat, count: nat) {
    count > 0 && w > 0 && (count - 1) * w < n <= count * w
  }

  predicate PeakAt(samples: seq<int16>, level: WaveformLevel, i: nat)
    requires i < |level.minimums| == |level.maximums|
  {
    PeakOver(samples, Edge(|samples|, level.samplesPerPeak, i), Edge(|samples|, level.samplesPerPeak, i + 1),
             level.minimums[i], level.maximums[i])
  }

  predicate LevelOf(samples: seq<int16>, level: WaveformLevel) {
    && |level.minimums| == |level.maximums|
    && Windows(|samples|, level.samplesPerPeak, |level.minimums|)
    && forall i {:trigger PeakAt(samples, level, i)} :: 0 <= i < |level.minimums| ==> PeakAt(samples, level, i)
  }

  // Every level is right, each four times as coarse as the one before, and only the last is short.
  predicate Pyramid(samples: seq<int16>, levels: seq<WaveformLevel>) {
    && levels != []
    && levels[0].samplesPerPeak == BASE_WINDOW_SAMPLES
    && (forall k :: 0 <= k < |levels| ==> LevelOf(samples, levels[k]))
    && (forall k :: 0 <= k < |levels| - 1 ==> levels[k + 1].samplesPerPeak == 4 * levels[k].samplesPerPeak)
    && (forall k :: 0 <= k < |levels| - 1 ==> |levels[k].minimums| > COARSEST_PEAKS)
  }

  lemma {:induction false} JoinPeaks(samples: seq<int16>, a: nat, b: nat, c: nat, lo1: int16, hi1: int16, lo2: int16,
                                     hi2: int16)
    requires PeakOver(samples, a, b, lo1, hi1) && PeakOver(samples, b, c, lo2, hi2)
    ensures PeakOver(samples, a, c, Min(lo1, lo2), Max(hi1, hi2))
  {
  }

  lemma {:induction false} Multiply(w: nat, i: nat, j: nat)
    ensures i <= j ==> i * w <= j * w
    ensures (4 * i) * w == i * (4 * w)
    ensures (i + 1) * w == i * w + w
    ensures w > 0 && i * w < j * w ==> i < j
  {
    if i <= j {
      assert j * w == i * w + (j - i) * w;
    } else {
      assert i * w == j * w + (i - j) * w;
    }
  }

  // ---- The size plan.

  function CeilDiv(n: nat, d: nat): nat
    requires d > 0
  {
    n / d + if n % d != 0 then 1 else 0
  }

  function Power4(k: nat): (p: nat)
    ensures p > 0
  {
    if k == 0 then 1 else 4 * Power4(k - 1)
  }

  // How many peaks the levels hold together when the finest one has n.
  function PyramidPeaks(n: nat): nat {
    if n <= COARSEST_PEAKS then n else n + PyramidPeaks(CeilDiv(n, 4))
  }

  // The rest of peakPlanFits' loop from one of its states.
  predicate PlanFrom(current: nat, total: nat, samplesPerPeak: nat, levelCount: nat)
    decreases current
  {
    current <= COARSEST_PEAKS ||
    (&& samplesPerPeak <= UINT32_MAX / 4 && levelCount < MAXIMUM_LEVELS
     && total <= MAXIMUM_SERIALIZED_PEAK_PAIRS
     && CeilDiv(current, 4) <= MAXIMUM_SERIALIZED_PEAK_PAIRS - total
     && PlanFrom(CeilDiv(current, 4), total + CeilDiv(current, 4), samplesPerPeak * 4, levelCount + 1))
  }

  predicate PlanFits(basePeakCount: nat) {
    0 < basePeakCount <= MAXIMUM_SERIALIZED_PEAK_PAIRS && PlanFrom(basePeakCount, basePeakCount, BASE_WINDOW_SAMPLES, 1)
  }

  lemma {:induction false} Power4Grows(a: nat, b: nat)
    ensures a <= b ==> Power4(a) <= Power4(b)
  {
    if a < b {
      Power4Grows(a, b - 1);
    }
  }

  lemma {:induction false} PowersOf4()
    ensures Power4(4) == BASE_WINDOW_SAMPLES && Power4(5) <= COARSEST_PEAKS
    ensures Power4(10) <= UINT32_MAX / 4 && Power4(12) == MAXIMUM_SERIALIZED_PEAK_PAIRS
  {
    assert Power4(2) == 16;
    assert Power4(4) == 256;
    assert Power4(6) == 4096;
    assert Power4(8) == 65536;
    assert Power4(10) == 1048576;
    assert Power4(11) == 4 * Power4(10);
  }

  lemma {:induction false} OtherGuardsHold(k: nat, current: nat)
    requires k <= 12 && COARSEST_PEAKS < current <= Power4(12 - k)
    ensures k < 12 && Power4(4 + k) <= UINT32_MAX / 4 && 1 + k < MAXIMUM_LEVELS
    ensures CeilDiv(current, 4) <= Power4(12 - (k + 1)) && Power4(4 + k) * 4 == Power4(4 + (k + 1))
  {
    PowersOf4();
    Power4Grows(12 - k, 5);
    Power4Grows(4 + k, 10);
  }

  // Of the guards in the loop only the one on the total ever decides: after k rounds at most 4^(12-k) peaks are
  // left, so that the resolution and the number of levels stay small.
  lemma {:induction false} OnlyTheTotalDecides(k: nat, current: nat, total: nat)
    requires k <= 12 && current <= Power4(12 - k) && current <= total <= MAXIMUM_SERIALIZED_PEAK_PAIRS
    ensures PlanFrom(current, total, Power4(4 + k), 1 + k) <==>
      total - current + PyramidPeaks(current) <= MAXIMUM_SERIALIZED_PEAK_PAIRS
    decreases 12 - k
  {
    if current > COARSEST_PEAKS {
      OtherGuardsHold(k, current);
      var coarser := CeilDiv(current, 4);
      if total + coarser <= MAXIMUM_SERIALIZED_PEAK_PAIRS {
        OnlyTheTotalDecides(k + 1, coarser, total + coarser);
      } else {
        assert PyramidPeaks(coarser) >= coarser;
      }
    }
  }

  // The plan fits exactly when there is something to show and all levels together stay within the limit.
  lemma {:induction false} PlanFitsIff(basePeakCount: nat)
    ensures PlanFits(basePeakCount) <==>
      0 < basePeakCount && PyramidPeaks(basePeakCount) <= MAXIMUM_SERIALIZED_PEAK_PAIRS
  {
    PowersOf4();
    if basePeakCount <= MAXIMUM_SERIALIZED_PEAK_PAIRS {
      OnlyTheTotalDecides(0, basePeakCount, basePeakCount);
    }
  }

  method PeakPlanFits(basePeakCount: nat) returns (fits: bool)
    ensures fits <==> PlanFits(basePeakCount)
  {
    if basePeakCount == 0 || basePeakCount > MAXIMUM_SERIALIZED_PEAK_PAIRS {
      return false;
    }
    var total: nat, current: nat := basePeakCount, basePeakCount;
    var samplesPerPeak: nat, levelCount: nat := BASE_WINDOW_SAMPLES, 1;
    while current > COARSEST_PEAKS
      invariant total <= MAXIMUM_SERIALIZED_PEAK_PAIRS
      invariant PlanFits(basePeakCount) <==> PlanFrom(current, total, samplesPerPeak, levelCount)
      decreases current
    {
      if samplesPerPeak > UINT32_MAX / 4 || levelCount >= MAXIMUM_LEVELS {
        return false;
      }
      samplesPerPeak := samplesPerPeak * 4;
      current := current / 4 + if current % 4 != 0 then 1 else 0;
      if current > MAXIMUM_SERIALIZED_PEAK_PAIRS - total {
        return false;
      }
      total := total + current;
      levelCount := levelCount + 1;
    }
    return true;
  }

  // ---- Aggregation.

  lemma {:induction false} CoarserWindows(n: nat, w: nat, count: nat)
    requires Windows(n, w, count)
    ensures Windows(n, 4 * w, CeilDiv(count, 4))
  {
    var c := CeilDiv(count, 4);
    assert count <= 4 * c && 4 * (c - 1) <= count - 1;
    Multiply(w, count, 4 * c);
    Multiply(w, 4 * (c - 1), count - 1);
    Multiply(w, c, c);
    Multiply(w, c - 1, c - 1);
  }

  lemma {:induction false} EdgesAgree(n: nat, w: nat, count: nat, j: nat)
    requires Windows(n, w, count) && 4 * j <= count
    ensures Edge(n, 4 * w, j) == Edge(n, w, 4 * j)
    ensures 4 * j < count ==> Edge(n, 4 * w, j + 1) == Edge(n, w, Min(4 * j + 4, count))
  {
    Multiply(w, j, j);
    Multiply(w, j + 1, j + 1);
    if 4 * j + 4 > count {
      Multiply(w, count, 4 * (j + 1));
    }
  }

  method Aggregate(source: WaveformLevel, ghost samples: seq<int16>) returns (result: Option<WaveformLevel>)
    ensures result.Some? <==>
      0 < source.samplesPerPeak <= UINT32_MAX / 4 && source.minimums != [] && |source.minimums| == |source.maximums|
    ensures result.Some? ==>
      && result.value.samplesPerPeak == 4 * source.samplesPerPeak
      && |result.value.minimums| == |result.value.maximums| == CeilDiv(|source.minimums|, 4)
    ensures result.Some? && LevelOf(samples, source) ==> LevelOf(samples, result.value)
  {
    if source.samplesPerPeak == 0 || source.samplesPerPeak > UINT32_MAX / 4 ||
       source.minimums == [] || |source.minimums| != |source.maximums|
    {
      return None;
    }
    var count := |source.minimums|;
    var minimums: seq<int16>, maximums: seq<int16> := [], [];
    ghost var wide := 4 * source.samplesPerPeak;
    var index := 0;
    while index < count
      invariant index == Min(4 * |minimums|, count + 3) && |minimums| == |maximums| && 4 * |minimums| < count + 4
      invariant LevelOf(samples, source) ==>
        forall j {:trigger Aggregated(samples, wide, minimums, maximums, j)} :: 0 <= j < |minimums| ==> Aggregated(samples, wide, minimums, maximums, j)
    {
      ghost var j := |minimums|;
      var lo, hi := GroupPeak(source, index, samples);
      if LevelOf(samples, source) {
        EdgesAgree(|samples|, source.samplesPerPeak, count, j);
      }
      ghost var minimums', maximums' := minimums, maximums;
      minimums := minimums + [lo];
      maximums := maximums + [hi];
      if LevelOf(samples, source) {
        forall i | 0 <= i < |minimums| ensures Aggregated(samples, wide, minimums, maximums, i) {
          if i < j {
            assert Aggregated(samples, wide, minimums', maximums', i);
          }
        }
      }
      index := index + 4;
    }
    var level := WaveformLevel(source.samplesPerPeak * 4, minimums, maximums);
    result := Some(level);
    if LevelOf(samples, source) {
      CoarserWindows(|samples|, source.samplesPerPeak, count);
      forall i | 0 <= i < |minimums| ensures PeakAt(samples, level, i) {
        assert Aggregated(samples, wide, minimums, maximums, i);
      }
    }
  }

  predicate Aggregated(samples: seq<int16>, w: nat, minimums: seq<int16>, maximums: seq<int16>, i: nat)
    requires i < |minimums| == |maximums|
  {
    PeakOver(samples, Edge(|samples|, w, i), Edge(|samples|, w, i + 1), minimums[i], maximums[i])
  }

  // The inner loop of aggregate: up to four peaks become one.
  method GroupPeak(source: WaveformLevel, index: nat, ghost samples: seq<int16>) returns (minimum: int16,
                   maximum: int16)
    requires index < |source.minimums| == |source.maximums|
    ensures LevelOf(samples, source) ==>
      var w := source.samplesPerPeak;
      PeakOver(samples, Edge(|samples|, w, index), Edge(|samples|, w, Min(index + 4, |source.minimums|)), minimum, maximum)
  {
    var end := Min(index + 4, |source.minimums|);
    minimum, maximum := 0x7FFF, -0x8000;
    var candidate := index;
    while candidate < end
      invariant index <= candidate <= end
      invariant candidate == index ==> minimum == 0x7FFF && maximum == -0x8000
      invariant LevelOf(samples, source) && candidate > index ==>
        PeakOver(samples, Edge(|samples|, source.samplesPerPeak, index), Edge(|samples|, source.samplesPerPeak, candidate), minimum, maximum)
    {
      if LevelOf(samples, source) {
        assert PeakAt(samples, source, candidate);
        if candidate > index {
          JoinPeaks(samples, Edge(|samples|, source.samplesPerPeak, index), Edge(|samples|, source.samplesPerPeak, candidate),
                    Edge(|samples|, source.samplesPerPeak, candidate + 1),
                    minimum, maximum, source.minimums[candidate], source.maximums[candidate]);
        }
      }
      minimum := Min(minimum, source.minimums[candidate]);
      maximum := Max(maximum, source.maximums[candidate]);
      candidate := candidate + 1;
    }
  }

  // ---- The base level.

  // Two bytes, least significant first, as a signed number.
  function Sample(low: byte, high: byte): int16 {
    var n := low + 256 * high;
    if n < 0x8000 then n else n - 0x1_0000
  }

  function Samples(pcm: seq<byte>): (s: seq<int16>)
    requires |pcm| % 2 == 0
    ensures |s| == |pcm| / 2
  {
    seq(|pcm| / 2, k requires 0 <= k < |pcm| / 2 => Sample(pcm[2 * k], pcm[2 * k + 1]))
  }

  // The bytes of a sample are its two's complement, least significant first.
  lemma {:induction false} SamplesAreTheirBytes(pcm: seq<byte>, k: nat)
    requires |pcm| % 2 == 0 && k < |pcm| / 2
    ensures LittleEndian(Samples(pcm)[k] as int % 0x1_0000, 2) == pcm[2 * k..2 * k + 2]
  {
    var low: nat, high: nat := pcm[2 * k], pcm[2 * k + 1];
    var n := low + 256 * high;
    assert n % 256 == low && n / 256 == high;
    assert LittleEndian(n, 2) == [low] + LittleEndian(high, 1) == [low] + ([high] + LittleEndian(0, 0));
    assert Samples(pcm)[k] as int % 0x1_0000 == n;
  }

  // One buffer of at most 256 samples.
  method BufferPeak(bytes: seq<byte>, ghost samples: seq<int16>, ghost from: nat) returns (minimum: int16,
                    maximum: int16)
    requires |bytes| % 2 == 0 && bytes != []
    requires from + |bytes| / 2 <= |samples| && Samples(bytes) == samples[from..from + |bytes| / 2]
    ensures PeakOver(samples, from, from + |bytes| / 2, minimum, maximum)
  {
    minimum, maximum := 0x7FFF, -0x8000;
    var count := |bytes| / 2;
    for index := 0 to count
      invariant index == 0 ==> minimum == 0x7FFF && maximum == -0x8000
      invariant index > 0 ==> PeakOver(samples, from, from + index, minimum, maximum)
    {
      var value := Sample(bytes[index * 2], bytes[index * 2 + 1]);
      assert value == Samples(bytes)[index] == samples[from + index];
      assert PeakOver(samples, from + index, from + index + 1, value, value);
      if index > 0 {
        JoinPeaks(samples, from, from + index, from + index + 1, minimum, maximum, value, value);
      }
      minimum := Min(minimum, value);
      maximum := Max(maximum, value);
    }
  }

  // What generate meets while it reads: a declared data size, the bytes the file still holds there, and the
  // window, if any, before which it is cancelled.
  datatype Input = Input(dataSize: nat, available: seq<byte>, cancelledBefore: Option<nat>) {
    predicate Declared() {
      dataSize > 0 && dataSize % 2 == 0
    }

    function WindowCount(): nat {
      CeilDiv(dataSize / 2, BASE_WINDOW_SAMPLES)
    }

    predicate Undisturbed() {
      |available| >= dataSize && (cancelledBefore.None? || cancelledBefore.value >= WindowCount())
    }
  }

  // One round of the reading loop of generate, once its bytes are known to be there.
  method WindowPeak(available: seq<byte>, ghost dataSize: nat, position: nat, requested: nat) returns (minimum: int16,
                    maximum: int16)
    requires position % 2 == 0 && dataSize % 2 == 0 && requested % 2 == 0
    requires 0 < requested && position + requested <= |available| && position + requested <= dataSize
    ensures dataSize <= |available| ==>
      PeakOver(Samples(available[..dataSize]), position / 2, (position + requested) / 2, minimum, maximum)
  {
    var bytes := available[position..position + requested];
    ghost var window := Samples(bytes);
    minimum, maximum := BufferPeak(bytes, window, 0);
    if dataSize <= |available| {
      PeakOfWindow(available[..dataSize], bytes, position, requested, minimum, maximum);
    }
  }

  lemma {:induction false} PeakOfWindow(pcm: seq<byte>, bytes: seq<byte>, position: nat, requested: nat, minimum: int16,
                                        maximum: int16)
    requires |pcm| % 2 == 0 && position % 2 == 0 && requested % 2 == 0
    requires position + requested <= |pcm| && bytes == pcm[position..position + requested]
    requires PeakOver(Samples(bytes), 0, |bytes| / 2, minimum, maximum)
    ensures PeakOver(Samples(pcm), position / 2, (position + requested) / 2, minimum, maximum)
  {
    WindowIsSlice(pcm, Samples(pcm), bytes, position);
    SlicePeak(Samples(pcm), Samples(bytes), position / 2, minimum, maximum);
    assert position / 2 + |bytes| / 2 == (position + requested) / 2;
  }

  ghost predicate PeaksSoFar(input: Input, minimums: seq<int16>, maximums: seq<int16>)
    requires input.Declared()
  {
    && |minimums| == |maximums|
    && (input.dataSize <= |input.available| ==>
          var samples := Samples(input.available[..input.dataSize]);
          forall j {:trigger Aggregated(samples, BASE_WINDOW_SAMPLES, minimums, maximums, j)} :: 0 <= j < |minimums| ==>
            Aggregated(samples, BASE_WINDOW_SAMPLES, minimums, maximums, j))
  }

  lemma {:induction false} OneMorePeak(input: Input, minimums: seq<int16>, maximums: seq<int16>, lo: int16, hi: int16)
    requires input.Declared() && PeaksSoFar(input, minimums, maximums)
    requires 512 * |minimums| < input.dataSize
    requires input.dataSize <= |input.available| ==>
      PeakOver(Samples(input.available[..input.dataSize]), 256 * |minimums|, Min(input.dataSize, 512 * |minimums| + 512) / 2, lo, hi)
    ensures PeaksSoFar(input, minimums + [lo], maximums + [hi])
  {
    if input.dataSize <= |input.available| {
      var samples := Samples(input.available[..input.dataSize]);
      var more, more' := minimums + [lo], maximums + [hi];
      forall j | 0 <= j < |more| ensures Aggregated(samples, BASE_WINDOW_SAMPLES, more, more', j) {
        if j < |minimums| {
          assert Aggregated(samples, BASE_WINDOW_SAMPLES, minimums, maximums, j);
        }
      }
    }
  }

  method BaseLevel(input: Input) returns (result: Option<WaveformLevel>)
    requires input.Declared()
    ensures result.Some? <==> input.Undisturbed()
    ensures result.Some? ==>
      && LevelOf(Samples(input.available[..input.dataSize]), result.value)
      && result.value.samplesPerPeak == BASE_WINDOW_SAMPLES && |result.value.minimums| == input.WindowCount()
  {
    var minimums: seq<int16>, maximums: seq<int16> := [], [];
    var remaining := input.dataSize;
    while remaining > 0
      invariant remaining == Max(0, input.dataSize - 512 * |minimums|)
      invariant 512 * |minimums| < input.dataSize + 512
      invariant Min(512 * |minimums|, input.dataSize) <= |input.available|
      invariant input.cancelledBefore.Some? ==> |minimums| <= input.cancelledBefore.value
      invariant PeaksSoFar(input, minimums, maximums)
      decreases remaining
    {
      if input.cancelledBefore.Some? && input.cancelledBefore.value == |minimums| {
        return None;
      }
      var requested := Min(512, remaining);
      var position := input.dataSize - remaining;
      if |input.available| - position < requested {
        return None;
      }
      var minimum, maximum := WindowPeak(input.available, input.dataSize, position, requested);
      OneMorePeak(input, minimums, maximums, minimum, maximum);
      minimums := minimums + [minimum];
      maximums := maximums + [maximum];
      remaining := remaining - requested;
    }
    PeaksMakeLevel(input, minimums, maximums);
    return Some(WaveformLevel(BASE_WINDOW_SAMPLES, minimums, maximums));
  }

  lemma {:induction false} PeaksMakeLevel(input: Input, minimums: seq<int16>, maximums: seq<int16>)
    requires input.Declared() && input.dataSize <= |input.available| && PeaksSoFar(input, minimums, maximums)
    requires input.dataSize <= 512 * |minimums| < input.dataSize + 512
    ensures LevelOf(Samples(input.available[..input.dataSize]), WaveformLevel(BASE_WINDOW_SAMPLES, minimums, maximums))
    ensures |minimums| == input.WindowCount()
  {
    var samples, level := Samples(input.available[..input.dataSize]), WaveformLevel(BASE_WINDOW_SAMPLES, minimums, maximums);
    forall i | 0 <= i < |minimums| ensures PeakAt(samples, level, i) {
      assert Aggregated(samples, BASE_WINDOW_SAMPLES, minimums, maximums, i);
    }
  }

  lemma {:induction false} WindowIsSlice(pcm: seq<byte>, samples: seq<int16>, bytes: seq<byte>, position: nat)
    requires |pcm| % 2 == 0 && samples == Samples(pcm)
    requires position % 2 == 0 && |bytes| % 2 == 0 && position + |bytes| <= |pcm|
    requires bytes == pcm[position..position + |bytes|]
    ensures Samples(bytes) == samples[position / 2..position / 2 + |bytes| / 2]
  {
  }

  lemma {:induction false} SlicePeak(samples: seq<int16>, window: seq<int16>, from: nat, lo: int16, hi: int16)
    requires from + |window| <= |samples| && window == samples[from..from + |window|]
    requires PeakOver(window, 0, |window|, lo, hi)
    ensures PeakOver(samples, from, from + |window|, lo, hi)
  {
    forall k | from <= k < from + |window| ensures lo <= samples[k] <= hi {
      assert samples[k] == window[k - from];
    }
    var a :| 0 <= a < |window| && window[a] == lo;
    var b :| 0 <= b < |window| && window[b] == hi;
    assert samples[from + a] == lo && samples[from + b] == hi;
  }

  // ---- The whole pyramid.

  function TotalPeaks(levels: seq<WaveformLevel>): nat {
    if levels == [] then 0 else TotalPeaks(levels[..|levels| - 1]) + |levels[|levels| - 1].minimums|
  }

  // generate, up to writing the file. Once the size plan fits and nothing disturbs the reading, none of the
  // later guards on resolution, size or level count can trip.
  method Generate(input: Input) returns (result: Option<seq<WaveformLevel>>)
    requires input.Declared()
    ensures result.Some? <==> PlanFits(input.WindowCount()) && input.Undisturbed()
    ensures result.Some? ==>
      && Pyramid(Samples(input.available[..input.dataSize]), result.value)
      && |result.value[|result.value| - 1].minimums| <= COARSEST_PEAKS
      && |result.value| <= MAXIMUM_LEVELS
      && TotalPeaks(result.value) <= MAXIMUM_SERIALIZED_PEAK_PAIRS
      && forall k :: 0 <= k < |result.value| ==> result.value[k].samplesPerPeak <= UINT32_MAX
  {
    var fits := PeakPlanFits(input.WindowCount());
    if !fits {
      return None;
    }
    var base := BaseLevel(input);
    if base.None? {
      return None;
    }
    ghost var samples := Samples(input.available[..input.dataSize]);
    var totalPeakCount: nat := |base.value.minimums|;
    var levels := [base.value];
    assert levels[..0] == [];
    while |levels[|levels| - 1].minimums| > COARSEST_PEAKS
      invariant levels != [] && GoesToPlan(samples, levels, totalPeakCount)
      decreases |levels[|levels| - 1].minimums|
    {
      var aggregated := Aggregate(levels[|levels| - 1], samples);
      var count := |aggregated.value.minimums|;
      assert count <= MAXIMUM_SERIALIZED_PEAK_PAIRS - totalPeakCount;
      totalPeakCount := totalPeakCount + count;
      OneMoreLevel(samples, levels, aggregated.value, totalPeakCount);
      levels := levels + [aggregated.value];
    }
    return Some(levels);
  }

  // The levels so far are right and within the limits, and the plan fits from here on.
  predicate GoesToPlan(samples: seq<int16>, levels: seq<WaveformLevel>, total: nat)
    requires levels != []
  {
    && Pyramid(samples, levels) && |levels| <= MAXIMUM_LEVELS
    && total == TotalPeaks(levels) <= MAXIMUM_SERIALIZED_PEAK_PAIRS
    && (forall k :: 0 <= k < |levels| ==> levels[k].samplesPerPeak <= UINT32_MAX)
    && var last := levels[|levels| - 1];
       PlanFrom(|last.minimums|, total, last.samplesPerPeak, |levels|)
  }

  lemma {:induction false} OneMoreLevel(samples: seq<int16>, levels: seq<WaveformLevel>, next: WaveformLevel, total: nat)
    requires levels != [] && total >= |next.minimums| && GoesToPlan(samples, levels, total - |next.minimums|)
    requires LevelOf(samples, next) && |levels[|levels| - 1].minimums| > COARSEST_PEAKS
    requires next.samplesPerPeak == 4 * levels[|levels| - 1].samplesPerPeak
    requires |next.minimums| == CeilDiv(|levels[|levels| - 1].minimums|, 4)
    ensures GoesToPlan(samples, levels + [next], total)
  {
    assert (levels + [next])[..|levels|] == levels;
  }

  lemma {:induction false} LevelWidth(samples: seq<int16>, levels: seq<WaveformLevel>, k: nat)
    requires Pyramid(samples, levels) && k < |levels|
    ensures levels[k].samplesPerPeak == BASE_WINDOW_SAMPLES * Power4(k)
  {
    if k > 0 {
      LevelWidth(samples, levels, k - 1);
    }
  }

  // Peak i of level k is the true minimum and maximum of samples [i*256*4^k, min(n, (i+1)*256*4^k)).
  lemma {:induction false} PeaksAreDirect(samples: seq<int16>, levels: seq<WaveformLevel>, k: nat, i: nat)
    requires Pyramid(samples, levels) && k < |levels| && i < |levels[k].minimums|
    ensures
      var w := BASE_WINDOW_SAMPLES * Power4(k);
      && |levels[k].minimums| == |levels[k].maximums|
      && (|levels[k].minimums| - 1) * w < |samples| <= |levels[k].minimums| * w
      && i * w < |samples|
      && PeakOver(samples, i * w, Min(|samples|, (i + 1) * w), levels[k].minimums[i], levels[k].maximums[i])
  {
    LevelWidth(samples, levels, k);
    var w := BASE_WINDOW_SAMPLES * Power4(k);
    assert PeakAt(samples, levels[k], i);
    Multiply(w, i, |levels[k].minimums| - 1);
  }
}
