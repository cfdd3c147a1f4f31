// src/audio/WaveformGenerator.cpp, the .peaks file: what generate writes and the strict reader of it.

module WaveformFile {
  import opened Outcomes
  import opened Bytes
  import opened WaveformPyramid

  const MAGIC: nat := 0x4257_504B
  const FORMAT_VERSION: nat := 1
  const HEADER_BYTES: nat := 8
  const LEVEL_HEADER_BYTES: nat := 12
  const PEAK_PAIR_BYTES: nat := 4

  // Two's complement, least significant byte first.
  function SignedBytes(x: int16): (s: seq<byte>)
    ensures |s| == 2
  {
    LittleEndian(if x < 0 then x + 0x1_0000 else x, 2)
  }

  function FromSignedBytes(s: seq<byte>): int16
    requires |s| == 2
  {
    Sample(s[0], s[1])
  }

  lemma {:induction false} SignedBytesReadBack(x: int16)
    ensures FromSignedBytes(SignedBytes(x)) == x
  {
    var n := if x < 0 then x + 0x1_0000 else x;
    assert LittleEndian(n, 2)[0] == n % 256;
    assert LittleEndian(n / 256, 1)[0] == n / 256 % 256;
  }

  lemma {:induction false} SignedBytesWriteBack(s: seq<byte>)
    requires |s| == 2
    ensures SignedBytes(FromSignedBytes(s)) == s
  {
    var n: nat := s[0] as int + 256 * s[1] as int;
    assert n % 256 == s[0] && n / 256 == s[1];
    assert LittleEndian(n / 256, 1) == [s[1]];
  }

  // ---- The format.

  function PeakBytes(minimums: seq<int16>, maximums: seq<int16>): (s: seq<byte>)
    requires |minimums| == |maximums|
    ensures |s| == PEAK_PAIR_BYTES * |minimums|
  {
    if minimums == [] then []
    else
      var last := |minimums| - 1;
      PeakBytes(minimums[..last], maximums[..last]) + SignedBytes(minimums[last]) + SignedBytes(maximums[last])
  }

  function LevelHeader(samplesPerPeak: nat, count: nat): (s: seq<byte>)
    ensures |s| == LEVEL_HEADER_BYTES
  {
    LittleEndian(samplesPerPeak, 4) + LittleEndian(count, 8)
  }

  predicate Even(level: WaveformLevel) {
    |level.minimums| == |level.maximums|
  }

  function LevelBytes(level: WaveformLevel): (s: seq<byte>)
    requires Even(level)
    ensures |s| == LEVEL_HEADER_BYTES + PEAK_PAIR_BYTES * |level.minimums|
  {
    LevelHeader(level.samplesPerPeak, |level.minimums|) + PeakBytes(level.minimums, level.maximums)
  }

  predicate AllEven(levels: seq<WaveformLevel>) {
    forall k :: 0 <= k < |levels| ==> Even(levels[k])
  }

  function LevelPieces(levels: seq<WaveformLevel>): (pieces: seq<seq<byte>>)
    requires AllEven(levels)
    ensures |pieces| == |levels|
  {
    seq(|levels|, k requires 0 <= k < |levels| => LevelBytes(levels[k]))
  }

  function AllLevelBytes(levels: seq<WaveformLevel>): seq<byte>
    requires AllEven(levels)
  {
    Concat(LevelPieces(levels))
  }

  lemma {:induction false} OneMoreLevel(levels: seq<WaveformLevel>, level: WaveformLevel)
    requires AllEven(levels) && Even(level)
    ensures AllLevelBytes(levels + [level]) == AllLevelBytes(levels) + LevelBytes(level)
  {
    assert LevelPieces(levels + [level]) == LevelPieces(levels) + [LevelBytes(level)];
    ConcatOneMore(LevelPieces(levels), LevelBytes(level));
  }

  function Header(levelCount: nat): (s: seq<byte>)
    ensures |s| == HEADER_BYTES
  {
    LittleEndian(MAGIC, 4) + LittleEndian(FORMAT_VERSION, 2) + LittleEndian(levelCount, 2)
  }

  predicate SoundLevel(level: WaveformLevel) {
    && 0 < level.samplesPerPeak <= UINT32_MAX
    && Even(level) && level.minimums != []
    && forall i :: 0 <= i < |level.minimums| ==> level.minimums[i] <= level.maximums[i]
  }

  // What a file can say.
  predicate Storable(levels: seq<WaveformLevel>) {
    && 1 <= |levels| <= MAXIMUM_LEVELS
    && (forall k :: 0 <= k < |levels| ==> SoundLevel(levels[k]))
    && TotalPeaks(levels) <= MAXIMUM_SERIALIZED_PEAK_PAIRS
  }

  function FileBytes(levels: seq<WaveformLevel>): seq<byte>
    requires Storable(levels)
  {
    Header(|levels|) + AllLevelBytes(levels)
  }

  // The writing loops of generate.
  method Write(levels: seq<WaveformLevel>) returns (stream: seq<byte>)
    requires Storable(levels)
    ensures stream == FileBytes(levels)
  {
    stream := LittleEndian(MAGIC, 4) + LittleEndian(FORMAT_VERSION, 2) + LittleEndian(|levels|, 2);
    for k := 0 to |levels|
      invariant stream == Header(|levels|) + AllLevelBytes(levels[..k])
    {
      assert SoundLevel(levels[k]);
      var level := WriteLevel(levels[k]);
      LevelsUpTo(levels, k);
      Regrouped(Header(|levels|), AllLevelBytes(levels[..k]), level);
      stream := stream + level;
    }
    assert levels[..|levels|] == levels;
  }

  lemma {:induction false} LevelsUpTo(levels: seq<WaveformLevel>, k: nat)
    requires AllEven(levels) && k < |levels|
    ensures AllLevelBytes(levels[..k + 1]) == AllLevelBytes(levels[..k]) + LevelBytes(levels[k])
  {
    assert levels[..k + 1] == levels[..k] + [levels[k]];
    OneMoreLevel(levels[..k], levels[k]);
  }

  method WriteLevel(level: WaveformLevel) returns (stream: seq<byte>)
    requires Even(level)
    ensures stream == LevelBytes(level)
  {
    var count := |level.minimums|;
    stream := LittleEndian(level.samplesPerPeak, 4) + LittleEndian(count, 8);
    for index := 0 to count
      invariant stream == LevelHeader(level.samplesPerPeak, count) + PeakBytes(level.minimums[..index], level.maximums[..index])
    {
      assert level.minimums[..index + 1][..index] == level.minimums[..index];
      assert level.maximums[..index + 1][..index] == level.maximums[..index];
      stream := stream + SignedBytes(level.minimums[index]) + SignedBytes(level.maximums[index]);
    }
    assert level.minimums[..count] == level.minimums && level.maximums[..count] == level.maximums;
  }

  // ---- Reading.

  lemma {:induction false} TotalsGrow(levels: seq<WaveformLevel>, n: nat)
    requires n <= |levels|
    ensures TotalPeaks(levels[..n]) <= TotalPeaks(levels)
    decreases |levels|
  {
    if n < |levels| {
      var shorter := levels[..|levels| - 1];
      TotalsGrow(shorter, n);
      assert shorter[..n] == levels[..n];
    } else {
      assert levels[..n] == levels;
    }
  }

  lemma {:induction false} PeakBytesSplit(minimums: seq<int16>, maximums: seq<int16>, n: nat) returns (rest: seq<byte>)
    requires |minimums| == |maximums| && n < |minimums|
    ensures PeakBytes(minimums, maximums)
         == PeakBytes(minimums[..n], maximums[..n]) + (SignedBytes(minimums[n]) + SignedBytes(maximums[n])) + rest
    decreases |minimums|
  {
    var last := |minimums| - 1;
    var pair := SignedBytes(minimums[last]) + SignedBytes(maximums[last]);
    if n < last {
      var rest' := PeakBytesSplit(minimums[..last], maximums[..last], n);
      assert minimums[..last][..n] == minimums[..n] && maximums[..last][..n] == maximums[..n];
      rest := rest' + pair;
    } else {
      rest := [];
    }
  }

  // Where level n of a stored file stands, and what the reader can count on there.
  lemma {:induction false} AtLevel(bytes: seq<byte>, expected: seq<WaveformLevel>, n: nat)
    requires Storable(expected) && n < |expected| && bytes == FileBytes(expected)
    ensures
      var at := HEADER_BYTES + |AllLevelBytes(expected[..n])|;
      var count := |expected[n].minimums|;
      && at + LEVEL_HEADER_BYTES + PEAK_PAIR_BYTES * count + LEVEL_HEADER_BYTES * (|expected| - n - 1) <= |bytes|
      && Holds(bytes, at, LevelHeader(expected[n].samplesPerPeak, count))
      && Holds(bytes, at + LEVEL_HEADER_BYTES, PeakBytes(expected[n].minimums, expected[n].maximums))
      && TotalPeaks(expected[..n]) + count <= MAXIMUM_SERIALIZED_PEAK_PAIRS
  {
    assert SoundLevel(expected[n]);
    LevelsStand(bytes, expected);
    LevelStands(bytes, HEADER_BYTES, expected, n);
    TotalUpTo(expected, n);
    HeaderAndPeaksStand(bytes, HEADER_BYTES + |AllLevelBytes(expected[..n])|, expected[n]);
  }

  lemma {:induction false} HeaderAndPeaksStand(bytes: seq<byte>, at: nat, level: WaveformLevel)
    requires Even(level) && Holds(bytes, at, LevelBytes(level))
    ensures Holds(bytes, at, LevelHeader(level.samplesPerPeak, |level.minimums|))
    ensures Holds(bytes, at + LEVEL_HEADER_BYTES, PeakBytes(level.minimums, level.maximums))
  {
    HoldsSplit(bytes, at, LevelHeader(level.samplesPerPeak, |level.minimums|), PeakBytes(level.minimums, level.maximums));
  }

  lemma {:induction false} LevelsStand(bytes: seq<byte>, expected: seq<WaveformLevel>)
    requires Storable(expected) && bytes == FileBytes(expected)
    ensures Holds(bytes, HEADER_BYTES, AllLevelBytes(expected))
  {
    HoldsAll(bytes, bytes);
    HoldsSplit(bytes, 0, Header(|expected|), AllLevelBytes(expected));
  }

  lemma {:induction false} LevelStands(bytes: seq<byte>, at: nat, levels: seq<WaveformLevel>, n: nat)
    requires AllEven(levels) && n < |levels| && Holds(bytes, at, AllLevelBytes(levels))
    ensures Holds(bytes, at + |AllLevelBytes(levels[..n])|, LevelBytes(levels[n]))
    ensures at + |AllLevelBytes(levels[..n])| + |LevelBytes(levels[n])| + LEVEL_HEADER_BYTES * (|levels| - n - 1) <= |bytes|
  {
    var pieces := LevelPieces(levels);
    assert LevelPieces(levels[..n]) == pieces[..n];
    PieceStands(bytes, at, pieces, n);
    ConcatAtLeast(pieces[n + 1..], LEVEL_HEADER_BYTES);
  }

  lemma {:induction false} TotalUpTo(levels: seq<WaveformLevel>, n: nat)
    requires n < |levels|
    ensures TotalPeaks(levels[..n]) + |levels[n].minimums| <= TotalPeaks(levels)
  {
    TotalsGrow(levels, n + 1);
    assert levels[..n + 1][..n] == levels[..n];
  }

  lemma {:induction false} TotalOneMore(levels: seq<WaveformLevel>, level: WaveformLevel)
    ensures TotalPeaks(levels + [level]) == TotalPeaks(levels) + |level.minimums|
  {
    assert (levels + [level])[..|levels|] == levels;
  }

  // WaveformGenerator::read. expected stands for any level list whatever: the reader returns it if the
  // bytes are its file, and whatever the reader returns has these bytes as its file.
  method Read(bytes: seq<byte>, ghost expected: seq<WaveformLevel>) returns (result: Option<seq<WaveformLevel>>)
    ensures result.Some? ==> Storable(result.value) && FileBytes(result.value) == bytes
    ensures IsFileOf(bytes, expected) ==> result == Some(expected)
  {
    var levelCount := ReadHeader(bytes, expected);
    if levelCount.None? {
      return None;
    }
    var position;
    result, position := ReadLevels(bytes, levelCount.value, expected);
    if result.None? {
      return None;
    }
    HoldsSplit(bytes, 0, Header(levelCount.value), AllLevelBytes(result.value));
    if position != |bytes| {
      return None;
    }
    HoldsAll(bytes, Header(levelCount.value) + AllLevelBytes(result.value));
  }

  ghost predicate IsFileOf(bytes: seq<byte>, levels: seq<WaveformLevel>) {
    Storable(levels) && bytes == FileBytes(levels)
  }

  // The level loop.
  method ReadLevels(bytes: seq<byte>, levelCount: nat, ghost expected: seq<WaveformLevel>)
    returns (result: Option<seq<WaveformLevel>>, position: nat)
    requires 1 <= levelCount <= MAXIMUM_LEVELS && Holds(bytes, 0, Header(levelCount))
    requires IsFileOf(bytes, expected) ==> levelCount == |expected|
    ensures result.Some? ==>
      |result.value| == levelCount && Storable(result.value) && position == HEADER_BYTES + |AllLevelBytes(result.value)|
      && Holds(bytes, HEADER_BYTES, AllLevelBytes(result.value))
    ensures IsFileOf(bytes, expected) ==> result == Some(expected) && position == |bytes|
  {
    var levels: seq<WaveformLevel> := [];
    position := HEADER_BYTES;
    var totalPeakCount: nat := 0;
    for levelIndex := 0 to levelCount
      invariant |levels| == levelIndex && ReadSoFar(bytes, levels, position, totalPeakCount)
      invariant IsFileOf(bytes, expected) ==> levels == expected[..levelIndex]
    {
      ghost var next := ExpectedNext(bytes, expected, levelCount, levels, position, totalPeakCount);
      var level := ReadLevel(bytes, position, totalPeakCount, levelCount - levelIndex - 1, next);
      if level.None? {
        return None, position;
      }
      ReadOneMore(bytes, levels, position, totalPeakCount, level.value);
      levels := levels + [level.value];
      position := position + LEVEL_HEADER_BYTES + PEAK_PAIR_BYTES * |level.value.minimums|;
      totalPeakCount := totalPeakCount + |level.value.minimums|;
    }
    if IsFileOf(bytes, expected) {
      assert expected[..|expected|] == expected;
    }
    return Some(levels), position;
  }

  lemma {:induction false} ExpectedNext(bytes: seq<byte>, expected: seq<WaveformLevel>, levelCount: nat,
                                        levels: seq<WaveformLevel>,
                                        position: nat, totalPeakCount: nat) returns (next: WaveformLevel)
    requires |levels| < levelCount && ReadSoFar(bytes, levels, position, totalPeakCount)
    requires IsFileOf(bytes, expected) ==> levelCount == |expected| && levels == expected[..|levels|]
    ensures IsFileOf(bytes, expected) ==>
      && next == expected[|levels|]
      && expected[..|levels| + 1] == levels + [next]
      && LevelStandsAt(bytes, position, totalPeakCount, levelCount - |levels| - 1, next)
  {
    next := WaveformLevel(0, [], []);
    if IsFileOf(bytes, expected) {
      next := expected[|levels|];
      assert SoundLevel(next);
      AtLevel(bytes, expected, |levels|);
    }
  }

  // The levels read so far stand between the header and position.
  predicate ReadSoFar(bytes: seq<byte>, levels: seq<WaveformLevel>, position: nat, totalPeakCount: nat) {
    && (forall k :: 0 <= k < |levels| ==> SoundLevel(levels[k]))
    && totalPeakCount == TotalPeaks(levels) <= MAXIMUM_SERIALIZED_PEAK_PAIRS
    && position == HEADER_BYTES + |AllLevelBytes(levels)|
    && Holds(bytes, HEADER_BYTES, AllLevelBytes(levels))
  }

  lemma {:induction false} ReadOneMore(bytes: seq<byte>, levels: seq<WaveformLevel>, position: nat,
                                       totalPeakCount: nat, level: WaveformLevel)
    requires ReadSoFar(bytes, levels, position, totalPeakCount)
    requires SoundLevel(level) && Holds(bytes, position, LevelBytes(level))
    requires totalPeakCount + |level.minimums| <= MAXIMUM_SERIALIZED_PEAK_PAIRS
    ensures ReadSoFar(bytes, levels + [level], position + |LevelBytes(level)|, totalPeakCount + |level.minimums|)
  {
    OneMoreLevel(levels, level);
    TotalOneMore(levels, level);
    HoldsSplit(bytes, HEADER_BYTES, AllLevelBytes(levels), LevelBytes(level));
  }

  lemma {:induction false} HeaderFields(bytes: seq<byte>, levelCount: nat)
    requires levelCount < 0x1_0000
    ensures Holds(bytes, 0, Header(levelCount)) <==>
      Field(bytes, 0, 4) == Some(MAGIC) && Field(bytes, 4, 2) == Some(FORMAT_VERSION) && Field(bytes, 6, 2) == Some(levelCount)
  {
    PowersOf256();
    FieldIsItsBytes(bytes, 0, 4, MAGIC);
    FieldIsItsBytes(bytes, 4, 2, FORMAT_VERSION);
    FieldIsItsBytes(bytes, 6, 2, levelCount);
    HoldsSplit(bytes, 0, LittleEndian(MAGIC, 4) + LittleEndian(FORMAT_VERSION, 2), LittleEndian(levelCount, 2));
    HoldsSplit(bytes, 0, LittleEndian(MAGIC, 4), LittleEndian(FORMAT_VERSION, 2));
  }

  method ReadHeader(bytes: seq<byte>, ghost expected: seq<WaveformLevel>) returns (levelCount: Option<nat>)
    ensures levelCount.Some? ==> 1 <= levelCount.value <= MAXIMUM_LEVELS && Holds(bytes, 0, Header(levelCount.value))
    ensures IsFileOf(bytes, expected) ==> levelCount == Some(|expected|)
  {
    if Storable(expected) && bytes == FileBytes(expected) {
      HoldsAll(bytes, bytes);
      HoldsSplit(bytes, 0, Header(|expected|), AllLevelBytes(expected));
      HeaderFields(bytes, |expected|);
    }
    var magic, version, count := Field(bytes, 0, 4), Field(bytes, 4, 2), Field(bytes, 6, 2);
    if magic.None? || version.None? || count.None? {
      return None;
    }
    if magic.value != MAGIC || version.value != FORMAT_VERSION {
      return None;
    }
    if count.value == 0 || count.value > MAXIMUM_LEVELS {
      return None;
    }
    HeaderFields(bytes, count.value);
    return count;
  }

  lemma {:induction false} LevelHeaderFields(bytes: seq<byte>, start: nat, samplesPerPeak: nat, count: nat)
    requires samplesPerPeak <= UINT32_MAX && count <= MAXIMUM_SERIALIZED_PEAK_PAIRS
    ensures Holds(bytes, start, LevelHeader(samplesPerPeak, count)) <==>
      Field(bytes, start, 4) == Some(samplesPerPeak) && Field(bytes, start + 4, 8) == Some(count)
  {
    PowersOf256();
    FieldIsItsBytes(bytes, start, 4, samplesPerPeak);
    FieldIsItsBytes(bytes, start + 4, 8, count);
    HoldsSplit(bytes, start, LittleEndian(samplesPerPeak, 4), LittleEndian(count, 8));
  }

  // next stands at start, followed by at least levelsAfter level headers, within the permitted total.
  predicate LevelStandsAt(bytes: seq<byte>, start: nat, totalPeakCount: nat, levelsAfter: nat, next: WaveformLevel) {
    && SoundLevel(next)
    && Holds(bytes, start, LevelHeader(next.samplesPerPeak, |next.minimums|))
    && Holds(bytes, start + LEVEL_HEADER_BYTES, PeakBytes(next.minimums, next.maximums))
    && start + LEVEL_HEADER_BYTES + PEAK_PAIR_BYTES * |next.minimums| + LEVEL_HEADER_BYTES * levelsAfter <= |bytes|
    && totalPeakCount + |next.minimums| <= MAXIMUM_SERIALIZED_PEAK_PAIRS
  }

  // One round of the level loop: it reads the level that stands at start, or refuses if none does.
  method ReadLevel(bytes: seq<byte>, start: nat, totalPeakCount: nat, levelsAfter: nat, ghost next: WaveformLevel)
    returns (level: Option<WaveformLevel>)
    requires totalPeakCount <= MAXIMUM_SERIALIZED_PEAK_PAIRS
    ensures level.Some? ==>
      && SoundLevel(level.value) && Holds(bytes, start, LevelBytes(level.value))
      && totalPeakCount + |level.value.minimums| <= MAXIMUM_SERIALIZED_PEAK_PAIRS
    ensures LevelStandsAt(bytes, start, totalPeakCount, levelsAfter, next) ==> level == Some(next)
  {
    if LevelStandsAt(bytes, start, totalPeakCount, levelsAfter, next) {
      LevelHeaderFields(bytes, start, next.samplesPerPeak, |next.minimums|);
    }
    var samplesPerPeak, peaks := Field(bytes, start, 4), Field(bytes, start + 4, 8);
    if samplesPerPeak.None? || peaks.None? {
      return None;
    }
    var count := peaks.value;
    if samplesPerPeak.value == 0 || count == 0 {
      return None;
    }
    if count > MAXIMUM_SERIALIZED_PEAK_PAIRS || count > MAXIMUM_SERIALIZED_PEAK_PAIRS - totalPeakCount {
      return None;
    }
    var position := start + LEVEL_HEADER_BYTES;
    var remainingBytes := |bytes| - position;
    var remainingLevelHeaders := levelsAfter * LEVEL_HEADER_BYTES;
    if remainingBytes < remainingLevelHeaders || count > (remainingBytes - remainingLevelHeaders) / PEAK_PAIR_BYTES {
      return None;
    }
    var minimums, maximums := ReadPeaks(bytes, position, count, next);
    if minimums.None? {
      return None;
    }
    UnsignedFieldFits(bytes, start);
    LevelHeaderFields(bytes, start, samplesPerPeak.value, count);
    HoldsSplit(bytes, start, LevelHeader(samplesPerPeak.value, count), PeakBytes(minimums.value, maximums));
    return Some(WaveformLevel(samplesPerPeak.value, minimums.value, maximums));
  }

  lemma {:induction false} UnsignedFieldFits(bytes: seq<byte>, at: nat)
    requires Field(bytes, at, 4).Some?
    ensures Field(bytes, at, 4).value <= UINT32_MAX
  {
    PowersOf256();
    FieldIsItsBytes(bytes, at, 4, Field(bytes, at, 4).value);
  }

  // next's peaks stand at start.
  predicate PeaksStand(bytes: seq<byte>, start: nat, count: nat, next: WaveformLevel) {
    SoundLevel(next) && |next.minimums| == count && Holds(bytes, start, PeakBytes(next.minimums, next.maximums))
  }

  // The peaks read so far are those that stand there.
  predicate PeaksRead(bytes: seq<byte>, start: nat, lows: seq<int16>, highs: seq<int16>) {
    && |lows| == |highs| && (forall i :: 0 <= i < |lows| ==> lows[i] <= highs[i])
    && Holds(bytes, start, PeakBytes(lows, highs))
  }

  predicate PrefixOf(lows: seq<int16>, highs: seq<int16>, next: WaveformLevel) {
    lows <= next.minimums && highs <= next.maximums
  }

  // The peak loop: a minimum above its maximum is refused.
  method ReadPeaks(bytes: seq<byte>, start: nat, count: nat, ghost next: WaveformLevel)
    returns (minimums: Option<seq<int16>>, maximums: seq<int16>)
    requires start + PEAK_PAIR_BYTES * count <= |bytes|
    ensures minimums.Some? ==> |minimums.value| == count && PeaksRead(bytes, start, minimums.value, maximums)
    ensures PeaksStand(bytes, start, count, next) ==> minimums == Some(next.minimums) && maximums == next.maximums
  {
    var lows: seq<int16> := [];
    maximums := [];
    var ordered := true;
    for index := 0 to count
      invariant |lows| == index && PeaksRead(bytes, start, lows, maximums)
      invariant PeaksStand(bytes, start, count, next) ==> PrefixOf(lows, maximums, next)
    {
      ordered, lows, maximums := ReadPair(bytes, start, count, lows, maximums, next);
      if !ordered {
        return None, [];
      }
    }
    if PeaksStand(bytes, start, count, next) {
      WholePrefix(lows, next.minimums);
      WholePrefix(maximums, next.maximums);
    }
    return Some(lows), maximums;
  }

  // One round of the peak loop.
  method ReadPair(bytes: seq<byte>, start: nat, count: nat, lows: seq<int16>, highs: seq<int16>, ghost next: WaveformLevel)
    returns (ordered: bool, lows': seq<int16>, highs': seq<int16>)
    requires |lows| < count && start + PEAK_PAIR_BYTES * count <= |bytes| && PeaksRead(bytes, start, lows, highs)
    requires PeaksStand(bytes, start, count, next) ==> PrefixOf(lows, highs, next)
    ensures ordered ==> |lows'| == |lows| + 1 && PeaksRead(bytes, start, lows', highs')
    ensures PeaksStand(bytes, start, count, next) ==> ordered && PrefixOf(lows', highs', next)
  {
    var at := start + PEAK_PAIR_BYTES * |lows|;
    var minimum, maximum := FromSignedBytes(bytes[at..at + 2]), FromSignedBytes(bytes[at + 2..at + 4]);
    lows', highs' := lows + [minimum], highs + [maximum];
    ordered := minimum <= maximum;
    if PeaksStand(bytes, start, count, next) {
      PairAt(bytes, start, next, |lows|);
      OneLonger(next.minimums, lows);
      OneLonger(next.maximums, highs);
    }
    OneMorePair(bytes, start, lows, highs);
  }

  lemma {:induction false} WholePrefix<T>(prefix: seq<T>, s: seq<T>)
    requires prefix <= s && |prefix| == |s|
    ensures prefix == s
  {
    assert s[..|prefix|] == s;
  }

  lemma {:induction false} OneLonger<T>(s: seq<T>, prefix: seq<T>)
    requires prefix <= s && |prefix| < |s|
    ensures prefix + [s[|prefix|]] <= s
  {
  }

  lemma {:induction false} OneMorePair(bytes: seq<byte>, start: nat, lows: seq<int16>, highs: seq<int16>)
    requires |lows| == |highs| && Holds(bytes, start, PeakBytes(lows, highs))
    requires start + PEAK_PAIR_BYTES * |lows| + PEAK_PAIR_BYTES <= |bytes|
    ensures
      var at := start + PEAK_PAIR_BYTES * |lows|;
      Holds(bytes, start, PeakBytes(lows + [FromSignedBytes(bytes[at..at + 2])], highs + [FromSignedBytes(bytes[at + 2..at + 4])]))
  {
    var at := start + PEAK_PAIR_BYTES * |lows|;
    var first, second := bytes[at..at + 2], bytes[at + 2..at + 4];
    SignedBytesWriteBack(first);
    SignedBytesWriteBack(second);
    HoldsSplit(bytes, start, PeakBytes(lows, highs), first);
    HoldsSplit(bytes, start, PeakBytes(lows, highs) + first, second);
    var lows', highs' := lows + [FromSignedBytes(first)], highs + [FromSignedBytes(second)];
    assert lows'[..|lows|] == lows && highs'[..|lows|] == highs;
  }

  lemma {:induction false} PairAt(bytes: seq<byte>, start: nat, level: WaveformLevel, index: nat)
    requires SoundLevel(level) && index < |level.minimums|
    requires Holds(bytes, start, PeakBytes(level.minimums, level.maximums))
    ensures
      var at := start + PEAK_PAIR_BYTES * index;
      && at + PEAK_PAIR_BYTES <= |bytes|
      && FromSignedBytes(bytes[at..at + 2]) == level.minimums[index]
      && FromSignedBytes(bytes[at + 2..at + 4]) == level.maximums[index]
  {
    var rest := PeakBytesSplit(level.minimums, level.maximums, index);
    SignedBytesReadBack(level.minimums[index]);
    SignedBytesReadBack(level.maximums[index]);
    var head := PeakBytes(level.minimums[..index], level.maximums[..index]);
    var first, second := SignedBytes(level.minimums[index]), SignedBytes(level.maximums[index]);
    assert PeakBytes(level.minimums, level.maximums) == head + (first + (second + rest));
    HoldsSplit(bytes, start, head, first + (second + rest));
    HoldsSplit(bytes, start + |head|, first, second + rest);
    HoldsSplit(bytes, start + |head| + 2, second, rest);
  }

  // No two level lists share a file.
  lemma {:induction false} FilesAreUnique(a: seq<WaveformLevel>, b: seq<WaveformLevel>, n: nat)
    requires Storable(a) && Storable(b) && FileBytes(a) == FileBytes(b)
    requires n <= |a| && n <= |b| && a[..n] == b[..n]
    ensures a == b
    decreases |a| - n
  {
    var bytes := FileBytes(a);
    SameCount(bytes, a, b);
    if n < |a| {
      SameLevelAt(bytes, a, b, n);
      assert a[..n + 1] == a[..n] + [a[n]] && b[..n + 1] == b[..n] + [b[n]];
      FilesAreUnique(a, b, n + 1);
    } else {
      assert a == a[..n] && b == b[..n];
    }
  }

  lemma {:induction false} SameCount(bytes: seq<byte>, a: seq<WaveformLevel>, b: seq<WaveformLevel>)
    requires Storable(a) && Storable(b) && bytes == FileBytes(a) == FileBytes(b)
    ensures |a| == |b|
  {
    HoldsAll(bytes, bytes);
    HoldsSplit(bytes, 0, Header(|a|), AllLevelBytes(a));
    HoldsSplit(bytes, 0, Header(|b|), AllLevelBytes(b));
    HeaderFields(bytes, |a|);
    HeaderFields(bytes, |b|);
  }

  lemma {:induction false} SameLevelAt(bytes: seq<byte>, a: seq<WaveformLevel>, b: seq<WaveformLevel>, n: nat)
    requires Storable(a) && Storable(b) && bytes == FileBytes(a) == FileBytes(b)
    requires n < |a| == |b| && a[..n] == b[..n]
    ensures a[n] == b[n]
  {
    LevelStandsIn(bytes, a, n);
    LevelStandsIn(bytes, b, n);
    SameLevel(bytes, HEADER_BYTES + |AllLevelBytes(a[..n])|, a[n], b[n]);
  }

  lemma {:induction false} LevelStandsIn(bytes: seq<byte>, levels: seq<WaveformLevel>, n: nat)
    requires Storable(levels) && n < |levels| && bytes == FileBytes(levels)
    ensures LevelStandsAt(bytes, HEADER_BYTES + |AllLevelBytes(levels[..n])|, 0, 0, levels[n])
  {
    AtLevel(bytes, levels, n);
    assert SoundLevel(levels[n]);
  }

  lemma {:induction false} SameLevel(bytes: seq<byte>, start: nat, a: WaveformLevel, b: WaveformLevel)
    requires LevelStandsAt(bytes, start, 0, 0, a) && LevelStandsAt(bytes, start, 0, 0, b)
    ensures a == b
  {
    LevelHeaderFields(bytes, start, a.samplesPerPeak, |a.minimums|);
    LevelHeaderFields(bytes, start, b.samplesPerPeak, |b.minimums|);
    forall i | 0 <= i < |a.minimums| ensures a.minimums[i] == b.minimums[i] && a.maximums[i] == b.maximums[i] {
      PairAt(bytes, start + LEVEL_HEADER_BYTES, a, i);
      PairAt(bytes, start + LEVEL_HEADER_BYTES, b, i);
    }
    assert a.minimums == b.minimums && a.maximums == b.maximums;
  }

  // Whatever generate produces can be stored, so reading its file gives it back.
  lemma {:induction false} PyramidsAreStorable(samples: seq<int16>, levels: seq<WaveformLevel>)
    requires Pyramid(samples, levels) && |levels| <= MAXIMUM_LEVELS && TotalPeaks(levels) <= MAXIMUM_SERIALIZED_PEAK_PAIRS
    requires forall k :: 0 <= k < |levels| ==> levels[k].samplesPerPeak <= UINT32_MAX
    ensures Storable(levels)
  {
    forall k | 0 <= k < |levels| ensures SoundLevel(levels[k]) {
      forall i | 0 <= i < |levels[k].minimums| ensures levels[k].minimums[i] <= levels[k].maximums[i] {
        assert PeakAt(samples, levels[k], i);
      }
    }
  }

  method GenerateThenRead(input: Input) returns (written: Option<seq<byte>>, result: Option<seq<WaveformLevel>>,
                          ghost levels: seq<WaveformLevel>)
    requires input.Declared()
    ensures written.Some? <==> PlanFits(input.WindowCount()) && input.Undisturbed()
    ensures written.Some? ==> Pyramid(Samples(input.available[..input.dataSize]), levels) && result == Some(levels)
  {
    levels := [];
    var generated := Generate(input);
    if generated.None? {
      return None, None, [];
    }
    levels := generated.value;
    PyramidsAreStorable(Samples(input.available[..input.dataSize]), levels);
    var bytes := Write(generated.value);
    result := Read(bytes, levels);
    written := Some(bytes);
  }
}
