// The two RIFF/WAVE chunk walkers: NormalizedAudioValidator::validate in
// src/audio/NormalizedAudioValidator.cpp and inspectPcmLayout in src/audio/WaveformGenerator.cpp.

module RiffWave {
  import opened Outcomes
  import opened Bytes

  // qint64: every step below is checked not to leave its range.
  newtype int64 = x: int | -0x8000_0000_0000_0000 <= x < 0x8000_0000_0000_0000

  const INT64_MAX: int := 0x7FFF_FFFF_FFFF_FFFF

  const RIFF: seq<byte> := [0x52, 0x49, 0x46, 0x46]
  const WAVE: seq<byte> := [0x57, 0x41, 0x56, 0x45]
  const FMT: seq<byte> := [0x66, 0x6D, 0x74, 0x20]
  const DATA: seq<byte> := [0x64, 0x61, 0x74, 0x61]

  const BYTES_PER_SECOND: int := 32000
  const BLOCK_ALIGN: int := 2

  datatype Format = Format(audioFormat: nat, channels: nat, sampleRate: nat, bytesPerSecond: nat, blockAlign: nat, bitsPerSample: nat)

  datatype PcmLayout = PcmLayout(dataOffset: nat, dataSize: nat)

  datatype AudioInfo = AudioInfo(dataOffset: nat, dataSize: nat, durationMs: nat)

  function FieldAt(file: seq<byte>, at: nat, width: nat): (n: nat)
    requires at + width <= |file|
    ensures n < Power256(width)
  {
    LittleEndianWritesBack(file[at..at + width]);
    FromLittleEndian(file[at..at + width])
  }

  function FormatAt(file: seq<byte>, at: nat): Format
    requires at + 16 <= |file|
  {
    Format(FieldAt(file, at, 2), FieldAt(file, at + 2, 2), FieldAt(file, at + 4, 4),
           FieldAt(file, at + 8, 4), FieldAt(file, at + 12, 2), FieldAt(file, at + 14, 2))
  }

  predicate IsRiffWave(file: seq<byte>) {
    |file| >= 12 && file[..4] == RIFF && file[8..12] == WAVE
  }

  // One chunk: where it starts, its size and where the next one starts.
  function ChunkSize(file: seq<byte>, at: nat): nat
    requires at + 8 <= |file|
  {
    FieldAt(file, at + 4, 4)
  }

  function PaddedEnd(file: seq<byte>, at: nat): nat
    requires at + 8 <= |file|
  {
    at + 8 + ChunkSize(file, at) + ChunkSize(file, at) % 2
  }

  datatype Found = Found(format: Option<Format>, data: Option<PcmLayout>) {
    predicate Both() {
      format.Some? && data.Some?
    }
  }

  // What the chunk at a position adds; None if a format chunk is too short.
  function WithChunk(file: seq<byte>, at: nat, found: Found): Option<Found>
    requires at + 8 <= |file| && at + 8 + ChunkSize(file, at) <= |file|
  {
    if file[at..at + 4] == FMT then
      if ChunkSize(file, at) < 16 then None else Some(found.(format := Some(FormatAt(file, at + 8))))
    else if file[at..at + 4] == DATA then
      Some(found.(data := Some(PcmLayout(at + 8, ChunkSize(file, at)))))
    else
      Some(found)
  }

  // ---- What a chunk list is.

  // The chunks that start at ps follow one another from at to end, inside the file.
  predicate Walks(file: seq<byte>, at: nat, ps: seq<nat>, end: nat)
    decreases |ps|
  {
    if ps == [] then at == end
    else
      && ps[0] == at && at + 8 <= |file| && PaddedEnd(file, at) <= |file|
      && Walks(file, PaddedEnd(file, at), ps[1..], end)
  }

  predicate IsKind(file: seq<byte>, at: nat, id: seq<byte>) {
    at + 8 <= |file| && file[at..at + 4] == id
  }

  // The starts of the chunks of one kind.
  function OfKind(file: seq<byte>, ps: seq<nat>, id: seq<byte>): seq<nat> {
    if ps == [] then []
    else (if IsKind(file, ps[0], id) then [ps[0]] else []) + OfKind(file, ps[1..], id)
  }

  predicate LongFormat(file: seq<byte>, at: nat) {
    at + 24 <= |file| && ChunkSize(file, at) >= 16
  }

  predicate IsFormat(file: seq<byte>, at: nat, format: Format) {
    LongFormat(file, at) && format == FormatAt(file, at + 8)
  }

  predicate IsData(file: seq<byte>, at: nat, data: PcmLayout) {
    at + 8 <= |file| && data == PcmLayout(at + 8, ChunkSize(file, at))
  }

  // ---- inspectPcmLayout: later chunks of a kind replace earlier ones, and it stops once it has both.

  function InspectFrom(file: seq<byte>, at: nat, found: Found): Option<Found>
    requires at <= |file|
    decreases |file| - at
  {
    if at + 8 > |file| then Some(found)
    else if at + 8 + ChunkSize(file, at) > |file| then None
    else
      match WithChunk(file, at, found)
      case None => None
      case Some(found') =>
        if PaddedEnd(file, at) > |file| then None
        else if found'.Both() then Some(found')
        else InspectFrom(file, PaddedEnd(file, at), found')
  }

  function InspectedLayout(file: seq<byte>, pcmSuffix: bool): Option<PcmLayout> {
    if file == [] then None
    else if !IsRiffWave(file) then
      if pcmSuffix && |file| % 2 == 0 then Some(PcmLayout(0, |file|)) else None
    else
      match InspectFrom(file, 12, Found(None, None))
      case None => None
      case Some(found) =>
        if !found.Both() then None
        else
          var f, d := found.format.value, found.data.value;
          if f.audioFormat == 1 && f.channels == 1 && f.sampleRate == 16000 && f.bitsPerSample == 16 &&
             d.dataSize > 0 && d.dataSize % 2 == 0
          then Some(d) else None
  }

  // No 64-bit step leaves its range in a file that ends a whole chunk before the largest offset.
  method InspectPcmLayout(file: seq<byte>, pcmSuffix: bool) returns (layout: Option<PcmLayout>)
    requires |file| <= INT64_MAX - 0x1_0000_0000
    ensures layout == InspectedLayout(file, pcmSuffix)
  {
    if file == [] {
      return None;
    }
    if !IsRiffWave(file) {
      if !pcmSuffix || |file| % 2 != 0 {
        return None;
      }
      return Some(PcmLayout(0, |file|));
    }
    PowersOf256();
    var format: Option<Format>, data: Option<PcmLayout> := None, None;
    var position: int64 := 12;
    var size := |file| as int64;
    while position + 8 <= size
      invariant 12 <= position <= size
      invariant !Found(format, data).Both()
      invariant InspectFrom(file, position as int, Found(format, data)) == InspectFrom(file, 12, Found(None, None))
      decreases size - position
    {
      ghost var at := position as int;
      var id := file[position as int..position as int + 4];
      var chunkSize := ChunkSize(file, position as int) as int64;
      var chunkDataOffset := position + 8;
      var chunkEnd := chunkDataOffset + chunkSize;
      if chunkEnd < chunkDataOffset || chunkEnd > size {
        return None;
      }
      if id == FMT {
        if chunkSize < 16 {
          return None;
        }
        format := Some(FormatAt(file, chunkDataOffset as int));
      } else if id == DATA {
        data := Some(PcmLayout(chunkDataOffset as int, chunkSize as int));
      }
      var paddedEnd := chunkEnd + chunkSize % 2;
      if paddedEnd > size {
        return None;
      }
      assert paddedEnd as int == PaddedEnd(file, at);
      if format.Some? && data.Some? {
        return if format.value.audioFormat != 1 || format.value.channels != 1 || format.value.sampleRate != 16000 ||
                  format.value.bitsPerSample != 16 || data.value.dataSize <= 0 || data.value.dataSize % 2 != 0
               then None else data;
      }
      position := paddedEnd;
    }
    return None;
  }

  // ---- NormalizedAudioValidator: one chunk of each kind, and chunks fill the file to its last byte.

  function ValidateFrom(file: seq<byte>, at: nat, found: Found): Option<Found>
    requires at <= |file|
    decreases |file| - at
  {
    if at + 8 > |file| then
      if at == |file| then Some(found) else None
    else if PaddedEnd(file, at) > |file| then None
    else if file[at..at + 4] == FMT && found.format.Some? then None
    else if file[at..at + 4] == DATA && found.data.Some? then None
    else
      match WithChunk(file, at, found)
      case None => None
      case Some(found') => ValidateFrom(file, PaddedEnd(file, at), found')
  }

  predicate RequiredFormat(f: Format) {
    f == Format(1, 1, 16000, 32000, 2, 16)
  }

  function DurationToleranceMs(expectedDurationMs: int): int {
    Clamp(expectedDurationMs / 200, 250, 2000)
  }

  function ExpectedDataSize(expectedDurationMs: int): int {
    expectedDurationMs * BYTES_PER_SECOND / 1000
  }

  predicate SizeFits(dataSize: int, expectedDurationMs: int) {
    Abs(dataSize - ExpectedDataSize(expectedDurationMs)) <= DurationToleranceMs(expectedDurationMs) * BYTES_PER_SECOND / 1000 + BLOCK_ALIGN
  }

  // The data chunk of an acceptable file.
  function ValidatedData(file: seq<byte>, expectedDurationMs: int): Option<PcmLayout> {
    if expectedDurationMs <= 0 || expectedDurationMs > INT64_MAX / BYTES_PER_SECOND then None
    else if !IsRiffWave(file) || 8 + FieldAt(file, 4, 4) != |file| then None
    else
      match ValidateFrom(file, 12, Found(None, None))
      case None => None
      case Some(found) =>
        if found.Both() && RequiredFormat(found.format.value) &&
           found.data.value.dataSize > 0 && found.data.value.dataSize % BLOCK_ALIGN == 0 &&
           SizeFits(found.data.value.dataSize, expectedDurationMs)
        then found.data else None
  }

  // Whole seconds and the rest apart, so that no product leaves 64 bits.
  method ReadableDurationMs(dataSize: int64) returns (durationMs: int64)
    requires dataSize >= 0
    ensures durationMs as int == dataSize as int * 1000 / BYTES_PER_SECOND
  {
    var wholeSeconds := dataSize / 32000;
    var remainingBytes := dataSize % 32000;
    var n, q, r := dataSize as int, wholeSeconds as int, remainingBytes as int;
    assert n == 32000 * q + r;
    assert n * 1000 / 32000 == q * 1000 + r * 1000 / 32000;
    durationMs := wholeSeconds * 1000 + (remainingBytes * 1000) / 32000;
  }

  method SizeIsTolerable(dataSize: int64, expectedDurationMs: int64) returns (fits: bool)
    requires 0 < expectedDurationMs as int <= INT64_MAX / BYTES_PER_SECOND && 0 <= dataSize as int <= 0x1_0000_0000
    ensures fits <==> SizeFits(dataSize as int, expectedDurationMs as int)
  {
    var expectedDataSize := (expectedDurationMs * 32000) / 1000;
    var tolerance := expectedDurationMs / 200;
    var toleranceMs := if tolerance < 250 then 250 else if tolerance > 2000 then 2000 else tolerance;
    assert toleranceMs as int == DurationToleranceMs(expectedDurationMs as int);
    var toleratedBytes := (toleranceMs * 32000) / 1000 + 2;
    var difference := dataSize - expectedDataSize;
    fits := (if difference < 0 then -difference else difference) <= toleratedBytes;
  }

  method Validate(file: seq<byte>, expectedDurationMs: int64) returns (info: Option<AudioInfo>)
    requires |file| <= INT64_MAX
    ensures info.Some? <==> ValidatedData(file, expectedDurationMs as int).Some?
    ensures info.Some? ==>
      && ValidatedData(file, expectedDurationMs as int) == Some(PcmLayout(info.value.dataOffset, info.value.dataSize))
      && info.value.durationMs == info.value.dataSize * 1000 / BYTES_PER_SECOND
  {
    if expectedDurationMs <= 0 {
      return None;
    }
    if expectedDurationMs > 0x7FFF_FFFF_FFFF_FFFF / 32000 {
      return None;
    }
    if !IsRiffWave(file) {
      return None;
    }
    PowersOf256();
    var fileSize := |file| as int64;
    var riffEnd := 8 + FieldAt(file, 4, 4) as int64;
    if riffEnd != fileSize {
      return None;
    }
    var found := WalkChunks(file);
    if found.None? || !found.value.Both() {
      return None;
    }
    var format, data := found.value.format.value, found.value.data.value;
    if format.audioFormat != 1 || format.channels != 1 || format.sampleRate != 16000 || format.bytesPerSecond != 32000 ||
       format.blockAlign != 2 || format.bitsPerSample != 16
    {
      return None;
    }
    if data.dataSize <= 0 || data.dataSize % BLOCK_ALIGN != 0 {
      return None;
    }
    DataLiesInTheFile(file, 12, Found(None, None));
    var fits := SizeIsTolerable(data.dataSize as int64, expectedDurationMs);
    if !fits {
      return None;
    }
    var durationMs := ReadableDurationMs(data.dataSize as int64);
    return Some(AudioInfo(data.dataOffset, data.dataSize, durationMs as int));
  }

  // The chunk loop of validate, with its check of the final position.
  method WalkChunks(file: seq<byte>) returns (found: Option<Found>)
    requires 12 <= |file| <= 8 + 0xFFFF_FFFF
    ensures found == ValidateFrom(file, 12, Found(None, None))
  {
    PowersOf256();
    var format: Option<Format>, data: Option<PcmLayout> := None, None;
    var position: int64 := 12;
    var riffEnd := |file| as int64;
    while position + 8 <= riffEnd
      invariant 12 <= position <= riffEnd
      invariant ValidateFrom(file, position as int, Found(format, data)) == ValidateFrom(file, 12, Found(None, None))
      decreases riffEnd - position
    {
      ghost var at := position as int;
      var id := file[position as int..position as int + 4];
      var chunkSize := ChunkSize(file, position as int) as int64;
      var chunkDataOffset := position + 8;
      var chunkEnd := chunkDataOffset + chunkSize;
      var paddedEnd := chunkEnd + chunkSize % 2;
      if paddedEnd > riffEnd {
        return None;
      }
      if id == FMT {
        if format.Some? || chunkSize < 16 {
          return None;
        }
        format := Some(FormatAt(file, chunkDataOffset as int));
      } else if id == DATA {
        if data.Some? {
          return None;
        }
        data := Some(PcmLayout(chunkDataOffset as int, chunkSize as int));
      }
      assert paddedEnd as int == PaddedEnd(file, at);
      position := paddedEnd;
    }
    if position != riffEnd {
      return None;
    }
    return Some(Found(format, data));
  }

  // ---- What the walkers accept, in terms of the chunk list.

  // What a walk that refuses a second chunk of a kind makes of the chunks ps.
  predicate OnceEach(file: seq<byte>, ps: seq<nat>, found: Found, result: Found) {
    var formats, datas := OfKind(file, ps, FMT), OfKind(file, ps, DATA);
    && (if formats == [] then result.format == found.format
        else |formats| == 1 && found.format == None && result.format.Some? && IsFormat(file, formats[0], result.format.value))
    && (if datas == [] then result.data == found.data
        else |datas| == 1 && found.data == None && result.data.Some? && IsData(file, datas[0], result.data.value))
  }

  lemma {:induction false} OfKindHead(file: seq<byte>, at: nat, rest: seq<nat>, id: seq<byte>)
    ensures OfKind(file, [at] + rest, id) == (if IsKind(file, at, id) then [at] else []) + OfKind(file, rest, id)
  {
    assert ([at] + rest)[1..] == rest;
  }

  lemma {:induction false} ValidWalk(file: seq<byte>, at: nat, found: Found) returns (ps: seq<nat>)
    requires at <= |file| && ValidateFrom(file, at, found).Some?
    ensures Walks(file, at, ps, |file|) && OnceEach(file, ps, found, ValidateFrom(file, at, found).value)
    decreases |file| - at
  {
    if at == |file| {
      return [];
    }
    var rest := ValidWalk(file, PaddedEnd(file, at), WithChunk(file, at, found).value);
    ps := [at] + rest;
    assert ps[1..] == rest;
    OfKindHead(file, at, rest, FMT);
    OfKindHead(file, at, rest, DATA);
  }

  lemma {:induction false} WalkIsValid(file: seq<byte>, at: nat, ps: seq<nat>, found: Found, result: Found)
    requires at <= |file| && Walks(file, at, ps, |file|) && OnceEach(file, ps, found, result)
    ensures ValidateFrom(file, at, found) == Some(result)
    decreases |ps|
  {
    if ps == [] {
      assert result == found;
    } else {
      var rest := ps[1..];
      assert ps == [at] + rest;
      OfKindHead(file, at, rest, FMT);
      OfKindHead(file, at, rest, DATA);
      WalkIsValid(file, PaddedEnd(file, at), rest, WithChunk(file, at, found).value, result);
    }
  }

  // The validator accepts exactly the RIFF files whose chunks fill them to the last byte, with one format and one
  // data chunk among them, of the required format and a tolerable size.
  ghost predicate Acceptable(file: seq<byte>, expectedDurationMs: int, data: PcmLayout, ps: seq<nat>) {
    && 0 < expectedDurationMs <= INT64_MAX / BYTES_PER_SECOND
    && IsRiffWave(file) && 8 + FieldAt(file, 4, 4) == |file| && Walks(file, 12, ps, |file|)
    && |OfKind(file, ps, FMT)| == 1 && IsFormat(file, OfKind(file, ps, FMT)[0], Format(1, 1, 16000, 32000, 2, 16))
    && |OfKind(file, ps, DATA)| == 1 && IsData(file, OfKind(file, ps, DATA)[0], data)
    && data.dataSize > 0 && data.dataSize % BLOCK_ALIGN == 0 && SizeFits(data.dataSize, expectedDurationMs)
  }

  lemma {:induction false} ValidatedExactly(file: seq<byte>, expectedDurationMs: int, data: PcmLayout)
    ensures ValidatedData(file, expectedDurationMs) == Some(data) <==>
      exists ps {:trigger Acceptable(file, expectedDurationMs, data, ps)} :: Acceptable(file, expectedDurationMs, data, ps)
  {
    if ValidatedData(file, expectedDurationMs) == Some(data) {
      var ps := ValidWalk(file, 12, Found(None, None));
      assert Acceptable(file, expectedDurationMs, data, ps);
    }
    if ps :| Acceptable(file, expectedDurationMs, data, ps) {
      var found := Found(Some(Format(1, 1, 16000, 32000, 2, 16)), Some(data));
      WalkIsValid(file, 12, ps, Found(None, None), found);
    }
  }

  // What a walk that lets later chunks replace earlier ones makes of the chunks ps.
  predicate LastOfEach(file: seq<byte>, ps: seq<nat>, found: Found, result: Found) {
    var formats, datas := OfKind(file, ps, FMT), OfKind(file, ps, DATA);
    && (forall at :: at in formats ==> LongFormat(file, at))
    && (if formats == [] then result.format == found.format
        else result.format.Some? && IsFormat(file, formats[|formats| - 1], result.format.value))
    && (if datas == [] then result.data == found.data
        else result.data.Some? && IsData(file, datas[|datas| - 1], result.data.value))
  }

  // The inspector stops behind the chunk that completes the pair: before it one kind was missing.
  ghost predicate Suffices(file: seq<byte>, at: nat, ps: seq<nat>, found: Found, result: Found) {
    && ps != [] && (exists end :: Walks(file, at, ps, end)) && LastOfEach(file, ps, found, result) && result.Both()
    && Misses(file, ps[..|ps| - 1], found)
  }

  lemma {:induction false} FirstChunkFits(file: seq<byte>, at: nat, ps: seq<nat>, found: Found, result: Found)
    requires at <= |file| && Suffices(file, at, ps, found, result)
    ensures at + 8 <= |file| && PaddedEnd(file, at) <= |file| && WithChunk(file, at, found).Some?
    ensures |ps| == 1 ==> WithChunk(file, at, found) == Some(result)
  {
    var rest := ps[1..];
    assert ps == [at] + rest;
    OfKindHead(file, at, rest, FMT);
    assert IsKind(file, at, FMT) ==> at in OfKind(file, ps, FMT);
    if rest == [] {
      OfKindHead(file, at, rest, DATA);
    }
  }

  lemma {:induction false} LastOfRest(file: seq<byte>, at: nat, rest: seq<nat>, found: Found, found': Found, result: Found)
    requires at + 8 <= |file| && PaddedEnd(file, at) <= |file| && WithChunk(file, at, found) == Some(found')
    ensures LastOfEach(file, [at] + rest, found, result) <==> LastOfEach(file, rest, found', result)
  {
    OfKindHead(file, at, rest, FMT);
    OfKindHead(file, at, rest, DATA);
  }

  // Before a chunk list is complete, one kind is missing.
  predicate Misses(file: seq<byte>, front: seq<nat>, found: Found) {
    || (found.format == None && OfKind(file, front, FMT) == [])
    || (found.data == None && OfKind(file, front, DATA) == [])
  }

  lemma {:induction false} MissesRest(file: seq<byte>, at: nat, front: seq<nat>, found: Found, found': Found)
    requires at + 8 <= |file| && PaddedEnd(file, at) <= |file| && WithChunk(file, at, found) == Some(found')
    ensures Misses(file, [at] + front, found) <==> Misses(file, front, found')
    ensures Misses(file, front, found') ==> !found'.Both()
  {
    OfKindHead(file, at, front, FMT);
    OfKindHead(file, at, front, DATA);
  }

  lemma {:induction false} RestSuffices(file: seq<byte>, at: nat, ps: seq<nat>, found: Found, found': Found, result: Found)
    requires at + 8 <= |file| && PaddedEnd(file, at) <= |file| && WithChunk(file, at, found) == Some(found')
    requires Suffices(file, at, ps, found, result) && |ps| > 1
    ensures Suffices(file, PaddedEnd(file, at), ps[1..], found', result) && !found'.Both()
  {
    var rest := ps[1..];
    var front := rest[..|rest| - 1];
    var end :| Walks(file, at, ps, end);
    assert Walks(file, PaddedEnd(file, at), rest, end);
    assert ps == [at] + rest && ps[..|ps| - 1] == [at] + front;
    LastOfRest(file, at, rest, found, found', result);
    MissesRest(file, at, front, found, found');
  }

  lemma {:induction false} InspectedWalk(file: seq<byte>, at: nat, found: Found) returns (ps: seq<nat>)
    requires at <= |file| && !found.Both() && InspectFrom(file, at, found).Some? && InspectFrom(file, at, found).value.Both()
    ensures Suffices(file, at, ps, found, InspectFrom(file, at, found).value)
    decreases |file| - at
  {
    var found' := WithChunk(file, at, found).value;
    if found'.Both() {
      ps := [at];
      assert Walks(file, PaddedEnd(file, at), [], PaddedEnd(file, at));
      assert Walks(file, at, ps, PaddedEnd(file, at));
      LastOfRest(file, at, [], found, found', found');
      assert [at] + [] == ps;
    } else {
      var rest := InspectedWalk(file, PaddedEnd(file, at), found');
      ps := [at] + rest;
      MoreSuffices(file, at, rest, found, found', InspectFrom(file, at, found).value);
    }
  }

  lemma {:induction false} MoreSuffices(file: seq<byte>, at: nat, rest: seq<nat>, found: Found, found': Found, result: Found)
    requires at + 8 <= |file| && PaddedEnd(file, at) <= |file| && WithChunk(file, at, found) == Some(found')
    requires Suffices(file, PaddedEnd(file, at), rest, found', result)
    ensures Suffices(file, at, [at] + rest, found, result)
  {
    var ps, front := [at] + rest, rest[..|rest| - 1];
    var end :| Walks(file, PaddedEnd(file, at), rest, end);
    assert ps[1..] == rest && ps[..|ps| - 1] == [at] + front;
    assert Walks(file, at, ps, end);
    LastOfRest(file, at, rest, found, found', result);
    MissesRest(file, at, front, found, found');
  }

  lemma {:induction false} WalkIsInspected(file: seq<byte>, at: nat, ps: seq<nat>, found: Found, result: Found)
    requires at <= |file| && !found.Both() && Suffices(file, at, ps, found, result)
    ensures InspectFrom(file, at, found) == Some(result)
    decreases |ps|
  {
    FirstChunkFits(file, at, ps, found, result);
    var found' := WithChunk(file, at, found).value;
    if |ps| > 1 {
      RestSuffices(file, at, ps, found, found', result);
      WalkIsInspected(file, PaddedEnd(file, at), ps[1..], found', result);
    }
  }

  predicate PlayableFormat(f: Format) {
    f.audioFormat == 1 && f.channels == 1 && f.sampleRate == 16000 && f.bitsPerSample == 16
  }

  ghost predicate Inspectable(file: seq<byte>, data: PcmLayout, format: Format, ps: seq<nat>) {
    && IsRiffWave(file) && Suffices(file, 12, ps, Found(None, None), Found(Some(format), Some(data)))
    && PlayableFormat(format) && data.dataSize > 0 && data.dataSize % 2 == 0
  }

  // The inspector accepts exactly the raw samples of an even length and the RIFF files with a format and a data
  // chunk among the chunks up to the one that completes the pair; the last of each kind there counts.
  lemma {:induction false} InspectedExactly(file: seq<byte>, pcmSuffix: bool, data: PcmLayout)
    ensures InspectedLayout(file, pcmSuffix) == Some(data) <==>
      || (file != [] && !IsRiffWave(file) && pcmSuffix && |file| % 2 == 0 && data == PcmLayout(0, |file|))
      || exists format, ps {:trigger Inspectable(file, data, format, ps)} :: Inspectable(file, data, format, ps)
  {
    if IsRiffWave(file) && InspectedLayout(file, pcmSuffix) == Some(data) {
      var ps := InspectedWalk(file, 12, Found(None, None));
      assert Inspectable(file, data, InspectFrom(file, 12, Found(None, None)).value.format.value, ps);
    }
    if format, ps :| Inspectable(file, data, format, ps) {
      WalkIsInspected(file, 12, ps, Found(None, None), Found(Some(format), Some(data)));
    }
  }

  // ---- Agreement.

  // A data chunk that either walker reports lies inside the file.
  lemma {:induction false} DataLiesInTheFile(file: seq<byte>, at: nat, found: Found)
    requires at <= |file|
    requires found.data.Some? ==> found.data.value.dataOffset + found.data.value.dataSize <= |file| && found.data.value.dataSize <= 0xFFFF_FFFF
    ensures
      var result := ValidateFrom(file, at, found);
      result.Some? && result.value.data.Some? ==>
        result.value.data.value.dataOffset + result.value.data.value.dataSize <= |file| && result.value.data.value.dataSize <= 0xFFFF_FFFF
    decreases |file| - at
  {
    PowersOf256();
    if at + 8 <= |file| && PaddedEnd(file, at) <= |file| {
      match WithChunk(file, at, found)
      case None =>
      case Some(found') => DataLiesInTheFile(file, PaddedEnd(file, at), found');
    }
  }

  // Once the validator has both chunks, nothing later changes them.
  lemma {:induction false} BothAreFinal(file: seq<byte>, at: nat, found: Found)
    requires at <= |file| && found.Both()
    ensures ValidateFrom(file, at, found).Some? ==> ValidateFrom(file, at, found) == Some(found)
    decreases |file| - at
  {
    if at + 8 <= |file| && PaddedEnd(file, at) <= |file| {
      if WithChunk(file, at, found) == Some(found) {
        BothAreFinal(file, PaddedEnd(file, at), found);
      }
    }
  }

  lemma {:induction false} WalkersAgree(file: seq<byte>, at: nat, found: Found)
    requires at <= |file| && !found.Both()
    requires ValidateFrom(file, at, found).Some? && ValidateFrom(file, at, found).value.Both()
    ensures InspectFrom(file, at, found) == ValidateFrom(file, at, found)
    decreases |file| - at
  {
    if at + 8 <= |file| {
      var found' := WithChunk(file, at, found).value;
      if found'.Both() {
        BothAreFinal(file, PaddedEnd(file, at), found');
      } else {
        WalkersAgree(file, PaddedEnd(file, at), found');
      }
    }
  }

  // Every file the validator accepts, the waveform generator reads at the same place, whatever its name.
  lemma {:induction false} ValidatedFilesAreInspectedAlike(file: seq<byte>, expectedDurationMs: int, pcmSuffix: bool)
    requires ValidatedData(file, expectedDurationMs).Some?
    ensures InspectedLayout(file, pcmSuffix) == ValidatedData(file, expectedDurationMs)
  {
    WalkersAgree(file, 12, Found(None, None));
  }

  // What acceptance means for the duration reported, and for every chunk endpoint derived from it: the
  // duration is within the tolerance of the expected one (one millisecond more below it, from rounding
  // down), and the sample bytes of every endpoint up to it are in the file.
  lemma {:induction false} AcceptedDurations(file: seq<byte>, expectedDurationMs: int)
    requires ValidatedData(file, expectedDurationMs).Some?
    ensures
      var data := ValidatedData(file, expectedDurationMs).value;
      var durationMs, tolerance := data.dataSize * 1000 / BYTES_PER_SECOND, DurationToleranceMs(expectedDurationMs);
      && expectedDurationMs - tolerance - 1 <= durationMs <= expectedDurationMs + tolerance
      && (forall t :: 0 <= t <= durationMs ==> BytesBefore(t) <= data.dataSize)
      && BytesBefore(durationMs + 1) > data.dataSize
      && data.dataOffset + data.dataSize <= |file|
  {
    PowersOf256();
    DataLiesInTheFile(file, 12, Found(None, None));
    var size := ValidatedData(file, expectedDurationMs).value.dataSize;
    assert ExpectedDataSize(expectedDurationMs) == 32 * expectedDurationMs;
    assert DurationToleranceMs(expectedDurationMs) * BYTES_PER_SECOND / 1000 == 32 * DurationToleranceMs(expectedDurationMs);
    assert size * 1000 / BYTES_PER_SECOND == size / 32;
  }

  // Bytes of 16 kHz mono PCM16 before millisecond t.
  function BytesBefore(t: int): int {
    t * BYTES_PER_SECOND / 1000
  }

  // ---- What a writer puts into such a file, byte by byte: a chunk of odd size is followed by one byte more.

  datatype Piece = Piece(id: seq<byte>, body: seq<byte>, pad: byte) {
    predicate Fits() {
      |id| == 4 && |body| < 0x1_0000_0000
    }

    predicate IsOther() {
      Fits() && id != FMT && id != DATA
    }

    function Written(): seq<byte> {
      id + LittleEndian(|body|, 4) + body + (if |body| % 2 == 1 then [pad] else [])
    }
  }

  function AllWritten(pieces: seq<Piece>): seq<byte> {
    if pieces == [] then [] else pieces[0].Written() + AllWritten(pieces[1..])
  }

  function FormatWritten(f: Format): seq<byte> {
    LittleEndian(f.audioFormat, 2) + LittleEndian(f.channels, 2) + LittleEndian(f.sampleRate, 4)
    + LittleEndian(f.bytesPerSecond, 4) + LittleEndian(f.blockAlign, 2) + LittleEndian(f.bitsPerSample, 2)
  }

  // A file of one format chunk and one data chunk at its end, behind any other chunks.
  function WaveFile(f: Format, others: seq<Piece>, pad: byte, pcm: seq<byte>): seq<byte> {
    var chunks := AllWritten(others) + (Piece(FMT, FormatWritten(f), pad).Written() + Piece(DATA, pcm, pad).Written());
    RIFF + LittleEndian(4 + |chunks|, 4) + WAVE + chunks
  }

  lemma {:induction false} FieldStands(file: seq<byte>, at: nat, n: nat, width: nat)
    requires Holds(file, at, LittleEndian(n, width)) && n < Power256(width)
    ensures FieldAt(file, at, width) == n
  {
    LittleEndianReadsBack(n, width);
  }

  lemma {:induction false} PieceIsAChunk(file: seq<byte>, at: nat, piece: Piece)
    requires piece.Fits() && Holds(file, at, piece.Written())
    ensures at + 8 <= |file| && file[at..at + 4] == piece.id && ChunkSize(file, at) == |piece.body|
    ensures PaddedEnd(file, at) == at + |piece.Written()| <= |file| && Holds(file, at + 8, piece.body)
  {
    var size, tail := LittleEndian(|piece.body|, 4), if |piece.body| % 2 == 1 then [piece.pad] else [];
    PowersOf256();
    HoldsSplit(file, at, piece.id + size + piece.body, tail);
    HoldsSplit(file, at, piece.id + size, piece.body);
    HoldsSplit(file, at, piece.id, size);
    FieldStands(file, at + 4, |piece.body|, 4);
  }

  predicate FormatFits(f: Format) {
    && f.audioFormat < 0x1_0000 && f.channels < 0x1_0000 && f.sampleRate < 0x1_0000_0000 && f.bytesPerSecond < 0x1_0000_0000
    && f.blockAlign < 0x1_0000 && f.bitsPerSample < 0x1_0000
  }

  lemma {:induction false} FormatReadsBack(file: seq<byte>, at: nat, f: Format)
    requires FormatFits(f) && Holds(file, at, FormatWritten(f))
    ensures FormatAt(file, at) == f
  {
    PowersOf256();
    var a, b, c, d, e, g := LittleEndian(f.audioFormat, 2), LittleEndian(f.channels, 2), LittleEndian(f.sampleRate, 4),
                            LittleEndian(f.bytesPerSecond, 4), LittleEndian(f.blockAlign, 2), LittleEndian(f.bitsPerSample, 2);
    HoldsSplit(file, at, a + b + c + d + e, g);
    HoldsSplit(file, at, a + b + c + d, e);
    HoldsSplit(file, at, a + b + c, d);
    HoldsSplit(file, at, a + b, c);
    HoldsSplit(file, at, a, b);
    FieldStands(file, at, f.audioFormat, 2);
    FieldStands(file, at + 2, f.channels, 2);
    FieldStands(file, at + 4, f.sampleRate, 4);
    FieldStands(file, at + 8, f.bytesPerSecond, 4);
    FieldStands(file, at + 12, f.blockAlign, 2);
    FieldStands(file, at + 14, f.bitsPerSample, 2);
  }

  // A walk that stands before a chunk goes on behind it.
  lemma {:induction false} PieceIsWalked(file: seq<byte>, at: nat, piece: Piece, found: Found, found': Found)
    requires piece.Fits() && Holds(file, at, piece.Written())
    requires (piece.id == FMT ==> found.format == None) && (piece.id == DATA ==> found.data == None)
    requires at + 8 + |piece.body| <= |file| && ChunkSize(file, at) == |piece.body| ==> WithChunk(file, at, found) == Some(found')
    ensures ValidateFrom(file, at, found) == ValidateFrom(file, at + |piece.Written()|, found')
  {
    PieceIsAChunk(file, at, piece);
  }

  lemma {:induction false} OtherIsSkipped(file: seq<byte>, at: nat, piece: Piece, found: Found)
    requires piece.IsOther() && Holds(file, at, piece.Written())
    ensures ValidateFrom(file, at, found) == ValidateFrom(file, at + |piece.Written()|, found)
  {
    PieceIsAChunk(file, at, piece);
    PieceIsWalked(file, at, piece, found, found);
  }

  // What a walk makes of the rest of the file.
  function WalkOf(file: seq<byte>, found: Found): nat -> Option<Found> {
    (at: nat) => if at <= |file| then ValidateFrom(file, at, found) else None
  }

  ghost predicate SkipsOthers(file: seq<byte>, walk: nat -> Option<Found>) {
    forall at: nat, piece: Piece :: piece.IsOther() && Holds(file, at, piece.Written()) ==> walk(at) == walk(at + |piece.Written()|)
  }

  lemma {:induction false} WalksSkipOthers(file: seq<byte>, found: Found)
    ensures SkipsOthers(file, WalkOf(file, found))
  {
    forall at: nat, piece: Piece | piece.IsOther() && Holds(file, at, piece.Written())
      ensures WalkOf(file, found)(at) == WalkOf(file, found)(at + |piece.Written()|)
    {
      OtherIsSkipped(file, at, piece, found);
    }
  }

  lemma {:induction false} OthersAreSkipped(file: seq<byte>, at: nat, others: seq<Piece>, walk: nat -> Option<Found>)
    requires (forall i :: 0 <= i < |others| ==> others[i].IsOther()) && Holds(file, at, AllWritten(others))
    requires SkipsOthers(file, walk)
    ensures walk(at) == walk(at + |AllWritten(others)|)
    decreases |others|
  {
    if others != [] {
      var first, rest := others[0].Written(), AllWritten(others[1..]);
      HoldsSplit(file, at, first, rest);
      assert others[0].IsOther();
      OthersAreSkipped(file, at + |first|, others[1..], walk);
    }
  }

  // The format chunk and the data chunk, one behind the other at the end of the file.
  lemma {:induction false} FormatAndData(file: seq<byte>, at: nat, f: Format, pad: byte, pcm: seq<byte>)
    requires FormatFits(f) && |pcm| < 0x1_0000_0000 && |pcm| % 2 == 0
    requires Holds(file, at, Piece(FMT, FormatWritten(f), pad).Written() + Piece(DATA, pcm, pad).Written())
    requires |file| == at + 32 + |pcm|
    ensures ValidateFrom(file, at, Found(None, None)) == Some(Found(Some(f), Some(PcmLayout(at + 32, |pcm|))))
    ensures Holds(file, at + 32, pcm)
  {
    var first, second := Piece(FMT, FormatWritten(f), pad), Piece(DATA, pcm, pad);
    var format, both := Found(Some(f), None), Found(Some(f), Some(PcmLayout(at + 32, |pcm|)));
    HoldsSplit(file, at, first.Written(), second.Written());
    PieceIsAChunk(file, at, first);
    FormatReadsBack(file, at + 8, f);
    PieceIsWalked(file, at, first, Found(None, None), format);
    PieceIsAChunk(file, at + 24, second);
    PieceIsWalked(file, at + 24, second, format, both);
  }

  // Sixteen bits, one channel and 16000 samples a second: whatever stands in front of them, the samples of a written
  // file are found where they are.
  lemma {:induction false} WrittenFilesAreAccepted(f: Format, others: seq<Piece>, pad: byte, pcm: seq<byte>, expectedDurationMs: int)
    requires f == Format(1, 1, 16000, 32000, 2, 16) && forall i :: 0 <= i < |others| ==> others[i].IsOther()
    requires pcm != [] && |pcm| % 2 == 0 && |WaveFile(f, others, pad, pcm)| < 8 + 0x1_0000_0000
    requires 0 < expectedDurationMs <= INT64_MAX / BYTES_PER_SECOND && SizeFits(|pcm|, expectedDurationMs)
    ensures
      var file := WaveFile(f, others, pad, pcm);
      ValidatedData(file, expectedDurationMs) == Some(PcmLayout(|file| - |pcm|, |pcm|)) && Holds(file, |file| - |pcm|, pcm)
  {
    var file := WaveFile(f, others, pad, pcm);
    WrittenChunksStand(file, f, others, pad, pcm);
    WalksSkipOthers(file, Found(None, None));
    OthersAreSkipped(file, 12, others, WalkOf(file, Found(None, None)));
    FormatAndData(file, 12 + |AllWritten(others)|, f, pad, pcm);
  }

  lemma {:induction false} WrittenChunksStand(file: seq<byte>, f: Format, others: seq<Piece>, pad: byte, pcm: seq<byte>)
    requires |pcm| % 2 == 0 && file == WaveFile(f, others, pad, pcm) && |file| < 8 + 0x1_0000_0000
    ensures IsRiffWave(file) && 8 + FieldAt(file, 4, 4) == |file| == 12 + |AllWritten(others)| + 32 + |pcm|
    ensures Holds(file, 12, AllWritten(others))
    ensures Holds(file, 12 + |AllWritten(others)|, Piece(FMT, FormatWritten(f), pad).Written() + Piece(DATA, pcm, pad).Written())
  {
    var front, back := AllWritten(others), Piece(FMT, FormatWritten(f), pad).Written() + Piece(DATA, pcm, pad).Written();
    HeaderStands(file, front + back);
    HoldsSplit(file, 12, front, back);
  }

  lemma {:induction false} HeaderStands(file: seq<byte>, chunks: seq<byte>)
    requires file == RIFF + LittleEndian(4 + |chunks|, 4) + WAVE + chunks && 4 + |chunks| < 0x1_0000_0000
    ensures IsRiffWave(file) && 8 + FieldAt(file, 4, 4) == |file| && Holds(file, 12, chunks)
  {
    PowersOf256();
    assert Holds(file, 4, LittleEndian(4 + |chunks|, 4));
    FieldStands(file, 4, 4 + |chunks|, 4);
  }
}
