// Chunk plans and their two validators: decodeWorkerChunkPlan in src/app/TranscriptionCoordinator.cpp
// and validateDurableChunkGeometry in src/cli/CliTranscriptionPersistence.cpp.

module ChunkPlan {
  import opened Outcomes

  const MAXIMUM_WORKER_CHUNKS: nat := 4096

  datatype ChunkState = Pending | Running | Completed | Failed | Interrupted | Cancelled

  // The states that a cancellation of the job turns into Cancelled.
  predicate NeedsCancelling(state: ChunkState) {
    state == ChunkState.Running || state == ChunkState.Interrupted || state == ChunkState.Failed
  }

  datatype Chunk = Chunk(ordinal: int, startMs: int, endMs: int, overlapBeforeMs: int, overlapAfterMs: int) {
    function Length(): int {
      endMs - startMs
    }

    predicate Holds(t: int) {
      startMs <= t < endMs
    }
  }

  // A plan as the worker sends it: integers that may be missing or of another CBOR type.
  datatype EncodedChunk =
    | NotAMap
    | Map(ordinal: Option<int>, startMs: Option<int>, endMs: Option<int>,
          overlapBeforeMs: Option<int>, overlapAfterMs: Option<int>)

  datatype EncodedPlan = EncodedPlan(durationMs: Option<int>, chunks: Option<seq<EncodedChunk>>)

  predicate WellTyped(plan: EncodedPlan) {
    && plan.durationMs.Some? && plan.chunks.Some?
    && forall i :: 0 <= i < |plan.chunks.value| ==> WellTypedChunk(plan.chunks.value[i])
  }

  predicate WellTypedChunk(c: EncodedChunk) {
    c.Map? && c.ordinal.Some? && c.startMs.Some? && c.endMs.Some? && c.overlapBeforeMs.Some? && c.overlapAfterMs.Some?
  }

  function Typed(c: EncodedChunk): Chunk
    requires WellTypedChunk(c)
  {
    Chunk(c.ordinal.value, c.startMs.value, c.endMs.value, c.overlapBeforeMs.value, c.overlapAfterMs.value)
  }

  function TypedChunks(chunks: seq<EncodedChunk>): (r: seq<Chunk>)
    requires forall i :: 0 <= i < |chunks| ==> WellTypedChunk(chunks[i])
  {
    seq(|chunks|, i requires 0 <= i < |chunks| => Typed(chunks[i]))
  }

  predicate ValidChunk(c: Chunk, index: nat) {
    && c.ordinal == index
    && 0 <= c.startMs < c.endMs
    && 0 <= c.overlapBeforeMs < c.Length()
    && 0 <= c.overlapAfterMs < c.Length()
  }

  predicate Continues(plan: seq<Chunk>, index: nat)
    requires index < |plan|
  {
    if index == 0 then
      plan[0].startMs == 0 && plan[0].overlapBeforeMs == 0
    else
      plan[index].overlapBeforeMs == plan[index - 1].overlapAfterMs &&
      plan[index].startMs == plan[index - 1].endMs - plan[index].overlapBeforeMs
  }

  predicate SoundAt(plan: seq<Chunk>, index: nat)
    requires index < |plan|
  {
    ValidChunk(plan[index], index) && Continues(plan, index)
  }

  predicate GeometryUpTo(plan: seq<Chunk>, n: nat)
    requires n <= |plan|
  {
    forall i {:trigger SoundAt(plan, i)} :: 0 <= i < n ==> SoundAt(plan, i)
  }

  predicate DurableGeometry(plan: seq<Chunk>) {
    plan != [] && GeometryUpTo(plan, |plan|) && plan[|plan| - 1].overlapAfterMs == 0
  }

  // src/cli: validateDurableChunkGeometry
  method ValidateDurableChunkGeometry(chunks: seq<Chunk>) returns (ok: bool)
    ensures ok <==> DurableGeometry(chunks)
  {
    if chunks == [] {
      return false;
    }
    var previousEndMs := 0;
    var previousOverlapAfterMs := 0;
    for index := 0 to |chunks|
      invariant GeometryUpTo(chunks, index)
      invariant index > 0 ==> previousEndMs == chunks[index - 1].endMs && previousOverlapAfterMs == chunks[index - 1].overlapAfterMs
    {
      var chunk := chunks[index];
      if chunk.ordinal != index || chunk.startMs < 0 || chunk.endMs <= chunk.startMs {
        assert !SoundAt(chunks, index);
        return false;
      }
      var lengthMs := chunk.endMs - chunk.startMs;
      if chunk.overlapBeforeMs < 0 || chunk.overlapAfterMs < 0 || chunk.overlapBeforeMs >= lengthMs || chunk.overlapAfterMs >= lengthMs {
        assert !SoundAt(chunks, index);
        return false;
      }
      var continuous :=
        if index == 0 then chunk.startMs == 0 && chunk.overlapBeforeMs == 0
        else chunk.overlapBeforeMs == previousOverlapAfterMs && chunk.startMs == previousEndMs - chunk.overlapBeforeMs;
      if !continuous {
        assert !SoundAt(chunks, index);
        return false;
      }
      previousEndMs := chunk.endMs;
      previousOverlapAfterMs := chunk.overlapAfterMs;
    }
    return chunks[|chunks| - 1].overlapAfterMs == 0;
  }

  // What decodeWorkerChunkPlan accepts, in terms of the other validator.
  predicate AcceptableWorkerPlan(plan: EncodedPlan) {
    && WellTyped(plan)
    && plan.durationMs.value > 0
    && 1 <= |plan.chunks.value| <= MAXIMUM_WORKER_CHUNKS
    && var chunks := TypedChunks(plan.chunks.value);
       DurableGeometry(chunks) && chunks[|chunks| - 1].endMs == plan.durationMs.value
  }

  // How the worker sends a plan.
  function Encoded(chunks: seq<Chunk>): seq<EncodedChunk> {
    seq(|chunks|, i requires 0 <= i < |chunks| =>
      Map(Some(chunks[i].ordinal), Some(chunks[i].startMs), Some(chunks[i].endMs),
          Some(chunks[i].overlapBeforeMs), Some(chunks[i].overlapAfterMs)))
  }

  // Every durable plan of a bounded number of chunks is accepted as it was sent, with its own end as the duration.
  lemma {:induction false} SentPlansAreAccepted(chunks: seq<Chunk>)
    requires DurableGeometry(chunks) && |chunks| <= MAXIMUM_WORKER_CHUNKS
    ensures
      var payload := EncodedPlan(Some(chunks[|chunks| - 1].endMs), Some(Encoded(chunks)));
      AcceptableWorkerPlan(payload) && TypedChunks(payload.chunks.value) == chunks
  {
    var payload := EncodedPlan(Some(chunks[|chunks| - 1].endMs), Some(Encoded(chunks)));
    assert WellTyped(payload);
    assert TypedChunks(payload.chunks.value) == chunks;
    assert SoundAt(chunks, |chunks| - 1);
  }

  // src/app: decodeWorkerChunkPlan. It checks every chunk's end against the duration and the end of the
  // last chunk once more; the durable validator never sees the duration.
  method DecodeWorkerChunkPlan(payload: EncodedPlan) returns (accepted: bool, durationMs: int, chunks: seq<Chunk>)
    ensures accepted <==> AcceptableWorkerPlan(payload)
    ensures accepted ==> chunks == TypedChunks(payload.chunks.value) && durationMs == payload.durationMs.value
  {
    accepted, durationMs, chunks := false, 0, [];
    if payload.durationMs.None? || payload.chunks.None? {
      return;
    }
    durationMs := payload.durationMs.value;
    var encoded := payload.chunks.value;
    if durationMs <= 0 || encoded == [] || |encoded| > MAXIMUM_WORKER_CHUNKS {
      return;
    }
    var previousEnd := 0;
    var previousOverlapAfter := 0;
    for index := 0 to |encoded|
      invariant forall i :: 0 <= i < index ==> WellTypedChunk(encoded[i])
      invariant |chunks| == index && forall i :: 0 <= i < index ==> chunks[i] == Typed(encoded[i])
      invariant GeometryUpTo(chunks, index)
      invariant index > 0 ==> previousEnd == chunks[index - 1].endMs && previousOverlapAfter == chunks[index - 1].overlapAfterMs
    {
      if AcceptableWorkerPlan(payload) {
        AcceptedAt(payload, index);
      }
      var item := encoded[index];
      if !item.Map? || item.ordinal.None? || item.startMs.None? || item.endMs.None? || item.overlapBeforeMs.None? ||
         item.overlapAfterMs.None?
      {
        assert !WellTypedChunk(encoded[index]);
        return;
      }
      var c := Typed(item);
      if c.ordinal != index || c.startMs < 0 || c.endMs <= c.startMs || c.endMs > durationMs ||
         c.overlapBeforeMs < 0 || c.overlapAfterMs < 0 || c.overlapBeforeMs >= c.endMs - c.startMs ||
         c.overlapAfterMs >= c.endMs - c.startMs
      {
        return;
      }
      if (index == 0 && (c.startMs != 0 || c.overlapBeforeMs != 0)) ||
         (index > 0 && (c.overlapBeforeMs != previousOverlapAfter || c.startMs != previousEnd - c.overlapBeforeMs))
      {
        return;
      }
      ghost var before := chunks;
      chunks := chunks + [c];
      PrefixStaysSound(before, [c]);
      assert SoundAt(chunks, index);
      previousEnd := c.endMs;
      previousOverlapAfter := c.overlapAfterMs;
    }
    assert chunks == TypedChunks(encoded);
    if chunks[|chunks| - 1].endMs != durationMs || chunks[|chunks| - 1].overlapAfterMs != 0 {
      return;
    }
    accepted := true;
  }

  lemma {:induction false} PrefixStaysSound(prefix: seq<Chunk>, more: seq<Chunk>)
    requires GeometryUpTo(prefix, |prefix|)
    ensures GeometryUpTo(prefix + more, |prefix|)
  {
    forall i | 0 <= i < |prefix| ensures SoundAt(prefix + more, i) {
      assert SoundAt(prefix, i);
    }
  }

  lemma {:induction false} AcceptedAt(plan: EncodedPlan, index: nat)
    requires AcceptableWorkerPlan(plan) && index < |plan.chunks.value|
    ensures
      var encoded := plan.chunks.value;
      var c := Typed(encoded[index]);
      && ValidChunk(c, index)
      && c.endMs <= plan.durationMs.value
      && (if index == 0 then c.startMs == 0 && c.overlapBeforeMs == 0
          else var p := Typed(encoded[index - 1]);
               c.overlapBeforeMs == p.overlapAfterMs && c.startMs == p.endMs - c.overlapBeforeMs)
      && (index == |encoded| - 1 ==> c.endMs == plan.durationMs.value && c.overlapAfterMs == 0)
  {
    var typed := TypedChunks(plan.chunks.value);
    assert SoundAt(typed, index);
    EndsStayWithinTheLast(typed, index);
  }

  // Starts and ends both strictly increase from one chunk to any later one.
  lemma {:induction false} StartsAndEndsIncrease(plan: seq<Chunk>, i: nat, j: nat)
    requires GeometryUpTo(plan, |plan|) && i < j < |plan|
    ensures plan[i].startMs < plan[j].startMs && plan[i].endMs < plan[j].endMs
    decreases j - i
  {
    assert SoundAt(plan, j - 1) && SoundAt(plan, j);
    if i < j - 1 {
      StartsAndEndsIncrease(plan, i, j - 1);
    }
  }

  lemma {:induction false} EndsStayWithinTheLast(plan: seq<Chunk>, i: nat)
    requires DurableGeometry(plan) && i < |plan|
    ensures plan[i].endMs <= plan[|plan| - 1].endMs
    ensures ValidChunk(plan[i], i)
  {
    assert SoundAt(plan, i);
    if i < |plan| - 1 {
      StartsAndEndsIncrease(plan, i, |plan| - 1);
    }
  }

  // Every millisecond before the end of the last chunk lies in a chunk.
  lemma {:induction false} EveryMillisecondIsPlanned(plan: seq<Chunk>, n: nat, t: int)
    requires n < |plan| && GeometryUpTo(plan, |plan|)
    requires 0 <= t < plan[n].endMs
    ensures exists i :: 0 <= i <= n && plan[i].Holds(t)
  {
    assert SoundAt(plan, n);
    if !plan[n].Holds(t) {
      EveryMillisecondIsPlanned(plan, n - 1, t);
    }
  }

  predicate Planned(plan: seq<Chunk>, t: int) {
    exists i :: 0 <= i < |plan| && plan[i].Holds(t)
  }

  function TotalLength(plan: seq<Chunk>): int {
    if plan == [] then 0 else TotalLength(plan[..|plan| - 1]) + plan[|plan| - 1].Length()
  }

  function TotalOverlapBefore(plan: seq<Chunk>): int {
    if plan == [] then 0 else TotalOverlapBefore(plan[..|plan| - 1]) + plan[|plan| - 1].overlapBeforeMs
  }

  // Audio is transcribed twice in the overlaps and nowhere else.
  lemma {:induction false} LengthsMinusOverlaps(plan: seq<Chunk>)
    requires plan != [] && GeometryUpTo(plan, |plan|)
    ensures TotalLength(plan) - TotalOverlapBefore(plan) == plan[|plan| - 1].endMs
  {
    var last := |plan| - 1;
    assert SoundAt(plan, last);
    if last > 0 {
      forall i | 0 <= i < last ensures SoundAt(plan[..last], i) {
        assert SoundAt(plan, i);
      }
      LengthsMinusOverlaps(plan[..last]);
    } else {
      assert plan[..0] == [];
    }
  }

  // What both validators guarantee of a plan they let through.
  lemma {:induction false} AcceptedPlanCoversTheAudio(plan: EncodedPlan)
    requires AcceptableWorkerPlan(plan)
    ensures
      var chunks, duration := TypedChunks(plan.chunks.value), plan.durationMs.value;
      && (forall i, j :: 0 <= i < j < |chunks| ==> chunks[i].startMs < chunks[j].startMs && chunks[i].endMs < chunks[j].endMs)
      && (forall t :: 0 <= t < duration ==> Planned(chunks, t))
      && (forall i :: 0 <= i < |chunks| ==> chunks[i].endMs <= duration)
      && TotalLength(chunks) - TotalOverlapBefore(chunks) == duration
  {
    var chunks, duration := TypedChunks(plan.chunks.value), plan.durationMs.value;
    forall i, j | 0 <= i < j < |chunks|
      ensures chunks[i].startMs < chunks[j].startMs && chunks[i].endMs < chunks[j].endMs
    {
      StartsAndEndsIncrease(chunks, i, j);
    }
    forall t | 0 <= t < duration ensures Planned(chunks, t) {
      EveryMillisecondIsPlanned(chunks, |chunks| - 1, t);
    }
    forall i | 0 <= i < |chunks| ensures chunks[i].endMs <= duration {
      EndsStayWithinTheLast(chunks, i);
    }
    LengthsMinusOverlaps(chunks);
  }
}
