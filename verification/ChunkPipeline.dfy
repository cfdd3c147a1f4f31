// The chunks of one transcription job in a desktop process, from plan to completion:
// src/app/TranscriptionCoordinator.cpp. A method is one step that ends with at most one repository transaction, so
// that steps of different processes interleave everywhere the source's can.

module ChunkPipeline {
  import opened Outcomes
  import opened ChunkPlan
  import opened Jobs
  import L = LongFormChunkPlanner

  // Where the coordinator is with its job. BetweenChunks is the state in which startNextChunk is called.
  datatype Phase =
    Idle | Claimed | Replanning | AwaitingSpeechAnalysis | AwaitingModel | BetweenChunks | ChunkRunning | Completing | Ending

  datatype Session = Session(process: nat, token: Token, phase: Phase, chunks: seq<JobChunk>, index: int, durationMs: int)

  // While the lease is held, the chunks in memory are the durable ones, and a chunk is completed in memory exactly
  // if it is completed in the database.
  predicate Mirrors(chunks: seq<JobChunk>, plan: seq<JobChunk>) {
    |chunks| == |plan| && forall k {:trigger MirrorsAt(chunks, plan, k)} :: 0 <= k < |chunks| ==> MirrorsAt(chunks, plan, k)
  }

  predicate MirrorsAt(chunks: seq<JobChunk>, plan: seq<JobChunk>, k: nat)
    requires k < |chunks| == |plan|
  {
    && chunks[k].id == plan[k].id && chunks[k].shape == plan[k].shape
    && (chunks[k].state == ChunkState.Completed <==> plan[k].state == ChunkState.Completed)
  }

  predicate Started(chunks: seq<JobChunk>) {
    exists k :: 0 <= k < |chunks| && (chunks[k].state != Pending || chunks[k].attempts > 0)
  }

  predicate CoversAudio(s: Session) {
    s.chunks != [] && PlanSound(s.chunks) && s.durationMs > 0 && EndMs(s.chunks) >= s.durationMs
  }

  predicate BeforeChunks(phase: Phase) {
    match phase
    case Claimed | Replanning | AwaitingSpeechAnalysis | AwaitingModel => true
    case _ => false
  }

  predicate HasPlan(phase: Phase) {
    match phase
    case AwaitingModel | BetweenChunks | ChunkRunning | Completing => true
    case _ => false
  }

  // What a session knows while it holds the lease.
  predicate HoldsWell(s: Session, d: Durable) {
    && (HasPlan(s.phase) || s.index >= 0 ==> Mirrors(s.chunks, d.plan))
    && (s.phase == Replanning || s.phase == AwaitingSpeechAnalysis ==> NoneCompleted(d.plan))
    && (s.durationMs > 0 ==> d.recordingMs == s.durationMs)
  }

  predicate SessionSound(s: Session, d: Durable) {
    && -1 <= s.index && (s.index < |s.chunks| || s.index == -1)
    && (s.token.Token? ==> s.token.process == s.process)
    && (s.token == NoToken <==> s.phase == Idle)
    && (BeforeChunks(s.phase) || s.phase == Idle ==> s.index == -1)
    && (HasPlan(s.phase) ==> CoversAudio(s))
    && (s.durationMs > 0 ==> LeastAtMost(d.leastMs, s.durationMs))
    && (s.token.Token? && d.owner == s.token ==> HoldsWell(s, d))
    && (s.phase == BetweenChunks ==> CompletedUpTo(s.chunks, s.index + 1))
    && (s.phase == ChunkRunning ==> s.index >= 0 && CompletedUpTo(s.chunks, s.index))
    && (s.phase == Completing ==> CompletedUpTo(s.chunks, |s.chunks|))
  }

  // A step of another process leaves a session sound.
  lemma {:induction false} OthersKeepSessions(s: Session, before: Durable, after: Durable, process: nat, current: bool,
                                              completes: bool, measured: Option<int>)
    requires SessionSound(s, before) && s.process != process
    requires Allowed(before, after, process, current, completes, measured)
    ensures SessionSound(s, after)
  {
  }

  lemma {:induction false} UpdateMirrors(chunks: seq<JobChunk>, plan: seq<JobChunk>, index: nat, chunk: JobChunk)
    requires Mirrors(chunks, plan) && Identified(plan) && index < |chunks|
    requires chunk.id == chunks[index].id && chunk.shape == chunks[index].shape
    ensures chunk.id.ordinal == index && Mirrors(chunks[index := chunk], Updated(plan, chunk))
  {
    assert IdentifiedAt(plan, index) && MirrorsAt(chunks, plan, index);
    var restated, updated := chunks[index := chunk], Updated(plan, chunk);
    forall k | 0 <= k < |chunks| ensures MirrorsAt(restated, updated, k) {
      assert MirrorsAt(chunks, plan, k);
    }
  }

  lemma {:induction false} EarlierStayCompleted(chunks: seq<JobChunk>, index: nat, chunk: JobChunk)
    requires index < |chunks| && CompletedUpTo(chunks, index)
    ensures CompletedUpTo(chunks[index := chunk], index)
    ensures chunk.state == ChunkState.Completed ==> CompletedUpTo(chunks[index := chunk], index + 1)
  {
    var restated := chunks[index := chunk];
    forall k | 0 <= k < index ensures CompletedAt(restated, k) {
      assert CompletedAt(chunks, k);
    }
  }

  // A change to a chunk that is not completed, in memory alone or in the database too.
  lemma {:induction false} EndsTheOne(plan: seq<JobChunk>, chunk: JobChunk, index: nat)
    requires chunk.id.ordinal == index < |plan| && plan[index].id == chunk.id
    ensures EndedAt(plan, Updated(plan, chunk), index, chunk.state)
  {
  }

  lemma {:induction false} OpenInBoth(chunks: seq<JobChunk>, plan: seq<JobChunk>, index: nat, chunk: JobChunk)
    requires Mirrors(chunks, plan) && Identified(plan) && index < |chunks|
    requires chunk.id == chunks[index].id && chunk.shape == chunks[index].shape
    requires chunk.state != ChunkState.Completed && chunks[index].state != ChunkState.Completed
    ensures chunk.id.ordinal == index < |plan| && plan[index].id == chunk.id && !Overwrites(plan, chunk)
    ensures Mirrors(chunks[index := chunk], plan) && Mirrors(chunks[index := chunk], Updated(plan, chunk))
  {
    UpdateMirrors(chunks, plan, index, chunk);
    assert MirrorsAt(chunks, plan, index);
    var more := chunks[index := chunk];
    forall k | 0 <= k < |more| ensures MirrorsAt(more, plan, k) {
      assert MirrorsAt(chunks, plan, k);
    }
  }

  // What is completed in memory is completed in the database.
  lemma {:induction false} CompletedDurably(chunks: seq<JobChunk>, plan: seq<JobChunk>, n: nat)
    requires Mirrors(chunks, plan) && CompletedUpTo(chunks, n)
    ensures CompletedUpTo(plan, n)
    ensures plan != [] ==> plan[|plan| - 1].shape == chunks[|plan| - 1].shape
  {
    forall k | 0 <= k < n ensures CompletedAt(plan, k) {
      assert CompletedAt(chunks, k) && MirrorsAt(chunks, plan, k);
    }
    if plan != [] {
      assert MirrorsAt(chunks, plan, |plan| - 1);
    }
  }

  // The same change to a chunk in memory and in the database.
  lemma {:induction false} ChunkInBoth(s: Session, plan: seq<JobChunk>, index: nat, chunk: JobChunk)
    requires CoversAudio(s) && index < |s.chunks| && Identified(plan)
    requires chunk.id == s.chunks[index].id && chunk.shape == s.chunks[index].shape
    ensures CoversAudio(s.(chunks := s.chunks[index := chunk]))
    ensures Mirrors(s.chunks, plan) ==> chunk.id.ordinal == index && Mirrors(s.chunks[index := chunk], Updated(plan, chunk))
  {
    SamePlanIsSound(s.chunks, s.chunks[index := chunk], []);
    if Mirrors(s.chunks, plan) {
      UpdateMirrors(s.chunks, plan, index, chunk);
    }
  }

  // The step from a running chunk to the next one.
  lemma {:induction false} CompletedInBoth(s: Session, d: Durable, chunk: JobChunk)
    requires Sound(d) && SessionSound(s, d) && s.phase == ChunkRunning && d.owner == s.token
    requires chunk.id == s.chunks[s.index].id && chunk.shape == s.chunks[s.index].shape && chunk.state == ChunkState.Completed
    ensures chunk.id.ordinal == s.index < |d.plan| && Reaches(d.plan, d.leastMs)
    ensures SessionSound(s.(chunks := s.chunks[s.index := chunk], phase := BetweenChunks), d.(plan := Updated(d.plan, chunk)))
    ensures CompletedUpTo(Updated(d.plan, chunk), s.index + 1)
  {
    EarlierStayCompleted(s.chunks, s.index, chunk);
    ChunkInBoth(s, d.plan, s.index, chunk);
    CompletedDurably(s.chunks[s.index := chunk], Updated(d.plan, chunk), s.index + 1);
    assert MirrorsAt(s.chunks, d.plan, |d.plan| - 1);
  }

  // The job may be completed once its last chunk is.
  lemma {:induction false} CompletionIsSound(s: Session, d: Durable)
    requires Sound(d) && SessionSound(s, d) && s.phase == Completing && d.owner == s.token
    ensures Sound(d.(state := JobState.Completed, owner := NoToken))
    ensures d.recordingMs == s.durationMs && EndMs(d.plan) >= s.durationMs
  {
    CompletedDurably(s.chunks, d.plan, |s.chunks|);
  }

  // A plan as it was saved.
  lemma {:induction false} SavedPlanIsSound(s: Session, d: Durable, made: seq<JobChunk>, planned: seq<Chunk>)
    requires Sound(d) && SessionSound(s, d) && d.owner == s.token && s.durationMs > 0
    requires s.phase == Replanning || s.phase == AwaitingSpeechAnalysis
    requires DurableGeometry(planned) && planned[|planned| - 1].endMs == s.durationMs && made == MakeJobChunks(|d.plans|, planned)
    ensures Sound(Replaced(d, made, planned)) && Shapes(made) == planned
    ensures SessionSound(s.(chunks := made, phase := AwaitingModel), Replaced(d, made, planned))
    ensures Keeps(d.plan, made) && Keeps(made, d.plan)
  {
    ReplacedIsSound(d, made, planned);
    forall k | 0 <= k < |made| ensures MirrorsAt(made, made, k) {
    }
  }

  const SHORT_AUDIO_THRESHOLD_MS: int := L.DEFAULT_CONFIGURATION.shortAudioThresholdMs

  datatype GuiAction =
    | Begin(vadEnabled: bool)
    | Persist(normalizedMs: int)
    | Prepare
    | PlanSilently
    | SpeechPlan(payload: EncodedPlan)
    | AdvanceTo(to: JobState)
    | StartNext
    | Finalize(segmentsSaved: bool, progressed: bool)
    | CompleteJob
    | CheckpointChunk(chunkState: ChunkState)
    | CheckpointJob(jobState: JobState, retry: bool)
    | Lose

  class Coordinator {
    const repository: JobRepository
    const process: nat
    var token: Token
    var nextSerial: nat
    var phase: Phase
    var chunks: seq<JobChunk>
    var currentChunkIndex: int
    var durationMs: int
    var vadEnabled: bool

    ghost function Seen(): Session
      reads this
    {
      Session(process, token, phase, chunks, currentChunkIndex, durationMs)
    }

    ghost predicate Valid()
      reads this, repository
    {
      Sound(repository.View()) && SessionSound(Seen(), repository.View())
    }

    constructor (repository: JobRepository, process: nat)
      ensures this.repository == repository && this.process == process && phase == Idle && token == NoToken
      ensures SessionSound(Seen(), repository.View())
    {
      this.repository, this.process := repository, process;
      token, nextSerial, phase := NoToken, 0, Idle;
      chunks, currentChunkIndex, durationMs, vadEnabled := [], -1, 0, false;
    }

    // scheduleNext: claim the job with a new token, if it is one of the desktop's queue.
    method BeginJob(vadEnabled: bool, available: bool)
      requires Valid()
      modifies this, repository
      ensures Valid() && Respects(old(repository.View()), repository.View(), process, true, false)
      ensures old(phase) == Idle && phase == Claimed ==>
        && repository.origin == Desktop && old(repository.owner) == NoToken && repository.owner == token && token.process == process
        && repository.plan == old(repository.plan) && chunks == [] && durationMs == 0 && this.vadEnabled == vadEnabled
      ensures phase == old(phase) ==> repository.View() == old(repository.View()) && token == old(token)
      ensures old(phase) == Idle && available && repository.origin == Desktop && old(repository.state) == Queued
              && old(repository.owner) == NoToken ==>
        phase == Claimed && repository.View() == old(repository.View()).(state := Preparing, owner := token, started := true)
    {
      if phase != Idle || repository.origin != Desktop {
        return;
      }
      var candidateOwnerToken := Token(process, nextSerial);
      nextSerial := nextSerial + 1;
      var claimed := repository.Claim(candidateOwnerToken, available);
      if claimed {
        token, phase := candidateOwnerToken, Claimed;
        this.vadEnabled := vadEnabled;
        chunks, currentChunkIndex, durationMs := [], -1, 0;
      }
    }

    // persistNormalizedDuration
    method PersistDuration(normalizedMs: int, available: bool)
      requires Valid()
      modifies this, repository
      ensures Valid()
      ensures Allowed(old(repository.View()), repository.View(), process, true, false, Measured(normalizedMs, available))
      ensures old(phase) == Claimed && normalizedMs > 0 && available && old(repository.Fenced(token)) ==>
        && phase == Claimed && durationMs == normalizedMs && unchanged(`token, `chunks, `currentChunkIndex)
        && repository.View() == Recorded(old(repository.View()), normalizedMs)
    {
      if phase != Claimed {
        return;
      }
      if normalizedMs <= 0 {
        phase := Ending;
        return;
      }
      var saved := repository.UpdateRecording(normalizedMs, token, available);
      if saved {
        durationMs := normalizedMs;
      } else {
        phase := Ending;
      }
    }

    method PrepareChunks(available: bool)
      requires Valid()
      modifies `phase, `chunks
      ensures Valid()
      ensures old(phase) == Claimed && phase == AwaitingModel ==> chunks == repository.plan && EndMs(chunks) >= durationMs
      ensures old(phase) == Claimed && durationMs > 0 && available && repository.plan == [] ==>
        phase == if !vadEnabled || durationMs <= SHORT_AUDIO_THRESHOLD_MS then Replanning else AwaitingSpeechAnalysis
      ensures old(phase) == Claimed && durationMs > 0 && available && repository.plan != [] ==>
        && (phase == Ending <==> Started(repository.plan) && EndMs(repository.plan) < durationMs)
        && (phase == Replanning <==> !Started(repository.plan) && EndMs(repository.plan) != durationMs)
        && (phase == AwaitingModel <==>
            EndMs(repository.plan) == durationMs || (Started(repository.plan) && EndMs(repository.plan) > durationMs))
    {
      if phase != Claimed {
        return;
      }
      if durationMs <= 0 || !available {
        phase := Ending;
        return;
      }
      if repository.plan != [] {
        TakeDurablePlan();
        return;
      }
      chunks := [];
      phase := if !vadEnabled || durationMs <= SHORT_AUDIO_THRESHOLD_MS then Replanning else AwaitingSpeechAnalysis;
    }

    method TakeDurablePlan()
      requires Valid() && phase == Claimed && durationMs > 0 && repository.plan != []
      modifies `phase, `chunks
      ensures Valid() && chunks == repository.plan
      ensures phase == Ending <==> Started(chunks) && EndMs(chunks) < durationMs
      ensures phase == Replanning <==> !Started(chunks) && EndMs(chunks) != durationMs
      ensures phase == AwaitingModel <==> EndMs(chunks) == durationMs || (Started(chunks) && EndMs(chunks) > durationMs)
    {
      chunks := repository.plan;
      phase := JudgePlan(chunks, durationMs);
      FoundPlanIsSound(old(Seen()), repository.View(), phase);
    }

    static lemma {:induction false} FoundPlanIsSound(s: Session, d: Durable, phase: Phase)
      requires Sound(d) && SessionSound(s, d) && s.phase == Claimed && d.plan != [] && s.durationMs > 0
      requires
        || phase == Ending
        || (phase == Replanning && !Started(d.plan))
        || (phase == AwaitingModel && EndMs(d.plan) >= s.durationMs)
      ensures SessionSound(s.(chunks := d.plan, phase := phase), d)
    {
      assert forall k :: 0 <= k < |d.plan| ==> MirrorsAt(d.plan, d.plan, k);
    }

    static method JudgePlan(chunks: seq<JobChunk>, durationMs: int) returns (phase: Phase)
      requires chunks != []
      ensures phase == Ending <==> Started(chunks) && EndMs(chunks) < durationMs
      ensures phase == Replanning <==> !Started(chunks) && EndMs(chunks) != durationMs
      ensures phase == AwaitingModel <==> EndMs(chunks) == durationMs || (Started(chunks) && EndMs(chunks) > durationMs)
    {
      var planHasStarted := PlanHasStarted(chunks);
      var endMs := chunks[|chunks| - 1].shape.endMs;
      if planHasStarted && endMs < durationMs {
        return Ending;
      }
      return if !planHasStarted && endMs != durationMs then Replanning else AwaitingModel;
    }

    static method PlanHasStarted(chunks: seq<JobChunk>) returns (started: bool)
      ensures started <==> Started(chunks)
    {
      for k := 0 to |chunks|
        invariant forall j :: 0 <= j < k ==> chunks[j].state == Pending && chunks[j].attempts == 0
      {
        if chunks[k].state != Pending || chunks[k].attempts > 0 {
          return true;
        }
      }
      started := false;
    }

    method SaveChunkPlan(planned: seq<Chunk>, available: bool) returns (saved: bool)
      requires Valid() && (phase == Replanning || phase == AwaitingSpeechAnalysis) && durationMs > 0
      requires DurableGeometry(planned) && planned[|planned| - 1].endMs == durationMs
      modifies this, repository
      ensures Valid() && Respects(old(repository.View()), repository.View(), process, true, false)
      ensures saved ==> phase == AwaitingModel && Shapes(chunks) == planned && repository.plan == chunks && !Started(chunks)
      ensures !saved ==> phase == Ending && repository.View() == old(repository.View())
      ensures saved <==> available && old(repository.Fenced(token))
      ensures durationMs == old(durationMs)
      ensures saved ==> repository.View() == Replaced(old(repository.View()), chunks, planned) && token == old(token)
    {
      var made;
      RangedPlan(planned);
      saved, made := repository.ReplaceChunks(planned, token, available);
      if saved {
        SavedPlanIsSound(Seen(), old(repository.View()), made, planned);
        chunks, phase := made, AwaitingModel;
      } else {
        phase := Ending;
      }
    }

    // The plan without voice activity, for a new job or for one whose chunks have not started.
    method PlanWithoutSpeech(available: bool)
      requires Valid()
      modifies this, repository
      ensures Valid() && Respects(old(repository.View()), repository.View(), process, true, false)
      ensures old(phase) == Replanning && old(durationMs) > 0 && available && old(repository.Fenced(token)) ==>
        && phase == AwaitingModel && chunks != [] && !Started(chunks) && EndMs(chunks) == durationMs == old(durationMs)
        && token == old(token)
        && repository.View() == Replaced(old(repository.View()), chunks, Shapes(chunks))
        && (durationMs <= SHORT_AUDIO_THRESHOLD_MS ==> Shapes(chunks) == [Chunk(0, 0, durationMs, 0, 0)])
    {
      if phase != Replanning || durationMs <= 0 {
        return;
      }
      L.DefaultConfigurationIsValid();
      var planner := new L.Planner(L.DEFAULT_CONFIGURATION);
      var planned := planner.Plan(durationMs, []);
      var saved := SaveChunkPlan(planned, available);
    }

    // SpeechAnalysisCompleted
    method SpeechAnalysed(payload: EncodedPlan, available: bool)
      requires Valid()
      modifies this, repository
      ensures Valid() && Respects(old(repository.View()), repository.View(), process, true, false)
      ensures repository.plan != old(repository.plan) ==>
        && old(phase) == AwaitingSpeechAnalysis && phase == AwaitingModel && chunks == repository.plan
        && AcceptableWorkerPlan(payload) && payload.durationMs == Some(durationMs)
        && Shapes(repository.plan) == TypedChunks(payload.chunks.value)
      ensures old(phase) == AwaitingSpeechAnalysis ==>
        (phase == AwaitingModel <==>
          available && old(repository.Fenced(token)) && AcceptableWorkerPlan(payload) && payload.durationMs == Some(durationMs))
      ensures old(phase) == AwaitingSpeechAnalysis && phase == AwaitingModel ==>
        token == old(token) && repository.View() == Replaced(old(repository.View()), chunks, Shapes(chunks))
      ensures durationMs == old(durationMs)
    {
      if phase != AwaitingSpeechAnalysis {
        return;
      }
      var accepted, analysedMs, planned := DecodeWorkerChunkPlan(payload);
      if !accepted || analysedMs != durationMs {
        phase := Ending;
        return;
      }
      var saved := SaveChunkPlan(planned, available);
    }

    // The durable states between Preparing and Transcribing; the last one lets the first chunk start.
    method Advance(to: JobState, available: bool)
      requires Valid()
      modifies `phase, repository
      ensures Valid() && Respects(old(repository.View()), repository.View(), process, true, false)
      ensures old(phase) != Idle && old(repository.Fenced(token)) && available && CanTransition(old(repository.state), to)
              && IsPreparation(to) ==>
        repository.View() == Moved(old(repository.View()), to) && phase == Next(old(phase), to)
    {
      if phase == Idle || !IsPreparation(to) {
        return;
      }
      MoveJob(to, available);
    }

    method MoveJob(to: JobState, available: bool)
      requires Valid() && phase != Idle && IsPreparation(to)
      modifies `phase, repository
      ensures Valid() && Respects(old(repository.View()), repository.View(), process, true, false)
      ensures old(repository.Fenced(token)) && available && CanTransition(old(repository.state), to) ==>
        repository.View() == Moved(old(repository.View()), to) && phase == Next(old(phase), to)
    {
      AdvanceIsSound(Seen(), repository.View(), to);
      EndingIsSound(Seen(), repository.View());
      var ok := repository.Transition(to, token, available);
      if ok {
        MovedIsSound(old(repository.View()), to, process);
      }
      phase := if ok then Next(phase, to) else Ending;
    }

    static predicate IsPreparation(to: JobState) {
      to == Normalizing || to == AnalyzingSpeech || to == WaitingForModel || to == LoadingModel || to == Transcribing
    }

    static function Next(phase: Phase, to: JobState): Phase {
      if to == Transcribing && phase == AwaitingModel then BetweenChunks else phase
    }

    static lemma {:induction false} AdvanceIsSound(s: Session, d: Durable, to: JobState)
      requires SessionSound(s, d) && s.phase != Idle
      ensures SessionSound(s.(phase := Next(s.phase, to)), Moved(d, to))
    {
    }

    static lemma {:induction false} EndingIsSound(s: Session, d: Durable)
      requires SessionSound(s, d) && s.phase != Idle
      ensures SessionSound(s.(phase := Ending), d)
    {
    }

    method StartNextChunk(available: bool)
      requires Valid()
      modifies this, repository
      ensures Valid() && Respects(old(repository.View()), repository.View(), process, true, false)
      ensures phase == Completing && old(phase) == BetweenChunks ==>
        CompletedUpTo(chunks, |chunks|) && repository.state == Finalizing && repository.owner == token
      ensures phase == ChunkRunning && old(phase) == BetweenChunks ==>
        && old(currentChunkIndex) < currentChunkIndex && CompletedUpTo(old(chunks), currentChunkIndex)
        && RunsInBoth(old(chunks), currentChunkIndex) && old(chunks)[currentChunkIndex].state != ChunkState.Completed
      ensures SamePlan(old(repository.plan), repository.plan)
      ensures old(phase) == BetweenChunks && !CompletedUpTo(old(chunks), |old(chunks)|) && available && old(repository.Fenced(token)) ==>
        phase == ChunkRunning && repository.owner == token == old(token) && repository.state == old(repository.state)
      ensures old(phase) == BetweenChunks && CompletedUpTo(old(chunks), |old(chunks)|) && available && old(repository.Fenced(token))
              && CanTransition(old(repository.state), Finalizing) ==>
        phase == Completing && unchanged(`token, `chunks, `durationMs) && repository.View() == Moved(old(repository.View()), Finalizing)
      ensures durationMs == old(durationMs) && |chunks| == |old(chunks)|
    {
      if phase != BetweenChunks {
        return;
      }
      var next := NextOpenChunk();
      assert next < |chunks| ==> !CompletedAt(chunks, next);
      if next >= |chunks| {
        BeginFinalizing(available);
      } else {
        RunChunk(next, available);
      }
    }

    method BeginFinalizing(available: bool)
      requires Valid() && phase == BetweenChunks && CompletedUpTo(chunks, |chunks|)
      modifies `phase, repository
      ensures Valid() && Respects(old(repository.View()), repository.View(), process, true, false)
      ensures phase == Completing || phase == Ending
      ensures phase == Completing ==> repository.state == Finalizing && repository.owner == token
      ensures available && old(repository.Fenced(token)) && CanTransition(old(repository.state), Finalizing) ==>
        phase == Completing && repository.View() == Moved(old(repository.View()), Finalizing)
      ensures repository.plan == old(repository.plan)
    {
      var finalizing := repository.Transition(Finalizing, token, available);
      if finalizing {
        MovedIsSound(old(repository.View()), Finalizing, process);
      }
      phase := if finalizing then Completing else Ending;
    }

    // Chunk next runs in memory and in the database, with one more attempt, and the other chunks are as before.
    ghost predicate RunsInBoth(before: seq<JobChunk>, next: int)
      reads this, repository
    {
      && 0 <= next < |before| && next < |repository.plan| && repository.owner == token
      && chunks == before[next := before[next].(state := Running, attempts := before[next].attempts + 1)]
      && repository.plan[next].state == Running && repository.plan[next].attempts == before[next].attempts + 1
    }

    method RunChunk(next: nat, available: bool)
      requires Valid() && phase == BetweenChunks && next < |chunks| && CompletedUpTo(chunks, next)
      requires chunks[next].state != ChunkState.Completed
      modifies this, repository
      ensures Valid() && Respects(old(repository.View()), repository.View(), process, true, false)
      ensures phase != Completing && currentChunkIndex == next && repository.state == old(repository.state)
      ensures SamePlan(old(repository.plan), repository.plan) && durationMs == old(durationMs) && |chunks| == |old(chunks)|
      ensures phase == ChunkRunning ==> RunsInBoth(old(chunks), next)
      ensures available && old(repository.Fenced(token)) ==> phase == ChunkRunning && repository.owner == token == old(token)
    {
      var updated := MarkRunning(next, available);
      phase := if updated then ChunkRunning else Ending;
    }

    method MarkRunning(next: nat, available: bool) returns (updated: bool)
      requires Valid() && phase == BetweenChunks && next < |chunks| && CompletedUpTo(chunks, next)
      requires chunks[next].state != ChunkState.Completed
      modifies `currentChunkIndex, `chunks, repository
      ensures Sound(repository.View()) && Respects(old(repository.View()), repository.View(), process, true, false)
      ensures currentChunkIndex == next && |chunks| == |old(chunks)| && CompletedUpTo(chunks, next) && CoversAudio(Seen())
      ensures updated ==> RunsInBoth(old(chunks), next)
      ensures repository.owner == token ==> Mirrors(chunks, repository.plan)
      ensures repository.owner == old(repository.owner) && repository.recordingMs == old(repository.recordingMs)
      ensures repository.state == old(repository.state) && SamePlan(old(repository.plan), repository.plan)
      ensures available && old(repository.Fenced(token)) ==> updated
    {
      currentChunkIndex := next;
      var chunk := chunks[next].(state := Running, attempts := chunks[next].attempts + 1);
      if repository.owner == token {
        OpenInBoth(chunks, repository.plan, next, chunk);
      }
      updated := WriteChunk(chunk, available);
      EarlierStayCompleted(chunks, next, chunk);
      ChunkInBoth(Seen(), old(repository.plan), next, chunk);
      chunks := chunks[next := chunk];
    }

    method NextOpenChunk() returns (next: nat)
      requires phase == BetweenChunks && -1 <= currentChunkIndex && CompletedUpTo(chunks, currentChunkIndex + 1)
      ensures currentChunkIndex < next <= |chunks| && CompletedUpTo(chunks, next)
      ensures next < |chunks| ==> chunks[next].state != ChunkState.Completed
    {
      next := currentChunkIndex + 1;
      while next < |chunks| && chunks[next].state == ChunkState.Completed
        invariant currentChunkIndex < next <= |chunks| && CompletedUpTo(chunks, next)
      {
        assert CompletedAt(chunks, next);
        next := next + 1;
      }
    }

    // updateChunk for the current chunk, which is never a completed one.
    method WriteChunk(chunk: JobChunk, available: bool) returns (updated: bool)
      requires Sound(repository.View()) && (token.Token? ==> token.process == process)
      requires repository.owner == token && token.Token? ==>
        !Overwrites(repository.plan, chunk) && (chunk.state == ChunkState.Completed ==> Reaches(repository.plan, repository.leastMs))
      modifies repository
      ensures Sound(repository.View())
      ensures Respects(old(repository.View()), repository.View(), process, true, available && chunk.state == ChunkState.Completed)
      ensures !updated ==> repository.View() == old(repository.View())
      ensures updated ==> repository.owner == token == old(repository.owner)
      ensures updated ==> chunk.id.ordinal < |old(repository.plan)|
      ensures updated ==> repository.View() == old(repository.View()).(plan := Updated(old(repository.plan), chunk))
      ensures SamePlan(old(repository.plan), repository.plan)
      ensures available && old(repository.Fenced(token)) && chunk.id.ordinal < |old(repository.plan)|
              && old(repository.plan)[chunk.id.ordinal].id == chunk.id ==>
        updated
    {
      updated := repository.UpdateChunk(chunk, token, available);
      if updated {
        UpdateIsSound(old(repository.View()), chunk);
        UpdateKeepsIff(old(repository.plan), chunk);
      }
    }

    method FinalizeCurrentChunk(segmentsSaved: bool, available: bool, progressed: bool)
      requires Valid()
      modifies this, repository
      ensures Valid() && Respects(old(repository.View()), repository.View(), process, true, segmentsSaved && available)
      ensures old(phase) == ChunkRunning && phase == BetweenChunks ==>
        repository.owner == token && CompletedUpTo(repository.plan, currentChunkIndex + 1)
      ensures SamePlan(old(repository.plan), repository.plan) && durationMs == old(durationMs) && |chunks| == |old(chunks)|
      ensures old(phase) == ChunkRunning && segmentsSaved && available && progressed && old(repository.Fenced(token)) ==>
        && phase == BetweenChunks && token == old(token) && currentChunkIndex == old(currentChunkIndex)
        && repository.state == old(repository.state)
    {
      if phase != ChunkRunning {
        return;
      }
      if !segmentsSaved {
        phase := Ending;
        return;
      }
      FinishChunk(available, progressed);
    }

    method FinishChunk(available: bool, progressed: bool)
      requires Valid() && phase == ChunkRunning
      modifies `phase, `chunks, repository
      ensures Valid() && Respects(old(repository.View()), repository.View(), process, true, available)
      ensures phase == BetweenChunks ==> repository.owner == token && CompletedUpTo(repository.plan, currentChunkIndex + 1)
      ensures (phase == BetweenChunks || phase == Ending) && |chunks| == |old(chunks)|
      ensures repository.state == old(repository.state) && SamePlan(old(repository.plan), repository.plan)
      ensures available && progressed && old(repository.Fenced(token)) ==> phase == BetweenChunks
    {
      var updated := CompleteCurrentChunk(available);
      if updated {
        EndingIsSound(Seen().(phase := BetweenChunks), repository.View());
      } else {
        EndingIsSound(Seen(), repository.View());
      }
      phase := if updated && progressed then BetweenChunks else Ending;
    }

    // A chunk is completed in memory only once it is completed in the database.
    method CompleteCurrentChunk(available: bool) returns (updated: bool)
      requires Valid() && phase == ChunkRunning
      modifies `chunks, repository
      ensures Sound(repository.View()) && Respects(old(repository.View()), repository.View(), process, true, available)
      ensures |chunks| == |old(chunks)|
      ensures !updated ==> chunks == old(chunks) && repository.View() == old(repository.View())
      ensures available && old(repository.Fenced(token)) ==> updated
      ensures repository.state == old(repository.state) && SamePlan(old(repository.plan), repository.plan)
      ensures updated ==>
        && repository.owner == token && CompletedUpTo(repository.plan, currentChunkIndex + 1)
        && SessionSound(Seen().(phase := BetweenChunks), repository.View())
    {
      var completedChunk := chunks[currentChunkIndex].(state := ChunkState.Completed);
      if repository.owner == token {
        assert MirrorsAt(chunks, repository.plan, currentChunkIndex) && IdentifiedAt(repository.plan, currentChunkIndex);
        CompletedInBoth(Seen(), repository.View(), completedChunk);
      }
      updated := WriteChunk(completedChunk, available);
      if updated {
        CompletedInBoth(Seen(), old(repository.View()), completedChunk);
        chunks := chunks[currentChunkIndex := completedChunk];
      }
    }

    // The last step of completeActiveJob.
    method CompleteAndActivate(available: bool)
      requires Valid()
      modifies this, repository
      ensures Valid() && Respects(old(repository.View()), repository.View(), process, true, false)
      ensures repository.state == JobState.Completed && old(repository.state) != JobState.Completed ==>
        && phase == Idle && repository.recordingMs == old(durationMs) > 0
        && TranscribedUpTo(repository.plan, old(durationMs))
      ensures old(phase) == Completing && available && old(repository.Fenced(token)) && old(repository.state) == Finalizing ==>
        phase == Idle && repository.View() == old(repository.View()).(state := JobState.Completed, owner := NoToken)
    {
      if phase != Completing {
        return;
      }
      var completed := repository.CompleteAndActivate(token, available);
      if completed {
        CompletionIsSound(Seen(), old(repository.View()));
        EverythingIsTranscribed(repository.View(), durationMs);
        ClearActive();
      } else {
        phase := Ending;
      }
    }

    // The chunk write of checkpointFailedJob, checkpointInterruption and checkpointCancellation, at any time.
    method EndChunk(to: ChunkState, available: bool)
      requires Valid()
      modifies this, repository
      ensures Valid() && Respects(old(repository.View()), repository.View(), process, true, false)
      ensures old(repository.owner) != token ==> repository.View() == old(repository.View())
      ensures repository.plan != old(repository.plan) ==>
        EndedAt(old(repository.plan), repository.plan, old(currentChunkIndex), to)
      ensures old(phase) != Idle && old(currentChunkIndex) >= 0 && to in {ChunkState.Failed, ChunkState.Interrupted, ChunkState.Cancelled}
              && old(chunks)[old(currentChunkIndex)].state == Running && available && old(repository.Fenced(token)) ==>
        EndedAt(old(repository.plan), repository.plan, old(currentChunkIndex), to)
    {
      if phase == Idle || currentChunkIndex < 0 {
        return;
      }
      var chunk := chunks[currentChunkIndex];
      if to !in {ChunkState.Failed, ChunkState.Interrupted, ChunkState.Cancelled} ||
         !(chunk.state == Running || (to == ChunkState.Cancelled && chunk.state in {ChunkState.Failed, ChunkState.Interrupted}))
      {
        return;
      }
      WriteEnded(chunk.(state := to), available);
    }

    method WriteEnded(ended: JobChunk, available: bool)
      requires Valid() && phase != Idle && currentChunkIndex >= 0 && ended.state != ChunkState.Completed
      requires chunks[currentChunkIndex].state != ChunkState.Completed
      requires ended.id == chunks[currentChunkIndex].id && ended.shape == chunks[currentChunkIndex].shape
      modifies `phase, `chunks, repository
      ensures Valid() && Respects(old(repository.View()), repository.View(), process, true, false)
      ensures old(repository.owner) != token ==> repository.View() == old(repository.View())
      ensures repository.plan != old(repository.plan) ==>
        EndedAt(old(repository.plan), repository.plan, currentChunkIndex, ended.state)
      ensures available && old(repository.Fenced(token)) ==>
        EndedAt(old(repository.plan), repository.plan, currentChunkIndex, ended.state)
    {
      if repository.owner == token {
        OpenInBoth(chunks, repository.plan, currentChunkIndex, ended);
        EndsTheOne(repository.plan, ended, currentChunkIndex);
      }
      var updated := WriteChunk(ended, available);
      if updated {
        chunks := chunks[currentChunkIndex := ended];
      }
      phase := Ending;
      assert SessionSound(Seen(), repository.View());
    }

    // The job write of the three checkpoints; the coordinator lets go of the job when it succeeds or when
    // there is nothing left to retry.
    method EndJob(to: JobState, available: bool, retry: bool)
      requires Valid()
      modifies this, repository
      ensures Valid() && Respects(old(repository.View()), repository.View(), process, true, false)
      ensures old(repository.owner != token) ==> repository.View() == old(repository.View())
      ensures repository.View() != old(repository.View()) ==>
        phase == Idle && repository.View() == old(repository.View()).(state := to, owner := NoToken)
      ensures old(phase) != Idle && old(repository.Fenced(token)) && available && CanTransition(old(repository.state), to)
              && old(repository.state) != to && to in {JobState.Failed, JobState.Interrupted, JobState.Cancelled} ==>
        phase == Idle && repository.View() == old(repository.View()).(state := to, owner := NoToken)
    {
      if phase == Idle || to !in {JobState.Failed, JobState.Interrupted, JobState.Cancelled} {
        return;
      }
      var ended := repository.Transition(to, token, available);
      if ended || !retry {
        ClearActive();
      } else {
        phase := Ending;
      }
    }

    // The step may complete a chunk.
    static predicate Completes(action: GuiAction, available: bool) {
      action.Finalize? && action.segmentsSaved && available
    }

    static function MeasuredBy(action: GuiAction, available: bool): Option<int> {
      if action.Persist? then Measured(action.normalizedMs, available) else None
    }

    method Act(action: GuiAction, available: bool)
      requires Valid()
      modifies this, repository
      ensures Valid()
      ensures Allowed(old(repository.View()), repository.View(), process, true, Completes(action, available),
                      MeasuredBy(action, available))
    {
      match action
      case Begin(vadEnabled) => BeginJob(vadEnabled, available);
      case Persist(normalizedMs) => PersistDuration(normalizedMs, available);
      case Prepare => PrepareChunks(available);
      case PlanSilently => PlanWithoutSpeech(available);
      case SpeechPlan(payload) => SpeechAnalysed(payload, available);
      case AdvanceTo(to) => Advance(to, available);
      case StartNext => StartNextChunk(available);
      case Finalize(segmentsSaved, progressed) => FinalizeCurrentChunk(segmentsSaved, available, progressed);
      case CompleteJob => CompleteAndActivate(available);
      case CheckpointChunk(chunkState) => EndChunk(chunkState, available);
      case CheckpointJob(jobState, retry) => EndJob(jobState, available, retry);
      case Lose => LoseJob();
    }

    // The process crashed, or handed the job off after losing its lease.
    method LoseJob()
      requires Valid()
      modifies this
      ensures Valid()
    {
      ClearActive();
    }

    method ClearActive()
      modifies `token, `phase, `chunks, `currentChunkIndex
      ensures token == NoToken && phase == Idle && chunks == [] && currentChunkIndex == -1
    {
      token, phase := NoToken, Idle;
      chunks, currentChunkIndex := [], -1;
    }
  }
}
