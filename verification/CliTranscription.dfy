// The chunks of one transcription job in a command-line process: src/cli/CliTranscriptionPersistence.cpp and the
// checks of src/cli/main.cpp around it. It plans, transcribes and checks the length of the audio on its own copy of
// the chunks, which a resumption takes before it holds the lease.

module CliTranscription {
  import opened Outcomes
  import opened ChunkPlan
  import opened Jobs
  import opened ChunkPipeline
  import L = LongFormChunkPlanner

  datatype CliPhase = NoSession | PlanKnown | Resuming | Ready | Executing | AllChecked | Stopping

  datatype CliSession = CliSession(
    process: nat, token: Token, phase: CliPhase, resumed: bool, chunks: seq<JobChunk>, durationMs: int, stale: bool)

  datatype CliAction =
    | New(shapes: seq<Chunk>)
    | Snapshot
    | Claim(busy: bool)
    | Resume
    | PersistLength(normalizedMs: int)
    | CheckLength(reachedTranscription: bool)
    | SpeechPlanned(shapes: seq<Chunk>)
    | Write(ordinal: nat, chunkState: ChunkState)
    | EndChunkAs(ordinal: nat, chunkState: ChunkState)
    | Transition(to: JobState)
    | Check
    | Finish
    | Exit

  predicate HasToken(phase: CliPhase) {
    phase != NoSession && phase != PlanKnown
  }

  // stale: when the job was claimed, the copy did not show all that was completed of the durable plan.
  predicate CliSound(s: CliSession, d: Durable) {
    && (s.token.Token? ==> s.token.process == s.process)
    && (s.token.Token? <==> HasToken(s.phase)) && (s.token == NoToken ==> s.durationMs == 0)
    && (s.phase != NoSession ==> d.plan != [] && s.chunks != [] && PlanSound(s.chunks) && Known(s.chunks, d.plans))
    && (s.phase == PlanKnown ==> WaitsWell(s, d))
    && (s.phase == Executing || s.phase == AllChecked ==> s.durationMs > 0 && EndMs(s.chunks) >= s.durationMs)
    && (s.durationMs > 0 ==> LeastAtMost(d.leastMs, s.durationMs))
    && (s.token.Token? && d.owner == s.token ==> CliHoldsWell(s, d))
  }

  // A job is resumed only after it was claimed, and a new one is nobody else's until its creator has claimed it.
  predicate WaitsWell(s: CliSession, d: Durable) {
    if s.resumed then d.started else !d.started && d.origin == CommandLine(s.process) && s.chunks == d.plan
  }

  predicate CliHoldsWell(s: CliSession, d: Durable) {
    && s.chunks != [] && d.plan != []
    && (!s.stale ==> Keeps(d.plan, s.chunks))
    && (s.durationMs > 0 ==> d.recordingMs == s.durationMs)
    && (s.phase == AllChecked ==> CompletedUpTo(d.plan, |d.plan|))
  }

  lemma {:induction false} OthersKeepCli(s: CliSession, before: Durable, after: Durable, other: nat, current: bool,
                                         completes: bool, measured: Option<int>)
    requires CliSound(s, before) && s.process != other && Allowed(before, after, other, current, completes, measured)
    ensures CliSound(s, after)
  {
  }

  lemma {:induction false} StoppingIsSound(s: CliSession, d: Durable)
    requires CliSound(s, d) && HasToken(s.phase)
    ensures CliSound(s.(phase := Stopping), d)
  {
  }

  lemma {:induction false} CopyOfChunk(chunks: seq<JobChunk>, ordinal: nat, chunk: JobChunk)
    requires PlanSound(chunks) && ordinal < |chunks|
    requires chunk.id == chunks[ordinal].id && chunk.shape == chunks[ordinal].shape
    ensures PlanSound(chunks[ordinal := chunk]) && EndMs(chunks[ordinal := chunk]) == EndMs(chunks)
    ensures Shapes(chunks[ordinal := chunk]) == Shapes(chunks) && chunk.id.ordinal == ordinal
  {
    SamePlanIsSound(chunks, chunks[ordinal := chunk], []);
    assert IdentifiedAt(chunks, ordinal);
  }

  // The lease holder writes a chunk; mine is what the copy then holds of it. Only a session whose copy reaches the end of
  // the audio completes a chunk.
  predicate Writes(s: CliSession, d: Durable, ordinal: nat, mine: JobChunk, chunk: JobChunk) {
    && s.token.Token? && d.owner == s.token && s.phase != AllChecked
    && ordinal < |s.chunks| && mine.id == s.chunks[ordinal].id && mine.shape == s.chunks[ordinal].shape
    && chunk.id.ordinal == ordinal < |d.plan| && mine.state == chunk.state
    && (chunk.state == ChunkState.Completed ==> s.phase == Executing && d.plan[ordinal].id == mine.id)
    && (!s.stale && d.plan[ordinal].state == ChunkState.Completed ==> chunk.state == ChunkState.Completed)
  }

  // The plan that has the completed chunk is the copied one.
  lemma {:induction false} WrittenPlanIsSound(s: CliSession, d: Durable, ordinal: nat, mine: JobChunk, chunk: JobChunk)
    requires Sound(d) && CliSound(s, d) && Writes(s, d, ordinal, mine, chunk)
    ensures Sound(d.(plan := Updated(d.plan, chunk)))
    ensures Respects(d, d.(plan := Updated(d.plan, chunk)), s.process, !s.stale, chunk.state == ChunkState.Completed)
  {
    if chunk.state == ChunkState.Completed {
      OneIdentifierOnePlan(s.chunks, d.plan, d.plans, ordinal);
    }
    UpdateIsSound(d, chunk);
    UpdateKeepsIff(d.plan, chunk);
  }

  lemma {:induction false} WrittenCopyIsSound(s: CliSession, d: Durable, ordinal: nat, mine: JobChunk, chunk: JobChunk)
    requires Sound(d) && CliSound(s, d) && Writes(s, d, ordinal, mine, chunk)
    ensures CliSound(s.(chunks := s.chunks[ordinal := mine]), d.(plan := Updated(d.plan, chunk)))
  {
    CopyOfChunk(s.chunks, ordinal, mine);
    if chunk.state == ChunkState.Completed {
      OneIdentifierOnePlan(s.chunks, d.plan, d.plans, ordinal);
    }
    var updated, more := Updated(d.plan, chunk), s.chunks[ordinal := mine];
    forall k | !s.stale && 0 <= k < |updated| && CompletedAt(updated, k) ensures KeptAt(updated, more, k) {
      assert k != ordinal ==> CompletedAt(d.plan, k) && KeptAt(d.plan, s.chunks, k);
    }
  }

  lemma {:induction false} UnstartedIsOpen(copy: seq<JobChunk>, plan: seq<JobChunk>)
    requires !Started(copy) && Keeps(plan, copy)
    ensures NoneCompleted(plan)
  {
    forall k | 0 <= k < |plan| ensures !CompletedAt(plan, k) {
      assert CompletedAt(plan, k) ==> KeptAt(plan, copy, k);
    }
  }

  // ---- What a resumption does to the durable plan.

  // The plan after the first n chunks of the copy were looked at: those it does not show as completed are pending.
  function Reset(plan: seq<JobChunk>, copy: seq<JobChunk>, n: nat): seq<JobChunk> {
    seq(|plan|, k requires 0 <= k < |plan| =>
      if k < n && k < |copy| && copy[k].state != ChunkState.Completed
      then plan[k].(state := Pending, attempts := copy[k].attempts)
      else plan[k])
  }

  predicate ShowsCompleted(plan: seq<JobChunk>, copy: seq<JobChunk>) {
    forall k {:trigger CompletedAt(plan, k)} :: 0 <= k < |plan| && k < |copy| && CompletedAt(plan, k) ==> CompletedAt(copy, k)
  }

  // A resumption keeps the completed chunks exactly if its copy shows them completed.
  lemma {:induction false} ResumptionKeepsIff(plan: seq<JobChunk>, copy: seq<JobChunk>)
    ensures Keeps(plan, Reset(plan, copy, |copy|)) <==> ShowsCompleted(plan, copy)
  {
    var reset := Reset(plan, copy, |copy|);
    if ShowsCompleted(plan, copy) {
      forall k | 0 <= k < |plan| && CompletedAt(plan, k) ensures KeptAt(plan, reset, k) {
        assert k < |copy| ==> CompletedAt(copy, k);
      }
    }
    if Keeps(plan, reset) {
      forall k | 0 <= k < |plan| && k < |copy| && CompletedAt(plan, k) ensures CompletedAt(copy, k) {
        assert KeptAt(plan, reset, k);
      }
    }
  }

  lemma {:induction false} ResetOneMore(plan: seq<JobChunk>, copy: seq<JobChunk>, n: nat, chunk: JobChunk)
    requires n < |copy|
    ensures copy[n].state == ChunkState.Completed ==> Reset(plan, copy, n + 1) == Reset(plan, copy, n)
    ensures copy[n].state != ChunkState.Completed && n < |plan| && chunk.id.ordinal == n
            && chunk == copy[n].(id := chunk.id, state := Pending) ==>
      Reset(plan, copy, n + 1) == Updated(Reset(plan, copy, n), chunk)
  {
  }

  // The first n chunks of the copy have been looked at. plan is the durable plan, if the lease is still held.
  predicate ResetUpTo(n: nat, chunks: seq<JobChunk>, copied: seq<JobChunk>, found: seq<JobChunk>, plan: seq<JobChunk>, holds: bool) {
    && n <= |chunks| == |copied| && chunks[n..] == copied[n..]
    && (holds ==> plan == Reset(found, copied, n))
  }

  lemma {:induction false} ResetNextUp(n: nat, chunks: seq<JobChunk>, copied: seq<JobChunk>, found: seq<JobChunk>,
                                       plan: seq<JobChunk>, holds: bool, chunk: JobChunk)
    requires n < |chunks| && ResetUpTo(n, chunks, copied, found, plan, holds)
    ensures chunks[n].state == ChunkState.Completed ==> ResetUpTo(n + 1, chunks, copied, found, plan, holds)
    ensures chunks[n].state != ChunkState.Completed && chunk == chunks[n].(state := Pending) && chunk.id.ordinal == n < |plan| ==>
      ResetUpTo(n + 1, chunks[n := chunk], copied, found, Updated(plan, chunk), holds)
  {
    assert chunks[n] == chunks[n..][0] == copied[n..][0] == copied[n];
    assert chunks[n + 1..] == chunks[n..][1..] && copied[n + 1..] == copied[n..][1..];
    ResetOneMore(found, copied, n, chunk);
  }

  class CliTranscriptionPersistence {
    const repository: JobRepository
    const process: nat
    var token: Token
    var nextSerial: nat
    var phase: CliPhase
    var resumed: bool
    var chunks: seq<JobChunk>
    var durationMs: int
    var nextReset: nat
    ghost var stale: bool
    // The copy and the durable plan when the job was claimed.
    ghost var copied: seq<JobChunk>
    ghost var found: seq<JobChunk>

    ghost function Seen(): CliSession
      reads this
    {
      CliSession(process, token, phase, resumed, chunks, durationMs, stale)
    }

    // How far a resumption has come.
    ghost predicate ResumingSound()
      reads this, repository
    {
      phase == Resuming ==> ResetUpTo(nextReset, chunks, copied, found, repository.plan, repository.owner == token)
    }

    ghost predicate Valid()
      reads this, repository
    {
      Sound(repository.View()) && CliSound(Seen(), repository.View()) && ResumingSound()
    }

    constructor (repository: JobRepository, process: nat)
      ensures this.repository == repository && this.process == process && phase == NoSession && !stale
      ensures CliSound(Seen(), repository.View()) && ResumingSound()
    {
      this.repository, this.process := repository, process;
      token, nextSerial, phase, resumed, chunks := NoToken, 0, NoSession, false, [];
      durationMs, nextReset, stale, copied, found := 0, 0, false, [], [];
    }

    // beginNew, from the enqueuing of the hidden job to the claim: the first plan is written without a token, while the
    // job is queued.
    method BeginNew(shapes: seq<Chunk>, available: bool)
      requires Valid()
      modifies this, repository
      ensures Valid() && Respects(old(repository.View()), repository.View(), process, true, false)
      ensures phase == old(phase) || (old(phase) == NoSession && phase == PlanKnown && chunks == repository.plan)
      ensures phase == old(phase) ==> chunks == old(chunks) && resumed == old(resumed)
      ensures stale == old(stale)
      ensures phase != old(phase) ==> !resumed
      ensures old(phase) == NoSession && DurableGeometry(shapes) && available && repository.origin == CommandLine(process)
              && old(repository.state) == Queued && old(repository.plan) == [] ==>
        && phase == PlanKnown && !resumed && Shapes(chunks) == shapes && !Started(chunks)
        && repository.View() == Replaced(old(repository.View()), chunks, shapes)
    {
      var valid := ValidateDurableChunkGeometry(shapes);
      if phase != NoSession || !valid || repository.origin != CommandLine(process) {
        return;
      }
      SaveFirstPlan(shapes, available);
    }

    method SaveFirstPlan(shapes: seq<Chunk>, available: bool)
      requires Valid() && phase == NoSession && DurableGeometry(shapes) && repository.origin == CommandLine(process)
      modifies `chunks, `phase, `resumed, repository
      ensures Valid() && Respects(old(repository.View()), repository.View(), process, true, false)
      ensures if phase == NoSession then unchanged(`chunks, `resumed) else phase == PlanKnown && !resumed && chunks == repository.plan
      ensures phase == PlanKnown <==> available && old(repository.state) == Queued && old(repository.plan) == []
      ensures phase == PlanKnown ==>
        Shapes(chunks) == shapes && !Started(chunks) && repository.View() == Replaced(old(repository.View()), chunks, shapes)
    {
      RangedPlan(shapes);
      var saved, made := repository.ReplaceChunks(shapes, NoToken, available);
      if saved {
        ReplacedIsSound(old(repository.View()), made, shapes);
        chunks, phase, resumed := made, PlanKnown, false;
      }
    }

    // resume, up to the claim: only an interrupted or failed job can be resumed.
    method LoadSnapshot(available: bool)
      requires Valid()
      modifies this
      ensures Valid()
      ensures old(phase) == NoSession && available && repository.plan != []
              && repository.state in {JobState.Interrupted, JobState.Failed} ==>
        phase == PlanKnown && resumed
      ensures phase == old(phase) || (old(phase) == NoSession && phase == PlanKnown && available && chunks == repository.plan)
      ensures phase == old(phase) ==> chunks == old(chunks) && resumed == old(resumed)
      ensures stale == old(stale)
    {
      if phase == NoSession && available && repository.plan != [] && repository.state in {JobState.Interrupted, JobState.Failed} {
        chunks, phase, resumed := repository.plan, PlanKnown, true;
      }
    }

    // One round of waitForExecutionClaim. busy: another job holds the lease or is running. A session waits on while one
    // does, and ends if the job is neither running nor queued or the database fails.
    method ClaimJob(busy: bool, available: bool)
      requires Valid()
      modifies this, repository
      ensures Valid() && Respects(old(repository.View()), repository.View(), process, true, false)
      ensures HasToken(phase) && old(phase) == PlanKnown ==>
        && repository.View() == old(repository.View()).(state := Preparing, owner := token, started := true)
        && chunks == copied == old(chunks) && found == repository.plan && found != []
        && stale == !Keeps(found, copied) && (stale ==> resumed)
        && phase == (if resumed then Resuming else Ready) && nextReset == 0 && durationMs == 0
      ensures old(phase) == PlanKnown && !HasToken(phase) ==> repository.View() == old(repository.View()) && (stale ==> old(stale))
      ensures old(phase) == PlanKnown && phase == PlanKnown ==> unchanged(`chunks)
      ensures old(phase) == PlanKnown ==>
        && (HasToken(phase) <==> available && !busy && old(repository.state) == Queued && old(repository.owner) == NoToken)
        && (phase == NoSession <==>
            || !available || old(repository.state) in {Cancelling, JobState.Cancelled}
            || (!busy && old(repository.owner) == NoToken && old(repository.state) != Queued && !IsRunning(old(repository.state))))
      ensures old(phase) != PlanKnown ==> unchanged(this) && repository.View() == old(repository.View())
      ensures resumed == old(resumed)
    {
      if phase != PlanKnown {
        return;
      }
      if !available || repository.state == Cancelling || repository.state == JobState.Cancelled {
        Leave();
        return;
      }
      if busy || repository.owner != NoToken || IsRunning(repository.state) {
        return;
      }
      if repository.state != Queued {
        Leave();
        return;
      }
      TakeQueuedJob();
    }

    method TakeQueuedJob()
      requires Valid() && phase == PlanKnown && repository.state == Queued && repository.owner == NoToken
      modifies `token, `nextSerial, `durationMs, `nextReset, `copied, `found, `stale, `phase, repository
      ensures Valid() && Respects(old(repository.View()), repository.View(), process, true, false)
      ensures repository.View() == old(repository.View()).(state := Preparing, owner := token, started := true)
      ensures copied == chunks && found == repository.plan && found != [] && stale == !Keeps(found, copied) && (stale ==> resumed)
      ensures phase == (if resumed then Resuming else Ready) && nextReset == 0 && durationMs == 0
    {
      var candidate := Token(process, nextSerial);
      nextSerial := nextSerial + 1;
      var claimed := repository.Claim(candidate, true);
      Hold(candidate);
    }

    method Hold(candidate: Token)
      requires phase == PlanKnown && candidate.Token? && chunks != [] && repository.plan != []
      modifies `token, `durationMs, `nextReset, `copied, `found, `stale, `phase
      ensures token == candidate && durationMs == 0 && nextReset == 0 && phase == (if resumed then Resuming else Ready)
      ensures copied == chunks && found == repository.plan && stale == !Keeps(found, copied)
      ensures ResumingSound()
    {
      token, durationMs, nextReset := candidate, 0, 0;
      copied, found, stale := chunks, repository.plan, !Keeps(repository.plan, chunks);
      phase := if resumed then Resuming else Ready;
      assert Reset(found, copied, 0) == found;
    }

    // One round of the loop of resume that makes unfinished chunks pending again; then the resumption is done, and
    // it has kept the completed chunks exactly if the copy showed them completed when the job was claimed.
    method ResetNext(available: bool)
      requires Valid()
      modifies this, repository
      ensures Valid() && Respects(old(repository.View()), repository.View(), process, !old(stale), false)
      ensures old(phase) == Resuming && phase == Ready && repository.owner == token ==>
        (Keeps(found, repository.plan) <==> ShowsCompleted(found, copied))
      ensures old(phase) != Resuming ==> unchanged(this) && repository.View() == old(repository.View())
      ensures repository.state == old(repository.state)
      ensures old(phase) == Resuming ==> phase != NoSession && phase != PlanKnown && stale == old(stale)
      ensures old(phase) == Resuming && old(nextReset) == |old(chunks)| ==>
        phase == Ready && unchanged(`chunks, `token, `durationMs) && repository.View() == old(repository.View())
      ensures old(phase) == Resuming && old(nextReset) < |old(chunks)| && old(chunks)[old(nextReset)].state == ChunkState.Completed ==>
        phase == Resuming && nextReset == old(nextReset) + 1 && unchanged(`chunks, `token) && repository.View() == old(repository.View())
      ensures old(phase) == Resuming && available && old(repository.Fenced(token)) && old(Resettable()) ==>
        && phase == Resuming && nextReset == old(nextReset) + 1 && repository.owner == token == old(token)
        && unchanged(`found, `copied) && chunks == Cleared(old(chunks), old(nextReset))
    {
      if phase != Resuming {
        return;
      }
      if nextReset == |chunks| {
        phase := Ready;
        ResumptionKeepsIff(found, copied);
        return;
      }
      ResetChunk(available);
    }

    static function Cleared(chunks: seq<JobChunk>, next: nat): seq<JobChunk>
      requires next < |chunks|
    {
      chunks[next := chunks[next].(state := Pending)]
    }

    // The next chunk of the copy is unfinished there, and it is still a chunk of the durable plan.
    predicate Resettable()
      reads this, repository
    {
      && nextReset < |chunks| && chunks[nextReset].state != ChunkState.Completed
      && nextReset < |repository.plan| && repository.plan[nextReset].id == chunks[nextReset].id
    }

    method ResetChunk(available: bool)
      requires Valid() && phase == Resuming && nextReset < |chunks|
      modifies `phase, `chunks, `nextReset, repository
      ensures Valid() && Respects(old(repository.View()), repository.View(), process, !stale, false)
      ensures (phase == Resuming || phase == Stopping) && repository.state == old(repository.state)
      ensures old(chunks)[old(nextReset)].state == ChunkState.Completed ==>
        phase == Resuming && nextReset == old(nextReset) + 1 && unchanged(`chunks) && repository.View() == old(repository.View())
      ensures available && old(repository.Fenced(token)) && old(Resettable()) ==>
        && phase == Resuming && nextReset == old(nextReset) + 1 && repository.owner == token
        && chunks == Cleared(old(chunks), old(nextReset))
    {
      if chunks[nextReset].state == ChunkState.Completed {
        ResetNextUp(nextReset, chunks, copied, found, repository.plan, repository.owner == token, chunks[nextReset]);
        nextReset := nextReset + 1;
        return;
      }
      ResetOpenChunk(available);
    }

    method ResetOpenChunk(available: bool)
      requires Valid() && phase == Resuming && nextReset < |chunks| && chunks[nextReset].state != ChunkState.Completed
      modifies `phase, `chunks, `nextReset, repository
      ensures Valid() && Respects(old(repository.View()), repository.View(), process, !stale, false)
      ensures (phase == Resuming || phase == Stopping) && repository.state == old(repository.state)
      ensures available && old(repository.Fenced(token)) && old(Resettable()) ==>
        && phase == Resuming && nextReset == old(nextReset) + 1 && repository.owner == token
        && chunks == Cleared(old(chunks), old(nextReset))
    {
      var updated := ClearChunk(available);
      if updated {
        nextReset := nextReset + 1;
      } else {
        StoppingIsSound(Seen(), repository.View());
        phase := Stopping;
      }
    }

    method ClearChunk(available: bool) returns (updated: bool)
      requires Valid() && phase == Resuming && nextReset < |chunks| && chunks[nextReset].state != ChunkState.Completed
      modifies `chunks, repository
      ensures Sound(repository.View()) && CliSound(Seen(), repository.View()) && repository.state == old(repository.state)
      ensures Respects(old(repository.View()), repository.View(), process, !stale, false)
      ensures updated ==>
        && repository.owner == token && chunks == Cleared(old(chunks), nextReset)
        && ResetUpTo(nextReset + 1, chunks, copied, found, repository.plan, true)
      ensures available && old(repository.Fenced(token)) && old(Resettable()) ==> updated
    {
      var pending := chunks[nextReset].(state := Pending);
      updated := WriteCopy(nextReset, pending, available);
      if updated {
        ResetNextUp(nextReset, old(chunks), copied, found, old(repository.plan), true, pending);
      }
    }

    // updateChunk, and the same change to the copy.
    method WriteCopy(ordinal: nat, chunk: JobChunk, available: bool) returns (updated: bool)
      requires Sound(repository.View()) && CliSound(Seen(), repository.View())
      requires HasToken(phase) && phase != AllChecked && ordinal < |chunks|
      requires chunk.id == chunks[ordinal].id && chunk.shape == chunks[ordinal].shape
      requires chunks[ordinal].state == ChunkState.Completed ==> chunk.state == ChunkState.Completed
      requires chunk.state == ChunkState.Completed ==> phase == Executing
      modifies `chunks, repository
      ensures Sound(repository.View()) && CliSound(Seen(), repository.View())
      ensures Respects(old(repository.View()), repository.View(), process, !stale, available && chunk.state == ChunkState.Completed)
      ensures updated ==> old(repository.owner) == repository.owner == token && chunks == old(chunks)[ordinal := chunk]
      ensures updated ==> chunk.id.ordinal == ordinal < |old(repository.plan)| && old(repository.plan)[ordinal].id == chunk.id
      ensures updated ==> repository.View() == old(repository.View()).(plan := Updated(old(repository.plan), chunk))
      ensures !updated ==> chunks == old(chunks) && repository.View() == old(repository.View())
      ensures available && old(repository.Fenced(token)) && ordinal < |old(repository.plan)|
              && old(repository.plan)[ordinal].id == chunk.id ==>
        updated
    {
      CopyOfChunk(chunks, ordinal, chunk);
      assert !stale && repository.owner == token && ordinal < |repository.plan| && CompletedAt(repository.plan, ordinal) ==>
        KeptAt(repository.plan, chunks, ordinal);
      updated := repository.UpdateChunk(chunk, token, available);
      if updated {
        WrittenPlanIsSound(Seen(), old(repository.View()), ordinal, chunk, chunk);
        WrittenCopyIsSound(Seen(), old(repository.View()), ordinal, chunk, chunk);
        chunks := chunks[ordinal := chunk];
      }
    }

    // updateNormalizedAudio
    method PersistDuration(normalizedMs: int, available: bool)
      requires Valid()
      modifies `phase, `durationMs, repository
      ensures Valid()
      ensures Allowed(old(repository.View()), repository.View(), process, true, false, Measured(normalizedMs, available))
      ensures old(phase) == Ready && available && normalizedMs > 0 && old(repository.Fenced(token)) ==>
        phase == Ready && durationMs == normalizedMs && repository.View() == Recorded(old(repository.View()), normalizedMs)
      ensures old(phase) != Ready ==> unchanged(this) && repository.View() == old(repository.View())
      ensures old(phase) == Ready ==> phase == Ready || phase == Stopping
    {
      if phase != Ready {
        return;
      }
      if normalizedMs <= 0 {
        phase := Stopping;
        return;
      }
      var saved := repository.UpdateRecording(normalizedMs, token, available);
      if saved {
        durationMs := normalizedMs;
      } else {
        phase := Stopping;
      }
    }

    // Between the decoding of the audio and the start of the worker: a copy that was being transcribed and ends before
    // the audio stops the resumption, and one that was not and ends elsewhere is replaced.
    method CheckPlan(reachedTranscription: bool, available: bool)
      requires Valid()
      modifies this, repository
      ensures Valid() && Respects(old(repository.View()), repository.View(), process, !old(stale), false)
      ensures old(phase) == Ready && phase == Executing ==> EndMs(chunks) >= durationMs == old(durationMs) > 0
      ensures old(phase) != Ready ==> unchanged(this) && repository.View() == old(repository.View())
      ensures old(phase) == Ready ==> phase == Ready || phase == Stopping || phase == Executing
      ensures stale == old(stale) && token == old(token)
      ensures old(phase) == Ready && old(durationMs) > 0 && EndMs(old(chunks)) >= old(durationMs) && reachedTranscription ==>
        phase == Executing && unchanged(`chunks, `durationMs) && repository.View() == old(repository.View())
      ensures old(phase) == Ready && old(durationMs) > 0 && !reachedTranscription && old(Replaceable()) && available
              && old(repository.Fenced(token)) ==>
        && phase == Executing && EndMs(chunks) == durationMs && chunks == repository.plan && NoneCompleted(chunks)
        && repository.View() == Replaced(old(repository.View()), chunks, Shapes(chunks))
        && (durationMs <= SHORT_AUDIO_THRESHOLD_MS ==> Shapes(chunks) == [Chunk(0, 0, durationMs, 0, 0)])
    {
      if phase != Ready || durationMs <= 0 {
        return;
      }
      var endMs := chunks[|chunks| - 1].shape.endMs;
      if reachedTranscription && endMs < durationMs {
        phase := Stopping;
        return;
      }
      if !reachedTranscription && endMs != durationMs {
        PlanAnew(available);
        return;
      }
      phase := Executing;
    }

    method PlanAnew(available: bool)
      requires Valid() && phase == Ready && durationMs > 0
      modifies `phase, `chunks, repository
      ensures Valid() && Respects(old(repository.View()), repository.View(), process, !stale, false)
      ensures phase == Stopping || (phase == Executing && EndMs(chunks) == durationMs && NoneCompleted(chunks))
      ensures !Started(old(chunks)) && available && old(repository.Fenced(token)) ==>
        phase == Executing && chunks == repository.plan && repository.View() == Replaced(old(repository.View()), chunks, Shapes(chunks))
      ensures phase == Executing && durationMs <= SHORT_AUDIO_THRESHOLD_MS ==> Shapes(chunks) == [Chunk(0, 0, durationMs, 0, 0)]
    {
      L.DefaultConfigurationIsValid();
      var planner := new L.Planner(L.DEFAULT_CONFIGURATION);
      var planned := planner.Plan(durationMs, []);
      var replaced := ReplaceChunkPlan(planned, available);
      phase := if replaced then Executing else Stopping;
    }

    predicate Replaceable()
      reads this
    {
      chunks != [] && EndMs(chunks) != durationMs && !Started(chunks)
    }

    // replaceChunkPlan
    method ReplaceChunkPlan(shapes: seq<Chunk>, available: bool) returns (ok: bool)
      requires Valid() && durationMs > 0 && (phase == Ready || phase == Executing)
      modifies `chunks, repository
      ensures Valid() && Respects(old(repository.View()), repository.View(), process, !stale, false)
      ensures ok ==> Shapes(repository.plan) == shapes && chunks == repository.plan && EndMs(chunks) == durationMs && NoneCompleted(chunks)
      ensures ok ==> repository.View() == Replaced(old(repository.View()), chunks, shapes)
      ensures !ok ==> chunks == old(chunks) && repository.View() == old(repository.View())
      ensures ok <==>
        && DurableGeometry(shapes) && !Started(old(chunks)) && available && old(repository.Fenced(token))
        && shapes[|shapes| - 1].endMs == durationMs
    {
      ok := false;
      var valid := ValidateDurableChunkGeometry(shapes);
      if !valid || (repository.recordingMs > 0 && shapes[|shapes| - 1].endMs != repository.recordingMs) {
        return;
      }
      var started := Coordinator.PlanHasStarted(chunks);
      if started {
        return;
      }
      ok := SaveNewPlan(shapes, available);
    }

    method SaveNewPlan(shapes: seq<Chunk>, available: bool) returns (ok: bool)
      requires Valid() && (phase == Ready || phase == Executing) && DurableGeometry(shapes) && !Started(chunks)
      requires durationMs > 0 && (repository.owner == token ==> shapes[|shapes| - 1].endMs == durationMs)
      modifies `chunks, repository
      ensures Valid() && Respects(old(repository.View()), repository.View(), process, !stale, false)
      ensures ok ==> Shapes(repository.plan) == shapes && repository.View() == Replaced(old(repository.View()), chunks, shapes)
      ensures ok ==> EndMs(chunks) == durationMs && NoneCompleted(chunks)
      ensures !ok ==> chunks == old(chunks) && repository.View() == old(repository.View())
      ensures ok <==> available && old(repository.Fenced(token))
    {
      var made;
      RangedPlan(shapes);
      ok, made := repository.ReplaceChunks(shapes, token, available);
      if ok {
        ReplacedIsSound(old(repository.View()), made, shapes);
        if !stale {
          UnstartedIsOpen(chunks, old(repository.plan));
        }
        chunks := made;
      }
    }

    // The plan of a speech analysis.
    method ReplacePlan(shapes: seq<Chunk>, available: bool)
      requires Valid()
      modifies this, repository
      ensures Valid() && Respects(old(repository.View()), repository.View(), process, !old(stale), false)
      ensures old(phase) != Executing ==> unchanged(this) && repository.View() == old(repository.View())
      ensures old(phase) == Executing ==> phase == Executing || phase == Stopping
      ensures stale == old(stale)
      ensures old(phase) == Executing && DurableGeometry(shapes) && !Started(old(chunks)) && available && old(repository.Fenced(token))
              && shapes[|shapes| - 1].endMs == old(durationMs) ==>
        phase == Executing && Shapes(chunks) == shapes && repository.View() == Replaced(old(repository.View()), chunks, shapes)
    {
      if phase != Executing {
        return;
      }
      var replaced := ReplaceChunkPlan(shapes, available);
      phase := if replaced then Executing else Stopping;
    }

    // beginChunk and completeChunk.
    method WriteChunk(ordinal: nat, to: ChunkState, available: bool)
      requires Valid()
      modifies this, repository
      ensures Valid()
      ensures Respects(old(repository.View()), repository.View(), process, !old(stale),
                       old(phase) == Executing && available && to == ChunkState.Completed)
      ensures phase == old(phase) && stale == old(stale) && token == old(token) && durationMs == old(durationMs)
      ensures phase == PlanKnown ==> chunks == old(chunks) && resumed == old(resumed)
      ensures !MayWrite(old(chunks), ordinal, to) ==> unchanged(this) && repository.View() == old(repository.View())
      ensures available && old(repository.Fenced(token)) && MayWrite(old(chunks), ordinal, to) && phase == Executing
              && ordinal < |old(repository.plan)| && old(repository.plan)[ordinal].id == old(chunks)[ordinal].id ==>
        && chunks == old(chunks)[ordinal := Written(old(chunks), ordinal, to)]
        && Written(old(chunks), ordinal, to).id.ordinal == ordinal
        && repository.View() == old(repository.View()).(plan := Updated(old(repository.plan), Written(old(chunks), ordinal, to)))
    {
      if phase != Executing || !MayWrite(chunks, ordinal, to) {
        return;
      }
      var updated := WriteCopy(ordinal, Written(chunks, ordinal, to), available);
    }

    // A completed chunk is never run again, and only a running one is completed.
    static predicate MayWrite(chunks: seq<JobChunk>, ordinal: nat, to: ChunkState) {
      && ordinal < |chunks|
      && ((to == Running && chunks[ordinal].state != ChunkState.Completed)
          || (to == ChunkState.Completed && chunks[ordinal].state == Running))
    }

    static function Written(chunks: seq<JobChunk>, ordinal: nat, to: ChunkState): JobChunk
      requires ordinal < |chunks|
    {
      chunks[ordinal].(state := to, attempts := chunks[ordinal].attempts + if to == Running then 1 else 0)
    }

    // The chunk write of interrupt and fail, for a running chunk of the copy, and of cancel, for an unfinished chunk
    // of the durable plan.
    method EndChunk(ordinal: nat, to: ChunkState, available: bool)
      requires Valid()
      modifies this, repository
      ensures Valid() && Respects(old(repository.View()), repository.View(), process, !old(stale), false)
      ensures phase == old(phase) || (HasToken(old(phase)) && phase == Stopping)
      ensures stale == old(stale) && (phase == PlanKnown ==> chunks == old(chunks) && resumed == old(resumed))
      ensures HasToken(old(phase)) && ordinal < |old(chunks)| && old(chunks)[ordinal].state == Running && ordinal < |old(repository.plan)|
              && old(repository.plan)[ordinal].id == old(chunks)[ordinal].id && available && old(repository.Fenced(token))
              && (to == ChunkState.Interrupted || to == ChunkState.Failed) ==>
        phase == Stopping && EndedAt(old(repository.plan), repository.plan, ordinal, to)
    {
      if !HasToken(phase) || ordinal >= |chunks| {
        return;
      }
      if to == ChunkState.Cancelled {
        CancelChunk(ordinal, available);
      } else if (to == ChunkState.Interrupted || to == ChunkState.Failed) && chunks[ordinal].state == Running {
        EndRunningChunk(ordinal, to, available);
      }
    }

    method EndRunningChunk(ordinal: nat, to: ChunkState, available: bool)
      requires Valid() && HasToken(phase) && ordinal < |chunks| && chunks[ordinal].state == Running
      requires to == ChunkState.Interrupted || to == ChunkState.Failed
      modifies `phase, `chunks, repository
      ensures Valid() && Respects(old(repository.View()), repository.View(), process, !stale, false) && phase == Stopping
      ensures ordinal < |old(repository.plan)| && old(repository.plan)[ordinal].id == old(chunks)[ordinal].id && available
              && old(repository.Fenced(token)) ==>
        EndedAt(old(repository.plan), repository.plan, ordinal, to)
    {
      StoppingIsSound(Seen(), repository.View());
      phase := Stopping;
      var updated := WriteCopy(ordinal, chunks[ordinal].(state := to), available);
    }

    method CancelChunk(ordinal: nat, available: bool)
      requires Valid() && HasToken(phase) && ordinal < |chunks|
      modifies this, repository
      ensures Valid() && Respects(old(repository.View()), repository.View(), process, !old(stale), false)
      ensures phase == old(phase) || phase == Stopping
      ensures stale == old(stale)
    {
      if ordinal >= |repository.plan| || !NeedsCancelling(repository.plan[ordinal].state) {
        return;
      }
      phase := Stopping;
      CancelOpenChunk(ordinal, available);
    }

    // The session ends after this; its copy takes over the state.
    method CancelOpenChunk(ordinal: nat, available: bool)
      requires Valid() && phase == Stopping && ordinal < |chunks| && ordinal < |repository.plan|
      requires repository.plan[ordinal].state != ChunkState.Completed
      modifies `chunks, repository
      ensures Valid() && Respects(old(repository.View()), repository.View(), process, !stale, false)
    {
      var chunk := repository.plan[ordinal].(state := ChunkState.Cancelled);
      var own := chunks[ordinal].(state := ChunkState.Cancelled, attempts := chunk.attempts);
      assert IdentifiedAt(repository.plan, ordinal);
      CopyOfChunk(chunks, ordinal, own);
      var updated := repository.UpdateChunk(chunk, token, available);
      if updated {
        assert Updated(old(repository.plan), chunk) == Updated(old(repository.plan), own);
        WrittenPlanIsSound(Seen(), old(repository.View()), ordinal, own, chunk);
        WrittenCopyIsSound(Seen(), old(repository.View()), ordinal, own, chunk);
        chunks := chunks[ordinal := own];
      }
    }

    // transitionTo
    method TransitionTo(to: JobState, available: bool) returns (ok: bool)
      requires Valid()
      modifies repository
      ensures Valid() && Respects(old(repository.View()), repository.View(), process, true, false)
      ensures repository.View() == if ok then Moved(old(repository.View()), to) else old(repository.View())
      ensures available && old(repository.Fenced(token)) && CanTransition(old(repository.state), to) && to != JobState.Completed ==> ok
    {
      ok := false;
      if token != NoToken && to != JobState.Completed {
        ok := repository.Transition(to, token, available);
      }
    }

    // complete, up to the check that every durable chunk is completed
    method CheckAllCompleted(available: bool)
      requires Valid()
      modifies `phase
      ensures Valid()
      ensures old(phase) == Executing && available ==>
        (phase == AllChecked <==> CompletedUpTo(repository.plan, |repository.plan|))
      ensures phase == old(phase) || (old(phase) == Executing && phase == AllChecked)
    {
      if phase != Executing || !available {
        return;
      }
      for k := 0 to |repository.plan|
        invariant CompletedUpTo(repository.plan, k)
      {
        if repository.plan[k].state != ChunkState.Completed {
          assert !CompletedAt(repository.plan, k);
          return;
        }
        assert CompletedAt(repository.plan, k);
      }
      phase := AllChecked;
    }

    // When the job completes, every millisecond of its plan lies in a completed chunk, and every millisecond of the
    // audio does exactly if the plan reaches its end, as it does if it is still the one that the session has a copy of.
    method Complete(available: bool)
      requires Valid()
      modifies this, repository
      ensures Valid() && Respects(old(repository.View()), repository.View(), process, !old(stale), false)
      ensures repository.state == JobState.Completed && old(repository.state) != JobState.Completed ==>
        && phase == NoSession && CompletedUpTo(repository.plan, |repository.plan|)
        && repository.View() == old(repository.View()).(state := JobState.Completed, owner := NoToken)
        && repository.recordingMs == old(durationMs) > 0 && old(chunks) != []
        && (TranscribedUpTo(repository.plan, old(durationMs)) <==> EndMs(repository.plan) >= old(durationMs))
        && (!old(stale) ==> repository.plan[0].id == old(chunks)[0].id)
        && (repository.plan[0].id == old(chunks)[0].id ==> TranscribedUpTo(repository.plan, old(durationMs)))
      ensures old(phase) == AllChecked && available && old(repository.Fenced(token)) && old(repository.state) == Finalizing ==>
        repository.state == JobState.Completed
      ensures phase != PlanKnown || unchanged(this)
      ensures stale ==> old(stale)
    {
      if phase != AllChecked {
        return;
      }
      var completed := repository.CompleteAndActivate(token, available);
      if completed {
        assert CompletedAt(repository.plan, 0) && (!stale ==> KeptAt(repository.plan, chunks, 0));
        if repository.plan[0].id == chunks[0].id {
          OneIdentifierOnePlan(chunks, repository.plan, repository.plans, 0);
        }
        EverythingIsTranscribed(repository.View(), durationMs);
        Leave();
      }
    }

    // The step may complete a chunk.
    static predicate Completes(action: CliAction, available: bool) {
      action.Write? && action.chunkState == ChunkState.Completed && available
    }

    static function MeasuredBy(action: CliAction, available: bool): Option<int> {
      if action.PersistLength? then Measured(action.normalizedMs, available) else None
    }

    method Act(action: CliAction, available: bool)
      requires Valid()
      modifies this, repository
      ensures Valid() && CliActed(old(Seen()), Seen(), action, available, old(repository.View()), repository.View())
    {
      match action
      case New(shapes) => BeginNew(shapes, available);
      case Snapshot => LoadSnapshot(available);
      case Claim(busy) => ClaimJob(busy, available);
      case Check => CheckAllCompleted(available);
      case Finish => Complete(available);
      case Exit => Leave();
      case _ => ActOnJob(action, available);
    }

    method ActOnJob(action: CliAction, available: bool)
      requires Valid() && !action.Exit?
      modifies this, repository
      ensures Valid() && CliActed(old(Seen()), Seen(), action, available, old(repository.View()), repository.View())
      ensures stale ==> old(stale)
    {
      match action {
        case Resume => ResetNext(available);
        case PersistLength(normalizedMs) => PersistDuration(normalizedMs, available);
        case CheckLength(reachedTranscription) => CheckPlan(reachedTranscription, available);
        case SpeechPlanned(shapes) => ReplacePlan(shapes, available);
        case Write(ordinal, chunkState) => WriteChunk(ordinal, chunkState, available);
        case EndChunkAs(ordinal, chunkState) => EndChunk(ordinal, chunkState, available);
        case Transition(to) =>
          var ok := TransitionTo(to, available);
        case _ =>
      }
    }

    // The session ended or the process crashed.
    method Leave()
      modifies `token, `phase, `stale, `durationMs
      ensures token == NoToken && phase == NoSession && !stale && durationMs == 0
    {
      token, phase, stale, durationMs := NoToken, NoSession, false, 0;
    }
  }

  // Where the copy of a resumption that waits for its claim comes from.
  predicate CopyFollows(before: CliSession, after: CliSession, action: CliAction, available: bool, plan: seq<JobChunk>) {
    after.phase == PlanKnown && after.resumed ==>
      || (before.phase == PlanKnown && before.resumed && after.chunks == before.chunks && !action.Exit?)
      || (action.Snapshot? && available && after.chunks == plan)
  }

  // A resumption claims the job, and a chunk is completed that its copy does not show.
  predicate BecomesStale(before: CliSession, action: CliAction, available: bool, plan: seq<JobChunk>) {
    action.Claim? && available && before.phase == PlanKnown && before.resumed && !Keeps(plan, before.chunks)
  }

  // A step of a session. Only one with a current copy is sure to undo no completion.
  predicate CliActed(before: CliSession, after: CliSession, action: CliAction, available: bool, d: Durable, d': Durable) {
    && Allowed(d, d', before.process, !before.stale,
               before.phase == Executing && CliTranscriptionPersistence.Completes(action, available),
               CliTranscriptionPersistence.MeasuredBy(action, available))
    && CopyFollows(before, after, action, available, d'.plan)
    && (after.stale && !before.stale ==> BecomesStale(before, action, available, d.plan))
  }
}
