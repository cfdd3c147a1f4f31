// The durable side of a transcription job: src/jobs/SqliteJobRepository.cpp, with the lease of
// src/database/DatabaseManager.cpp and the recording's length of src/database/SqliteRecordingRepository.cpp. Any
// number of desktop and command-line processes share the repository.

module Jobs {
  import opened Outcomes
  import opened ChunkPlan

  // Owner tokens are UUIDs: no two processes draw the same one, and no process draws one twice.
  datatype Token = NoToken | Token(process: nat, serial: nat)

  datatype ChunkId = ChunkId(revision: nat, ordinal: nat)

  datatype JobChunk = JobChunk(id: ChunkId, shape: Chunk, state: ChunkState, attempts: nat)

  datatype JobState =
    Queued | Preparing | Normalizing | AnalyzingSpeech | WaitingForModel | LoadingModel | Transcribing | Finalizing
    | Cancelling | Cancelled | Interrupted | Failed | Completed

  // JobStateMachine::canTransition
  predicate CanTransition(from: JobState, to: JobState) {
    || from == to
    || match from {
         case Queued => to in {Preparing, JobState.Cancelled}
         case Preparing => to in {Normalizing, AnalyzingSpeech, WaitingForModel, LoadingModel} || Ends(to)
         case Normalizing => to in {WaitingForModel, LoadingModel, AnalyzingSpeech} || Ends(to)
         case WaitingForModel => to == LoadingModel || Ends(to)
         case LoadingModel => to in {AnalyzingSpeech, Transcribing} || Ends(to)
         case AnalyzingSpeech => to in {WaitingForModel, LoadingModel, Transcribing} || Ends(to)
         case Transcribing => to == Finalizing || Ends(to)
         case Finalizing => to == JobState.Completed || Ends(to)
         case Cancelling => to == JobState.Cancelled
         case Interrupted => to in {Queued, JobState.Cancelled}
         case Failed => to == Queued
         case Cancelled => to == Queued
         case Completed => false
       }
  }

  predicate Ends(to: JobState) {
    to in {Cancelling, JobState.Failed, JobState.Interrupted}
  }

  predicate IsTerminal(state: JobState) {
    state in {JobState.Completed, JobState.Cancelled, JobState.Failed}
  }

  predicate IsRunning(state: JobState) {
    state != Queued && !IsTerminal(state) && state != JobState.Interrupted
  }

  function Shapes(plan: seq<JobChunk>): seq<Chunk> {
    seq(|plan|, k requires 0 <= k < |plan| => plan[k].shape)
  }

  predicate Ranged(c: Chunk, index: nat) {
    c.ordinal == index && 0 <= c.startMs < c.endMs
  }

  predicate AllRanged(shapes: seq<Chunk>) {
    forall k {:trigger shapes[k]} :: 0 <= k < |shapes| ==> Ranged(shapes[k], k)
  }

  predicate Identified(plan: seq<JobChunk>) {
    forall k {:trigger IdentifiedAt(plan, k)} :: 0 <= k < |plan| ==> IdentifiedAt(plan, k)
  }

  predicate IdentifiedAt(plan: seq<JobChunk>, k: nat)
    requires k < |plan|
  {
    plan[k].id == ChunkId(plan[0].id.revision, k)
  }

  predicate PlanSound(plan: seq<JobChunk>) {
    Identified(plan) && (plan != [] ==> DurableGeometry(Shapes(plan)))
  }

  predicate CompletedUpTo(plan: seq<JobChunk>, n: int) {
    n <= |plan| && forall k {:trigger CompletedAt(plan, k)} :: 0 <= k < n ==> CompletedAt(plan, k)
  }

  predicate CompletedAt(plan: seq<JobChunk>, k: nat)
    requires k < |plan|
  {
    plan[k].state == ChunkState.Completed
  }

  predicate Transcribed(plan: seq<JobChunk>, t: int) {
    exists k :: 0 <= k < |plan| && plan[k].state == ChunkState.Completed && plan[k].shape.Holds(t)
  }

  predicate TranscribedUpTo(plan: seq<JobChunk>, lengthMs: int) {
    forall t :: 0 <= t < lengthMs ==> Transcribed(plan, t)
  }

  predicate NoneCompleted(plan: seq<JobChunk>) {
    forall k {:trigger CompletedAt(plan, k)} :: 0 <= k < |plan| ==> !CompletedAt(plan, k)
  }

  // A job is put into the desktop's queue, or a command-line process creates it, hidden from that queue.
  datatype Origin = Desktop | CommandLine(process: nat)

  // What the database holds of the job and of its recording's length; and the least length that was ever recorded, and
  // every plan that was ever saved. started: the job has been claimed.
  datatype Durable = Durable(plan: seq<JobChunk>, state: JobState, owner: Token, started: bool, recordingMs: int,
                             leastMs: Option<int>, plans: seq<seq<Chunk>>, origin: Origin)

  predicate Sound(d: Durable) {
    && PlanSound(d.plan) && Known(d.plan, d.plans)
    && (d.owner.Token? ==> IsRunning(d.state))
    && (d.state != Queued && d.state != JobState.Cancelled ==> d.started)
    && (d.started && d.origin.CommandLine? ==> d.plan != [])
    && (d.state == JobState.Completed ==> d.plan != [] && CompletedUpTo(d.plan, |d.plan|))
    && (NoneCompleted(d.plan) || Reaches(d.plan, d.leastMs))
  }

  // A plan of which a chunk is completed ends no earlier than the shortest length that was ever recorded.
  predicate Reaches(plan: seq<JobChunk>, leastMs: Option<int>) {
    plan != [] && leastMs.Some? && leastMs.value <= EndMs(plan)
  }

  predicate LeastAtMost(leastMs: Option<int>, durationMs: int) {
    leastMs.Some? && leastMs.value <= durationMs
  }

  predicate NotBelow(ms: Option<int>, lengthMs: int) {
    ms.Some? ==> ms.value >= lengthMs
  }

  // A positive length that a process measured, if the database accepts it.
  function Measured(durationMs: int, available: bool): Option<int> {
    if durationMs > 0 && available then Some(durationMs) else None
  }

  function Lower(leastMs: Option<int>, durationMs: int): Option<int> {
    Some(if leastMs.Some? then Min(leastMs.value, durationMs) else durationMs)
  }

  // Identifiers are UUIDs, drawn anew for every plan: chunks with the identifiers of a saved plan have its shape.
  predicate Known(chunks: seq<JobChunk>, plans: seq<seq<Chunk>>) {
    chunks != [] ==> chunks[0].id.revision < |plans| && plans[chunks[0].id.revision] == Shapes(chunks)
  }

  lemma {:induction false} OneIdentifierOnePlan(a: seq<JobChunk>, b: seq<JobChunk>, plans: seq<seq<Chunk>>, k: nat)
    requires Identified(a) && Identified(b) && Known(a, plans) && Known(b, plans)
    requires k < |a| && k < |b| && a[k].id == b[k].id
    ensures SamePlan(a, b) && EndMs(a) == EndMs(b)
  {
    assert IdentifiedAt(a, k) && IdentifiedAt(b, k) && Shapes(a) == Shapes(b);
    forall i | 0 <= i < |a| ensures a[i].id == b[i].id && a[i].shape == b[i].shape {
      assert IdentifiedAt(a, i) && IdentifiedAt(b, i) && Shapes(a)[i] == Shapes(b)[i];
    }
  }

  function EndMs(plan: seq<JobChunk>): int
    requires plan != []
  {
    plan[|plan| - 1].shape.endMs
  }

  // A completed job leaves no millisecond of its plan untranscribed, and none before the shortest length that was ever
  // recorded of its audio.
  lemma {:induction false} NothingIsLeftOut(d: Durable, t: int)
    requires Sound(d) && d.state == JobState.Completed && 0 <= t
    requires t < EndMs(d.plan) || (d.leastMs.Some? && t < d.leastMs.value)
    ensures Transcribed(d.plan, t) && d.leastMs.Some?
  {
    assert CompletedAt(d.plan, 0);
    var shapes := Shapes(d.plan);
    EveryMillisecondIsPlanned(shapes, |shapes| - 1, t);
    var k :| 0 <= k <= |shapes| - 1 && shapes[k].Holds(t);
    assert CompletedAt(d.plan, k) && d.plan[k].shape.Holds(t);
  }

  // A completed job has a length of audio transcribed exactly if its plan reaches that far.
  lemma {:induction false} EverythingIsTranscribed(d: Durable, lengthMs: int)
    requires Sound(d) && d.state == JobState.Completed
    ensures lengthMs > 0 ==> (TranscribedUpTo(d.plan, lengthMs) <==> EndMs(d.plan) >= lengthMs)
    ensures TranscribedUpTo(d.plan, EndMs(d.plan)) && d.leastMs.Some? && TranscribedUpTo(d.plan, d.leastMs.value)
  {
    assert CompletedAt(d.plan, 0);
    forall t | 0 <= t && (t < EndMs(d.plan) || t < d.leastMs.value) ensures Transcribed(d.plan, t) {
      NothingIsLeftOut(d, t);
    }
    if lengthMs > 0 && TranscribedUpTo(d.plan, lengthMs) {
      assert Transcribed(d.plan, lengthMs - 1);
      var k :| 0 <= k < |d.plan| && CompletedAt(d.plan, k) && d.plan[k].shape.Holds(lengthMs - 1);
      EndsStayWithinTheLast(Shapes(d.plan), k);
    }
  }

  // What is completed stays completed, for the same stretch of audio.
  predicate Keeps(before: seq<JobChunk>, after: seq<JobChunk>) {
    forall k {:trigger KeptAt(before, after, k)} :: 0 <= k < |before| && CompletedAt(before, k) ==> KeptAt(before, after, k)
  }

  predicate KeptAt(before: seq<JobChunk>, after: seq<JobChunk>, k: nat)
    requires k < |before|
  {
    k < |after| && after[k].id == before[k].id && after[k].shape == before[k].shape && CompletedAt(after, k)
  }

  lemma {:induction false} KeepsOn(a: seq<JobChunk>, b: seq<JobChunk>, c: seq<JobChunk>)
    requires Keeps(a, b) && Keeps(b, c)
    ensures Keeps(a, c)
  {
    forall k | 0 <= k < |a| && CompletedAt(a, k) ensures KeptAt(a, c, k) {
      assert KeptAt(a, b, k) && KeptAt(b, c, k);
    }
  }

  // The same chunks, whatever their states.
  predicate SamePlan(a: seq<JobChunk>, b: seq<JobChunk>) {
    |a| == |b| && forall k {:trigger a[k]} {:trigger b[k]} :: 0 <= k < |a| ==> a[k].id == b[k].id && a[k].shape == b[k].shape
  }

  lemma {:induction false} SamePlanIsSound(a: seq<JobChunk>, b: seq<JobChunk>, plans: seq<seq<Chunk>>)
    requires SamePlan(a, b) && PlanSound(a)
    ensures PlanSound(b) && Shapes(b) == Shapes(a) && (a != [] ==> EndMs(b) == EndMs(a))
    ensures Known(a, plans) ==> Known(b, plans)
  {
    assert Shapes(a) == Shapes(b);
    forall k | 0 <= k < |b| ensures IdentifiedAt(b, k) {
      assert IdentifiedAt(a, k) && IdentifiedAt(a, 0);
    }
  }

  predicate Overwrites(plan: seq<JobChunk>, chunk: JobChunk) {
    && chunk.id.ordinal < |plan| && plan[chunk.id.ordinal].id == chunk.id
    && plan[chunk.id.ordinal].state == ChunkState.Completed && chunk.state != ChunkState.Completed
  }

  // A chunk update undoes a completion exactly if it writes another state over it.
  lemma {:induction false} UpdateKeepsIff(plan: seq<JobChunk>, chunk: JobChunk)
    requires chunk.id.ordinal < |plan|
    ensures Keeps(plan, Updated(plan, chunk)) <==>
      (plan[chunk.id.ordinal].state == ChunkState.Completed ==> chunk.state == ChunkState.Completed)
  {
    var updated := Updated(plan, chunk);
    assert CompletedAt(plan, chunk.id.ordinal) && Keeps(plan, updated) ==> KeptAt(plan, updated, chunk.id.ordinal);
  }

  function Updated(plan: seq<JobChunk>, chunk: JobChunk): seq<JobChunk>
    requires chunk.id.ordinal < |plan|
  {
    plan[chunk.id.ordinal := plan[chunk.id.ordinal].(state := chunk.state, attempts := chunk.attempts)]
  }

  // The lease holder's update of a chunk; it completes one only if the plan reaches far enough.
  lemma {:induction false} UpdateIsSound(d: Durable, chunk: JobChunk)
    requires Sound(d) && d.owner.Token? && chunk.id.ordinal < |d.plan|
    requires chunk.state == ChunkState.Completed ==> Reaches(d.plan, d.leastMs)
    ensures Sound(d.(plan := Updated(d.plan, chunk)))
    ensures chunk.state != ChunkState.Completed ==> Keeps(Updated(d.plan, chunk), d.plan)
  {
    var updated := Updated(d.plan, chunk);
    SamePlanIsSound(d.plan, updated, d.plans);
    assert forall k :: 0 <= k < |updated| && chunk.state != ChunkState.Completed && CompletedAt(updated, k) ==> CompletedAt(d.plan, k);
  }

  // Unfinished chunks of a job whose lease expired; completed ones are preserved.
  function Recovered(plan: seq<JobChunk>, cancelling: bool): (r: seq<JobChunk>)
    ensures |r| == |plan|
    ensures forall k :: 0 <= k < |plan| && plan[k].state == ChunkState.Completed ==> r[k] == plan[k]
  {
    seq(|plan|, k requires 0 <= k < |plan| =>
      if cancelling && NeedsCancelling(plan[k].state) then plan[k].(state := ChunkState.Cancelled)
      else if !cancelling && plan[k].state == Running then plan[k].(state := ChunkState.Interrupted)
      else plan[k])
  }

  function RecoveredState(state: JobState): JobState {
    if state == Cancelling then JobState.Cancelled else JobState.Interrupted
  }

  lemma {:induction false} RecoveryIsSound(d: Durable)
    requires Sound(d) && d.owner == NoToken && IsRunning(d.state)
    ensures
      var recovered := Recovered(d.plan, d.state == Cancelling);
      && Sound(d.(plan := recovered, state := RecoveredState(d.state)))
      && Keeps(d.plan, recovered) && Keeps(recovered, d.plan)
  {
    var recovered := Recovered(d.plan, d.state == Cancelling);
    SamePlanIsSound(d.plan, recovered, d.plans);
    forall k | 0 <= k < |recovered| && CompletedAt(recovered, k) ensures KeptAt(recovered, d.plan, k) {
    }
  }

  predicate EndedAt(before: seq<JobChunk>, after: seq<JobChunk>, k: int, to: ChunkState) {
    0 <= k < |before| == |after| && after == before[k := after[k]] && after[k].state == to
  }

  predicate Respects(before: Durable, after: Durable, process: nat, current: bool, completes: bool) {
    Allowed(before, after, process, current, completes, None)
  }

  // What a step of one process may do to the others: the plan and the recording are the lease holder's own, and only
  // the creator of a hidden job is the first to claim it; no step empties a plan; a process with a current copy undoes
  // no completion, and only a step that completes a chunk adds one; and only measured lengths are recorded.
  predicate Allowed(before: Durable, after: Durable, process: nat, current: bool, completes: bool, measured: Option<int>) {
    && (after.owner.Token? && after.owner.process != process ==>
        before.owner == after.owner && before.plan == after.plan && before.recordingMs == after.recordingMs)
    && (before.plan != [] ==> after.plan != [])
    && (current ==> Keeps(before.plan, after.plan))
    && (!completes ==> Keeps(after.plan, before.plan))
    && Grows(before, after)
    && (after.leastMs == before.leastMs || (measured.Some? && after.leastMs == Lower(before.leastMs, measured.value)))
    && (after.started && !before.started ==> before.origin == Desktop || before.origin == CommandLine(process))
  }

  // What no step undoes. Nobody changes the plan of a job that has not been claimed.
  predicate Grows(before: Durable, after: Durable) {
    && before.origin == after.origin && before.plans <= after.plans
    && (before.started ==> after.started)
    && (!before.started && before.plan != [] ==> after.plan == before.plan)
  }

  function Recorded(d: Durable, durationMs: int): Durable {
    d.(recordingMs := durationMs, leastMs := Lower(d.leastMs, durationMs))
  }

  function Replaced(d: Durable, made: seq<JobChunk>, shapes: seq<Chunk>): Durable {
    d.(plan := made, plans := d.plans + [shapes])
  }

  // The job in its next state; an ended job has no owner.
  function Moved(d: Durable, to: JobState): Durable {
    d.(state := to, owner := if d.state != to && (IsTerminal(to) || to == JobState.Interrupted) then NoToken else d.owner)
  }

  lemma {:induction false} MovedIsSound(d: Durable, to: JobState, process: nat)
    requires Sound(d) && CanTransition(d.state, to) && to != JobState.Completed
    requires (d.owner.Token? && d.owner.process == process) || to in {Cancelling, JobState.Cancelled, Queued}
    ensures Sound(Moved(d, to)) && Respects(d, Moved(d, to), process, true, false)
  {
  }

  class JobRepository {
    const origin: Origin
    var plan: seq<JobChunk>
    var state: JobState
    var owner: Token
    var started: bool
    var recordingMs: int
    var plans: seq<seq<Chunk>>
    ghost var leastMs: Option<int>

    ghost function View(): Durable
      reads this
    {
      Durable(plan, state, owner, started, recordingMs, leastMs, plans, origin)
    }

    // The job as it is enqueued.
    constructor (origin: Origin)
      ensures View() == Durable([], Queued, NoToken, false, 0, None, [], origin)
    {
      this.origin := origin;
      plan, state, owner, started, recordingMs, leastMs, plans := [], Queued, NoToken, false, 0, None, [];
    }

    // claimQueued, claimNextQueued
    method Claim(token: Token, available: bool) returns (claimed: bool)
      modifies `state, `owner, `started
      ensures View() == if claimed then old(View()).(state := Preparing, owner := token, started := true) else old(View())
      ensures claimed <==> available && old(state) == Queued && old(owner) == NoToken
    {
      claimed := available && state == Queued && owner == NoToken;
      if claimed {
        state, owner, started := Preparing, token, true;
      }
    }

    // executionLeaseTransaction: a write needs the current token; an empty one never matches.
    predicate Fenced(token: Token)
      reads this
    {
      token != NoToken && owner == token
    }

    // The recording's update, which is fenced like every write of a running job.
    method UpdateRecording(durationMs: int, token: Token, available: bool) returns (ok: bool)
      modifies `recordingMs, `leastMs
      ensures ok <==> available && Fenced(token)
      ensures View() == if ok then Recorded(old(View()), durationMs) else old(View())
    {
      ok := available && Fenced(token);
      if ok {
        recordingMs, leastMs := durationMs, Lower(leastMs, durationMs);
      }
    }

    // A first plan can be created without the lease, once, while the job is queued.
    predicate MayReplace(token: Token)
      reads this
    {
      if token == NoToken then state == Queued && plan == [] else Fenced(token)
    }

    // The chunks get identifiers that no plan had before.
    method ReplaceChunks(shapes: seq<Chunk>, token: Token, available: bool) returns (ok: bool, made: seq<JobChunk>)
      modifies `plan, `plans
      ensures made == MakeJobChunks(|old(plans)|, shapes)
      ensures View() == if ok then Replaced(old(View()), made, shapes) else old(View())
      ensures ok <==> available && AllRanged(shapes) && old(MayReplace(token))
    {
      ok, made := false, MakeJobChunks(|plans|, shapes);
      for i := 0 to |shapes|
        invariant forall k :: 0 <= k < i ==> Ranged(shapes[k], k)
      {
        if shapes[i].ordinal != i || shapes[i].startMs < 0 || shapes[i].endMs <= shapes[i].startMs {
          return;
        }
      }
      ok := available && MayReplace(token);
      if ok {
        plan, plans := made, plans + [shapes];
      }
    }

    // Only the state and the attempts of a chunk change, never its range.
    method UpdateChunk(chunk: JobChunk, token: Token, available: bool) returns (ok: bool)
      requires Identified(plan)
      modifies `plan
      ensures ok ==>
        available && old(Fenced(token)) && chunk.id.ordinal < |old(plan)| && old(plan)[chunk.id.ordinal].id == chunk.id
      ensures ok ==> View() == old(View()).(plan := Updated(old(plan), chunk))
      ensures !ok ==> View() == old(View())
      ensures available && old(Fenced(token)) && chunk.id.ordinal < |old(plan)| && old(plan)[chunk.id.ordinal].id == chunk.id ==> ok
    {
      if !available || !Fenced(token) {
        return false;
      }
      for k := 0 to |plan|
        invariant View() == old(View())
        invariant chunk.id.ordinal < k ==> plan[chunk.id.ordinal].id != chunk.id
      {
        if plan[k].id == chunk.id {
          assert IdentifiedAt(plan, k);
          plan := plan[k := plan[k].(state := chunk.state, attempts := chunk.attempts)];
          return true;
        }
      }
      ok := false;
    }

    // Without a token only a cancellation or a new place in the queue can be requested.
    method Transition(to: JobState, token: Token, available: bool) returns (ok: bool)
      modifies `state, `owner
      ensures View() == if ok then Moved(old(View()), to) else old(View())
      ensures ok ==> CanTransition(old(state), to)
      ensures ok ==> if token == NoToken then to in {Cancelling, JobState.Cancelled, Queued} else old(Fenced(token))
      ensures available && token != NoToken && old(Fenced(token)) && CanTransition(old(state), to) ==> ok
      ensures available && token == NoToken && to == Queued && old(state) in {JobState.Interrupted, JobState.Failed} ==> ok
    {
      if token == NoToken {
        var cancellationRequest := to == Cancelling && IsRunning(state);
        var cancelWithoutExecutor := to == JobState.Cancelled && (state == Queued || state == JobState.Interrupted);
        var queueRequest := to == Queued && (state == JobState.Interrupted || state == JobState.Failed || state == JobState.Cancelled);
        if !cancellationRequest && !cancelWithoutExecutor && !queueRequest {
          return false;
        }
      } else if !Fenced(token) {
        return false;
      }
      if !available || !CanTransition(state, to) {
        return false;
      }
      ok := true;
      if state == to {
        return;
      }
      state := to;
      if IsTerminal(to) || to == JobState.Interrupted {
        owner := NoToken;
      }
    }

    method CompleteAndActivate(token: Token, available: bool) returns (ok: bool)
      modifies `state, `owner
      ensures ok <==> available && old(Fenced(token)) && old(state) == Finalizing
      ensures View() == if ok then old(View()).(state := JobState.Completed, owner := NoToken) else old(View())
    {
      if !available || !Fenced(token) || state != Finalizing {
        return false;
      }
      state, owner := JobState.Completed, NoToken;
      ok := true;
    }

    // The lease ran out, and later somebody noticed.
    method ExpireLease()
      modifies `owner
      ensures View() == old(View()).(owner := NoToken)
    {
      owner := NoToken;
    }

    method RecoverAfterExpiry()
      requires Sound(View())
      modifies `state, `plan
      ensures Sound(View()) && Keeps(old(plan), plan) && Keeps(plan, old(plan))
      ensures View() ==
        if owner == NoToken && IsRunning(old(state))
        then old(View()).(plan := Recovered(old(plan), old(state) == Cancelling), state := RecoveredState(old(state)))
        else old(View())
    {
      if owner == NoToken && IsRunning(state) {
        RecoveryIsSound(View());
        plan, state := Recovered(plan, state == Cancelling), RecoveredState(state);
      }
    }
  }

  // makeJobChunks
  function MakeJobChunks(revision: nat, shapes: seq<Chunk>): (chunks: seq<JobChunk>)
  {
    seq(|shapes|, k requires 0 <= k < |shapes| => JobChunk(ChunkId(revision, k), shapes[k], Pending, 0))
  }

  lemma {:induction false} RangedPlan(shapes: seq<Chunk>)
    requires DurableGeometry(shapes)
    ensures AllRanged(shapes)
  {
    forall k | 0 <= k < |shapes| ensures Ranged(shapes[k], k) {
      assert SoundAt(shapes, k);
    }
  }

  // The lease holder's new plan, or the first one.
  lemma {:induction false} ReplacedIsSound(d: Durable, made: seq<JobChunk>, shapes: seq<Chunk>)
    requires Sound(d) && DurableGeometry(shapes) && made == MakeJobChunks(|d.plans|, shapes)
    requires d.owner.Token? || d.state == Queued
    ensures made != [] && PlanSound(made) && Shapes(made) == shapes && EndMs(made) == shapes[|shapes| - 1].endMs
    ensures NoneCompleted(made) && Sound(Replaced(d, made, shapes))
  {
    assert Shapes(made) == shapes;
    forall k | 0 <= k < |made| ensures IdentifiedAt(made, k) && !CompletedAt(made, k) {
    }
  }
}
