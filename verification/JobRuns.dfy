// Whole runs of one transcription job: the steps of any number of desktop and command-line processes, of the user, of
// the lease and of the recovery, in any order.

module JobRuns {
  import opened Outcomes
  import opened ChunkPlan
  import opened Jobs
  import opened ChunkPipeline
  import opened CliTranscription

  // available: the database accepts the transaction of the step.
  datatype Event =
    | Gui(process: nat, gui: GuiAction, available: bool)
    | Cli(process: nat, cli: CliAction, available: bool)
    | UserWants(to: JobState, available: bool)
    | LeaseExpires
    | Recovery

  ghost predicate AllSound(repository: JobRepository, guis: seq<Coordinator>, clis: seq<CliTranscriptionPersistence>)
    reads repository, guis, clis
  {
    && Sound(repository.View())
    && (forall i :: 0 <= i < |guis| ==>
        guis[i].repository == repository && guis[i].process == i && SessionSound(guis[i].Seen(), repository.View()))
    && (forall i :: 0 <= i < |clis| ==>
        && clis[i].repository == repository && clis[i].process == |guis| + i
        && CliSound(clis[i].Seen(), repository.View()) && clis[i].ResumingSound())
  }

  // ---- Copies that are out of date when they are claimed.

  // A resumption of session p takes its copy of the plan.
  predicate TakesCopy(e: Event, p: nat) {
    e.Cli? && e.process == p && e.cli.Snapshot? && e.available
  }

  predicate ClaimsJob(e: Event, p: nat) {
    e.Cli? && e.process == p && e.cli.Claim? && e.available
  }

  predicate Exits(e: Event, p: nat) {
    e.Cli? && e.process == p && e.cli.Exit?
  }

  // Another process than session p completes a chunk.
  predicate CompletesElsewhere(e: Event, p: nat) {
    match e
    case Gui(_, gui, available) => Coordinator.Completes(gui, available)
    case Cli(process, cli, available) => process != p && CliTranscriptionPersistence.Completes(cli, available)
    case _ => false
  }

  // A resumption takes its copy at event j, another process completes a chunk at event k, and then the resumption claims
  // the job with its copy.
  predicate Overtakes(events: seq<Event>, p: nat, j: nat, k: nat, i: nat) {
    && j < k < i < |events|
    && TakesCopy(events[j], p) && CompletesElsewhere(events[k], p) && ClaimsJob(events[i], p)
    && (forall n :: j < n < i ==> !Exits(events[n], p))
  }

  ghost predicate NoCopyIsOvertaken(events: seq<Event>) {
    !exists p: nat, j: nat, k: nat, i: nat :: Overtakes(events, p, j, k, i)
  }

  // The copy of a resumption that waits after n events was taken at event j, and shows what is completed unless another
  // process has completed a chunk since.
  predicate TakenAt(events: seq<Event>, n: nat, p: nat, chunks: seq<JobChunk>, plan: seq<JobChunk>, j: nat) {
    && j < n <= |events| && TakesCopy(events[j], p)
    && (forall m :: j < m < n ==> !Exits(events[m], p))
    && (Keeps(plan, chunks) || exists k :: j < k < n && CompletesElsewhere(events[k], p))
  }

  predicate Waiting(events: seq<Event>, n: nat, seen: seq<CliSession>, plan: seq<JobChunk>, taken: seq<nat>) {
    && |taken| == |seen|
    && forall p :: 0 <= p < |seen| && seen[p].phase == PlanKnown && seen[p].resumed ==>
        TakenAt(events, n, p, seen[p].chunks, plan, taken[p])
  }

  // What an event does to session p: only its own steps move it, only a claim makes its copy stale, and no chunk is
  // completed unless a session does it.
  predicate CliMoved(event: Event, p: nat, before: CliSession, after: CliSession, d: Durable, d': Durable) {
    if event.Cli? && event.process == p then
      && CopyFollows(before, after, event.cli, event.available, d'.plan)
      && (after.stale && !before.stale ==> BecomesStale(before, event.cli, event.available, d.plan))
      && (before.phase == PlanKnown ==> Keeps(d'.plan, d.plan))
    else after == before && (CompletesElsewhere(event, p) || Keeps(d'.plan, d.plan))
  }

  lemma {:induction false} StillTaken(events: seq<Event>, n: nat, p: nat, before: CliSession, after: CliSession, d: Durable,
                                      d': Durable, j: nat) returns (j': nat)
    requires n < |events| && CliMoved(events[n], p, before, after, d, d')
    requires before.phase == PlanKnown && before.resumed ==> TakenAt(events, n, p, before.chunks, d.plan, j)
    ensures after.phase == PlanKnown && after.resumed ==> TakenAt(events, n + 1, p, after.chunks, d'.plan, j')
    ensures after.stale && !before.stale ==> !NoCopyIsOvertaken(events)
  {
    if after.stale && !before.stale {
      var k :| j < k < n && CompletesElsewhere(events[k], p);
      assert Overtakes(events, p, j, k, n);
    }
    j' := if before.phase == PlanKnown && before.resumed && after.chunks == before.chunks && !Exits(events[n], p) then j else n;
    if j' == j && j < n && after.phase == PlanKnown && after.resumed && before.phase == PlanKnown && before.resumed {
      StillShown(events, n, p, before.chunks, d.plan, d'.plan, j);
    }
  }

  lemma {:induction false} StillShown(events: seq<Event>, n: nat, p: nat, chunks: seq<JobChunk>, plan: seq<JobChunk>,
                                      plan': seq<JobChunk>, j: nat)
    requires TakenAt(events, n, p, chunks, plan, j) && n < |events| && !Exits(events[n], p)
    requires CompletesElsewhere(events[n], p) || Keeps(plan', plan)
    ensures TakenAt(events, n + 1, p, chunks, plan', j)
  {
    if CompletesElsewhere(events[n], p) {
    } else if Keeps(plan, chunks) {
      KeepsOn(plan', plan, chunks);
    } else {
      var k :| j < k < n && CompletesElsewhere(events[k], p);
      assert j < k < n + 1;
    }
  }

  lemma {:induction false} AllStillTaken(events: seq<Event>, n: nat, before: seq<CliSession>, after: seq<CliSession>,
                                         d: Durable, d': Durable, taken: seq<nat>) returns (taken': seq<nat>)
    requires n < |events| && |before| == |after| && Waiting(events, n, before, d.plan, taken)
    requires forall p :: 0 <= p < |before| ==> CliMoved(events[n], p, before[p], after[p], d, d')
    ensures Waiting(events, n + 1, after, d'.plan, taken')
    ensures NoCopyIsOvertaken(events) ==> forall p :: 0 <= p < |after| && after[p].stale ==> before[p].stale
  {
    taken' := [];
    for p := 0 to |before|
      invariant |taken'| == p
      invariant forall q :: 0 <= q < p && after[q].phase == PlanKnown && after[q].resumed ==>
        TakenAt(events, n + 1, q, after[q].chunks, d'.plan, taken'[q])
      invariant NoCopyIsOvertaken(events) ==> forall q :: 0 <= q < p && after[q].stale ==> before[q].stale
    {
      var j := StillTaken(events, n, p, before[p], after[p], d, d', taken[p]);
      taken' := taken' + [j];
    }
  }

  // ---- The length of the audio, which may be measured more than once.

  function MeasuredIn(event: Event): Option<int> {
    match event
    case Gui(_, gui, available) => Coordinator.MeasuredBy(gui, available)
    case Cli(_, cli, available) => CliTranscriptionPersistence.MeasuredBy(cli, available)
    case _ => None
  }

  predicate NoneShorter(events: seq<Event>, lengthMs: int) {
    forall k {:trigger events[k]} :: 0 <= k < |events| ==> NotBelow(MeasuredIn(events[k]), lengthMs)
  }

  predicate Lowers(leastMs: Option<int>, leastMs': Option<int>, event: Event) {
    leastMs' == leastMs || (MeasuredIn(event).Some? && leastMs' == Lower(leastMs, MeasuredIn(event).value))
  }

  ghost predicate BoundedBelow(events: seq<Event>, first: Option<int>, leastMs: Option<int>) {
    forall lengthMs {:trigger NoneShorter(events, lengthMs)} ::
      NoneShorter(events, lengthMs) && NotBelow(first, lengthMs) ==> NotBelow(leastMs, lengthMs)
  }

  lemma {:induction false} StillBounded(events: seq<Event>, first: Option<int>, leastMs: Option<int>, leastMs': Option<int>,
                                        n: nat)
    requires n < |events| && BoundedBelow(events, first, leastMs) && Lowers(leastMs, leastMs', events[n])
    ensures BoundedBelow(events, first, leastMs')
  {
    forall lengthMs | NoneShorter(events, lengthMs) && NotBelow(first, lengthMs) ensures NotBelow(leastMs', lengthMs) {
      assert NotBelow(leastMs, lengthMs) && NotBelow(MeasuredIn(events[n]), lengthMs);
    }
  }

  // ---- One step.

  method Step(repository: JobRepository, guis: seq<Coordinator>, clis: seq<CliTranscriptionPersistence>, event: Event)
    requires AllSound(repository, guis, clis)
    modifies repository, guis, clis
    ensures AllSound(repository, guis, clis)
    ensures (forall p :: 0 <= p < |clis| ==> !old(clis[p].stale)) ==> Keeps(old(repository.plan), repository.plan)
    ensures Lowers(old(repository.leastMs), repository.leastMs, event)
    ensures forall p :: 0 <= p < |clis| ==>
      CliMoved(event, p, old(clis[p].Seen()), clis[p].Seen(), old(repository.View()), repository.View())
  {
    match event
    case Gui(process, action, available) =>
      if process < |guis| {
        GuiStep(repository, guis, clis, process, action, available);
      }
    case Cli(process, action, available) =>
      if process < |clis| {
        ghost var before, d := clis[process].Seen(), repository.View();
        CliStep(repository, guis, clis, process, action, available);
        CliActedMoves(before, clis[process].Seen(), process, action, available, d, repository.View());
      }
    case _ => NobodysStep(repository, guis, clis, event);
  }

  lemma {:induction false} OthersStaySound(guis: seq<Coordinator>, clis: seq<CliTranscriptionPersistence>, before: Durable,
                                           after: Durable, process: nat, current: bool, completes: bool, measured: Option<int>)
    requires Allowed(before, after, process, current, completes, measured)
    requires forall j :: 0 <= j < |guis| && guis[j].process != process ==> SessionSound(guis[j].Seen(), before)
    requires forall j :: 0 <= j < |clis| && clis[j].process != process ==> CliSound(clis[j].Seen(), before)
    ensures forall j :: 0 <= j < |guis| && guis[j].process != process ==> SessionSound(guis[j].Seen(), after)
    ensures forall j :: 0 <= j < |clis| && clis[j].process != process ==> CliSound(clis[j].Seen(), after)
  {
    forall j | 0 <= j < |guis| && guis[j].process != process ensures SessionSound(guis[j].Seen(), after) {
      OthersKeepSessions(guis[j].Seen(), before, after, process, current, completes, measured);
    }
    forall j | 0 <= j < |clis| && clis[j].process != process ensures CliSound(clis[j].Seen(), after) {
      OthersKeepCli(clis[j].Seen(), before, after, process, current, completes, measured);
    }
  }

  method GuiStep(repository: JobRepository, guis: seq<Coordinator>, clis: seq<CliTranscriptionPersistence>, i: nat,
                 action: GuiAction, available: bool)
    requires AllSound(repository, guis, clis) && i < |guis|
    modifies repository, guis[i]
    ensures AllSound(repository, guis, clis)
    ensures Keeps(old(repository.plan), repository.plan)
    ensures Coordinator.Completes(action, available) || Keeps(repository.plan, old(repository.plan))
    ensures Lowers(old(repository.leastMs), repository.leastMs, Gui(i, action, available))
  {
    ghost var before := repository.View();
    guis[i].Act(action, available);
    OthersStaySound(guis, clis, before, repository.View(), i, true, Coordinator.Completes(action, available),
                    Coordinator.MeasuredBy(action, available));
  }

  lemma {:induction false} CliActedMoves(before: CliSession, after: CliSession, p: nat, action: CliAction, available: bool,
                                         d: Durable, d': Durable)
    requires CliActed(before, after, action, available, d, d')
    ensures CliMoved(Cli(p, action, available), p, before, after, d, d')
    ensures !before.stale ==> Keeps(d.plan, d'.plan)
    ensures CliTranscriptionPersistence.Completes(action, available) || Keeps(d'.plan, d.plan)
    ensures Lowers(d.leastMs, d'.leastMs, Cli(p, action, available))
  {
  }

  method CliStep(repository: JobRepository, guis: seq<Coordinator>, clis: seq<CliTranscriptionPersistence>, i: nat,
                 action: CliAction, available: bool)
    requires AllSound(repository, guis, clis) && i < |clis|
    modifies repository, clis[i]
    ensures AllSound(repository, guis, clis)
    ensures CliActed(old(clis[i].Seen()), clis[i].Seen(), action, available, old(repository.View()), repository.View())
    ensures forall j :: 0 <= j < |clis| && j != i ==> clis[j].Seen() == old(clis[j].Seen())
  {
    ghost var before, current := repository.View(), !clis[i].stale;
    ghost var completes := clis[i].phase == Executing && CliTranscriptionPersistence.Completes(action, available);
    clis[i].Act(action, available);
    ghost var measured := CliTranscriptionPersistence.MeasuredBy(action, available);
    OthersStaySound(guis, clis, before, repository.View(), |guis| + i, current, completes, measured);
  }

  method NobodysStep(repository: JobRepository, guis: seq<Coordinator>, clis: seq<CliTranscriptionPersistence>,
                     event: Event)
    requires AllSound(repository, guis, clis)
    modifies repository
    ensures AllSound(repository, guis, clis)
    ensures Keeps(old(repository.plan), repository.plan) && Keeps(repository.plan, old(repository.plan))
    ensures repository.leastMs == old(repository.leastMs)
  {
    ghost var before, nobody := repository.View(), |guis| + |clis|;
    RepositoryStep(repository, event, nobody);
    OthersStaySound(guis, clis, before, repository.View(), nobody, true, false, None);
  }

  // A request of the user, the expiry of the lease, or the recovery after it.
  method RepositoryStep(repository: JobRepository, event: Event, ghost nobody: nat)
    requires Sound(repository.View())
    modifies repository
    ensures Sound(repository.View()) && Respects(old(repository.View()), repository.View(), nobody, true, false)
  {
    match event {
      case UserWants(to, available) =>
        var ok := repository.Transition(to, NoToken, available);
        if ok {
          MovedIsSound(old(repository.View()), to, nobody);
        }
      case LeaseExpires => repository.ExpireLease();
      case Recovery => repository.RecoverAfterExpiry();
      case _ =>
    }
  }

  // ---- Whole runs.

  // However the steps of any number of processes interleave, crash, lose their lease and resume: a completed job has
  // every millisecond of its plan in a completed chunk, and every millisecond that precedes all lengths measured of its
  // audio: all of the audio, if it always measures the same. As long as no copy is overtaken, no completion is undone.
  method Run(repository: JobRepository, guis: seq<Coordinator>, clis: seq<CliTranscriptionPersistence>, events: seq<Event>)
    requires AllSound(repository, guis, clis)
    requires forall p :: 0 <= p < |clis| ==> clis[p].phase == NoSession && !clis[p].stale
    modifies repository, guis, clis
    ensures AllSound(repository, guis, clis)
    ensures repository.state == JobState.Completed ==>
      repository.plan != [] && TranscribedUpTo(repository.plan, EndMs(repository.plan))
    ensures forall lengthMs :: NoneShorter(events, lengthMs) && NotBelow(old(repository.leastMs), lengthMs) ==>
      repository.state == JobState.Completed ==> TranscribedUpTo(repository.plan, lengthMs)
    ensures NoCopyIsOvertaken(events) ==> Keeps(old(repository.plan), repository.plan)
  {
    ghost var taken: seq<nat> := seq(|clis|, p => 0);
    for n := 0 to |events|
      invariant AllSound(repository, guis, clis)
      invariant Waiting(events, n, SeenBy(clis), repository.plan, taken)
      invariant NoCopyIsOvertaken(events) ==> NoneStale(SeenBy(clis)) && Keeps(old(repository.plan), repository.plan)
      invariant BoundedBelow(events, old(repository.leastMs), repository.leastMs)
    {
      taken := RunStep(repository, guis, clis, events, n, old(repository.plan), old(repository.leastMs), taken);
    }
    if repository.state == JobState.Completed {
      EverythingIsTranscribed(repository.View(), 0);
    }
  }

  predicate NoneStale(seen: seq<CliSession>) {
    forall p :: 0 <= p < |seen| ==> !seen[p].stale
  }

  method RunStep(repository: JobRepository, guis: seq<Coordinator>, clis: seq<CliTranscriptionPersistence>,
                 events: seq<Event>, n: nat, ghost plan: seq<JobChunk>, ghost first: Option<int>, ghost taken: seq<nat>)
    returns (ghost taken': seq<nat>)
    requires AllSound(repository, guis, clis) && n < |events|
    requires Waiting(events, n, SeenBy(clis), repository.plan, taken) && BoundedBelow(events, first, repository.leastMs)
    requires NoCopyIsOvertaken(events) ==> NoneStale(SeenBy(clis)) && Keeps(plan, repository.plan)
    modifies repository, guis, clis
    ensures AllSound(repository, guis, clis)
    ensures Waiting(events, n + 1, SeenBy(clis), repository.plan, taken') && BoundedBelow(events, first, repository.leastMs)
    ensures NoCopyIsOvertaken(events) ==> NoneStale(SeenBy(clis)) && Keeps(plan, repository.plan)
  {
    ghost var before, d := SeenBy(clis), repository.View();
    assert forall p :: 0 <= p < |clis| ==> before[p] == clis[p].Seen();
    Step(repository, guis, clis, events[n]);
    taken' := AllStillTaken(events, n, before, SeenBy(clis), d, repository.View(), taken);
    StillBounded(events, first, d.leastMs, repository.leastMs, n);
    if NoCopyIsOvertaken(events) {
      KeepsOn(plan, d.plan, repository.plan);
    }
  }

  ghost function SeenBy(clis: seq<CliTranscriptionPersistence>): seq<CliSession>
    reads clis
  {
    seq(|clis|, p requires 0 <= p < |clis| reads clis => clis[p].Seen())
  }

  predicate AlwaysMeasures(events: seq<Event>, lengthMs: int) {
    forall k {:trigger events[k]} :: 0 <= k < |events| ==> MeasuredIn(events[k]) in {None, Some(lengthMs)}
  }

  // From the first step of a job on: if its audio always measures the same, all of it is transcribed in the end.
  method RunNewJob(origin: Origin, events: seq<Event>) returns (repository: JobRepository)
    ensures fresh(repository) && Sound(repository.View())
    ensures forall lengthMs :: AlwaysMeasures(events, lengthMs) && repository.state == JobState.Completed ==>
      TranscribedUpTo(repository.plan, lengthMs)
  {
    var gui, first, second;
    repository, gui, first, second := NewJob(origin);
    Run(repository, [gui], [first, second], events);
    assert forall lengthMs :: AlwaysMeasures(events, lengthMs) ==> NoneShorter(events, lengthMs);
  }

  // A job, one desktop process and two command-line processes.
  method NewJob(origin: Origin)
    returns (repository: JobRepository, gui: Coordinator, first: CliTranscriptionPersistence, second: CliTranscriptionPersistence)
    ensures fresh(repository) && fresh(gui) && fresh(first) && fresh(second) && first != second
    ensures repository.View() == Durable([], Queued, NoToken, false, 0, None, [], origin)
    ensures gui.phase == Phase.Idle && first.phase == NoSession && second.phase == NoSession && !first.stale && !second.stale
    ensures gui.Valid() && first.Valid() && second.Valid()
    ensures gui.repository == repository && first.repository == repository && second.repository == repository
    ensures gui.process == 0 && first.process == 1 && second.process == 2
  {
    repository := new JobRepository(origin);
    gui := new Coordinator(repository, 0);
    first := new CliTranscriptionPersistence(repository, 1);
    second := new CliTranscriptionPersistence(repository, 2);
  }

  // The desktop's job waits in its queue, or for being queued again.
  ghost predicate Rests(gui: Coordinator, state: JobState)
    reads gui, gui.repository
  {
    && gui.Valid() && gui.phase == Phase.Idle && gui.repository.origin == Desktop
    && gui.repository.state == state && gui.repository.owner == NoToken
  }

  // Undisturbed, a queued job of the desktop is completed, whatever its plan and however many chunks are done: unless a
  // plan whose transcription has started ends before the audio.
  method TranscribeInFull(gui: Coordinator, durationMs: int, vadEnabled: bool, analysed: EncodedPlan)
    requires Rests(gui, Queued) && durationMs > 0
    requires Started(gui.repository.plan) ==> EndMs(gui.repository.plan) >= durationMs
    requires AcceptableWorkerPlan(analysed) && analysed.durationMs == Some(durationMs)
    modifies gui, gui.repository
    ensures gui.Valid() && gui.phase == Phase.Idle && gui.repository.state == JobState.Completed
    ensures TranscribedUpTo(gui.repository.plan, durationMs)
  {
    gui.BeginJob(vadEnabled, true);
    gui.PersistDuration(durationMs, true);
    PlanDesktop(gui, analysed);
    StartTranscribing(gui);
    TranscribeChunks(gui);
    gui.CompleteAndActivate(true);
  }

  method PlanDesktop(gui: Coordinator, analysed: EncodedPlan)
    requires gui.Valid() && gui.phase == Claimed && gui.durationMs > 0 && gui.repository.Fenced(gui.token)
    requires gui.repository.state == Preparing && AcceptableWorkerPlan(analysed) && analysed.durationMs == Some(gui.durationMs)
    requires Started(gui.repository.plan) ==> EndMs(gui.repository.plan) >= gui.durationMs
    modifies gui, gui.repository
    ensures gui.Valid() && gui.phase == AwaitingModel && gui.repository.Fenced(gui.token) && gui.durationMs == old(gui.durationMs)
    ensures gui.repository.state == Preparing || gui.repository.state == AnalyzingSpeech
  {
    gui.PrepareChunks(true);
    if gui.phase == Replanning {
      gui.PlanWithoutSpeech(true);
    } else if gui.phase == AwaitingSpeechAnalysis {
      AnalyseSpeech(gui, analysed);
    }
  }

  method AnalyseSpeech(gui: Coordinator, analysed: EncodedPlan)
    requires gui.Valid() && gui.phase == AwaitingSpeechAnalysis && gui.repository.Fenced(gui.token)
    requires gui.repository.state == Preparing && AcceptableWorkerPlan(analysed) && analysed.durationMs == Some(gui.durationMs)
    modifies gui, gui.repository
    ensures gui.Valid() && gui.phase == AwaitingModel && gui.repository.Fenced(gui.token) && gui.durationMs == old(gui.durationMs)
    ensures gui.repository.state == AnalyzingSpeech
  {
    gui.Advance(AnalyzingSpeech, true);
    assert gui.phase == AwaitingSpeechAnalysis;
    gui.SpeechAnalysed(analysed, true);
  }

  method StartTranscribing(gui: Coordinator)
    requires gui.Valid() && gui.phase == AwaitingModel && gui.repository.Fenced(gui.token)
    requires gui.repository.state == Preparing || gui.repository.state == AnalyzingSpeech
    modifies gui, gui.repository
    ensures gui.Valid() && gui.phase == BetweenChunks && gui.repository.Fenced(gui.token) && gui.durationMs == old(gui.durationMs)
    ensures gui.repository.state == Transcribing
  {
    gui.Advance(LoadingModel, true);
    gui.Advance(Transcribing, true);
  }

  method TranscribeChunks(gui: Coordinator)
    requires gui.Valid() && gui.phase == BetweenChunks && gui.repository.Fenced(gui.token) && gui.repository.state == Transcribing
    modifies gui, gui.repository
    ensures gui.Valid() && gui.phase == Completing && gui.repository.Fenced(gui.token) && gui.repository.state == Finalizing
    ensures gui.durationMs == old(gui.durationMs)
  {
    while gui.phase == BetweenChunks
      invariant gui.Valid() && gui.repository.Fenced(gui.token) && gui.durationMs == old(gui.durationMs)
      invariant (gui.phase == BetweenChunks && gui.repository.state == Transcribing)
                || (gui.phase == Completing && gui.repository.state == Finalizing)
      decreases gui.phase == BetweenChunks, |gui.chunks| - gui.currentChunkIndex
    {
      NextChunk(gui);
    }
  }

  method NextChunk(gui: Coordinator)
    requires gui.Valid() && gui.phase == BetweenChunks && gui.repository.Fenced(gui.token) && gui.repository.state == Transcribing
    modifies gui, gui.repository
    ensures gui.Valid() && gui.repository.Fenced(gui.token) && gui.durationMs == old(gui.durationMs)
    ensures
      || (&& gui.phase == BetweenChunks && gui.repository.state == Transcribing
          && old(gui.currentChunkIndex) < gui.currentChunkIndex && |gui.chunks| == |old(gui.chunks)|)
      || (gui.phase == Completing && gui.repository.state == Finalizing)
  {
    gui.StartNextChunk(true);
    if gui.phase == ChunkRunning {
      gui.FinalizeCurrentChunk(true, true, true);
    }
  }

  // ---- Runs in which a copy is overtaken.

  predicate OneChunk(plan: seq<JobChunk>, endMs: int) {
    |plan| == 1 && plan[0].shape == Chunk(0, 0, endMs, 0, 0)
  }

  // What a session without the lease relies on.
  predicate Grew(before: Durable, after: Durable) {
    before.plans <= after.plans && (before.started ==> after.started) && (before.plan != [] ==> after.plan != [])
  }

  lemma {:induction false} StillWaits(s: CliSession, before: Durable, after: Durable)
    requires CliSound(s, before) && s.token == NoToken && (s.phase == PlanKnown ==> s.resumed) && Grew(before, after)
    ensures CliSound(s, after)
  {
  }

  // A desktop process plans one chunk of 100 ms, and the job is interrupted before it starts.
  method PlanAndInterrupt(gui: Coordinator)
    requires Rests(gui, Queued) && gui.repository.plan == []
    modifies gui, gui.repository
    ensures Rests(gui, JobState.Interrupted) && OneChunk(gui.repository.plan, 100) && !Started(gui.repository.plan)
    ensures Grew(old(gui.repository.View()), gui.repository.View())
  {
    gui.BeginJob(false, true);
    gui.PersistDuration(100, true);
    gui.PrepareChunks(true);
    gui.PlanWithoutSpeech(true);
    assert Shapes(gui.chunks)[0] == gui.chunks[0].shape;
    gui.EndJob(JobState.Interrupted, true, false);
  }

  // A desktop process transcribes the only chunk, and the job is interrupted.
  method TranscribeAndInterrupt(gui: Coordinator)
    requires Rests(gui, Queued) && OneChunk(gui.repository.plan, 100) && gui.repository.plan[0].state != ChunkState.Completed
    modifies gui, gui.repository
    ensures Rests(gui, JobState.Interrupted) && SamePlan(old(gui.repository.plan), gui.repository.plan)
    ensures CompletedAt(gui.repository.plan, 0)
    ensures Grew(old(gui.repository.View()), gui.repository.View())
  {
    BeginTranscribing(gui);
    TranscribeFirst(gui);
    gui.EndJob(JobState.Interrupted, true, false);
  }

  method TranscribeFirst(gui: Coordinator)
    requires gui.Valid() && gui.phase == BetweenChunks && gui.repository.Fenced(gui.token) && gui.repository.state == Transcribing
    requires !CompletedUpTo(gui.chunks, |gui.chunks|)
    modifies gui, gui.repository
    ensures gui.Valid() && gui.phase == BetweenChunks && gui.repository.Fenced(gui.token) && gui.repository.state == Transcribing
    ensures SamePlan(old(gui.repository.plan), gui.repository.plan) && gui.repository.plan != [] && CompletedAt(gui.repository.plan, 0)
    ensures Grew(old(gui.repository.View()), gui.repository.View())
  {
    gui.StartNextChunk(true);
    gui.FinalizeCurrentChunk(true, true, true);
    assert CompletedAt(gui.repository.plan, 0);
  }

  method BeginTranscribing(gui: Coordinator)
    requires Rests(gui, Queued) && OneChunk(gui.repository.plan, 100) && gui.repository.plan[0].state != ChunkState.Completed
    modifies gui, gui.repository
    ensures gui.Valid() && gui.phase == BetweenChunks && gui.repository.Fenced(gui.token) && gui.repository.state == Transcribing
    ensures gui.repository.plan == old(gui.repository.plan) == gui.chunks && !CompletedUpTo(gui.chunks, |gui.chunks|)
    ensures Grew(old(gui.repository.View()), gui.repository.View())
  {
    TakePlan(gui);
    gui.Advance(LoadingModel, true);
    gui.Advance(Transcribing, true);
    assert !CompletedAt(gui.chunks, 0);
  }

  method TakePlan(gui: Coordinator)
    requires Rests(gui, Queued) && OneChunk(gui.repository.plan, 100)
    modifies gui, gui.repository
    ensures gui.Valid() && gui.phase == AwaitingModel && gui.repository.Fenced(gui.token) && gui.repository.state == Preparing
    ensures gui.repository.plan == old(gui.repository.plan) == gui.chunks
    ensures Grew(old(gui.repository.View()), gui.repository.View())
  {
    gui.BeginJob(false, true);
    gui.PersistDuration(100, true);
    gui.PrepareChunks(true);
  }

  // The job goes back to the queue, as a resumption or the user asks for.
  method Requeue(gui: Coordinator)
    requires Rests(gui, JobState.Interrupted)
    modifies gui.repository
    ensures Rests(gui, Queued) && gui.repository.View() == old(gui.repository.View()).(state := Queued)
  {
    var queued := gui.repository.Transition(Queued, NoToken, true);
  }

  // A resumption takes its copy while the only chunk is pending and waits for its claim. Meanwhile a desktop process
  // completes the chunk, and the job is interrupted and resumed once more.
  method OvertakeFirst(gui: Coordinator, cli: CliTranscriptionPersistence)
    requires Rests(gui, Queued) && gui.repository.plan == []
    requires cli.Valid() && cli.phase == NoSession && cli.repository == gui.repository
    modifies gui, gui.repository, cli
    ensures Rests(gui, JobState.Interrupted) && OneChunk(gui.repository.plan, 100) && CompletedAt(gui.repository.plan, 0)
    ensures cli.Valid() && cli.phase == PlanKnown && cli.resumed && SamePlan(cli.chunks, gui.repository.plan) && !Started(cli.chunks)
    ensures Grew(old(gui.repository.View()), gui.repository.View())
  {
    PlanAndInterrupt(gui);
    StillWaits(cli.Seen(), old(gui.repository.View()), gui.repository.View());
    cli.LoadSnapshot(true);
    ghost var d := gui.repository.View();
    Requeue(gui);
    TranscribeAndInterrupt(gui);
    StillWaits(cli.Seen(), d, gui.repository.View());
  }

  // The claim succeeds, and the resumption makes its chunk pending.
  method ResumeOnlyChunk(cli: CliTranscriptionPersistence)
    requires cli.Valid() && cli.phase == PlanKnown && cli.resumed && |cli.chunks| == 1 && !Started(cli.chunks)
    requires cli.repository.state == Queued && cli.repository.owner == NoToken && SamePlan(cli.chunks, cli.repository.plan)
    modifies cli, cli.repository
    ensures cli.Valid() && cli.phase == Resuming && cli.nextReset == |cli.chunks| && cli.repository.Fenced(cli.token)
    ensures cli.chunks == old(cli.chunks) && cli.repository.state == Preparing
    ensures |cli.repository.plan| == |old(cli.repository.plan)| == 1 && cli.repository.plan[0].id == old(cli.repository.plan)[0].id
    ensures cli.repository.plan[0].state == Pending
    ensures Grew(old(cli.repository.View()), cli.repository.View())
  {
    cli.ClaimJob(false, true);
    cli.ResetNext(true);
    assert cli.chunks == old(cli.chunks);
  }

  // A second session has not taken a copy yet.
  method OvertakenJob()
    returns (repository: JobRepository, gui: Coordinator, first: CliTranscriptionPersistence, second: CliTranscriptionPersistence)
    ensures fresh(repository) && fresh(gui) && fresh(first) && fresh(second) && first != second
    ensures gui.repository == repository && first.repository == repository && second.repository == repository
    ensures Rests(gui, JobState.Interrupted) && OneChunk(repository.plan, 100) && CompletedAt(repository.plan, 0)
    ensures first.Valid() && first.phase == PlanKnown && first.resumed && SamePlan(first.chunks, repository.plan)
    ensures !Started(first.chunks) && second.Valid() && second.phase == NoSession
  {
    repository, gui, first, second := NewJob(Desktop);
    ghost var d := repository.View();
    OvertakeFirst(gui, first);
    StillWaits(second.Seen(), d, repository.View());
  }

  // When the overtaken resumption claims the job, it makes the completed chunk pending again.
  method CompletionIsUndone() returns (repository: JobRepository, ghost before: seq<JobChunk>)
    ensures |before| == |repository.plan| == 1 && before[0].id == repository.plan[0].id
    ensures before[0].state == ChunkState.Completed && repository.plan[0].state == Pending
  {
    var gui, first, second;
    repository, gui, first, second := OvertakenJob();
    before := repository.plan;
    ghost var d := repository.View();
    Requeue(gui);
    StillWaits(first.Seen(), d, repository.View());
    assert CompletedAt(before, 0);
    ResumeOnlyChunk(first);
  }

  // Another resumption takes a copy with the completed chunk. The audio, decoded again, measures 50 ms for the overtaken
  // resumption, which plans and transcribes those, and 100 ms for the other one, which finds its copy long enough and
  // every chunk completed, and completes the job.
  method TailIsLost() returns (repository: JobRepository)
    ensures repository.state == JobState.Completed && repository.recordingMs == 100
    ensures TranscribedUpTo(repository.plan, 50) && forall t :: 50 <= t ==> !Transcribed(repository.plan, t)
  {
    var first, second;
    repository, first, second := TwoCopies();
    ghost var d := repository.View();
    TranscribeShorter(first);
    StillWaits(second.Seen(), d, repository.View());
    ResumeOnceMore(second);
    CompleteLonger(second);
    NothingAfterTheChunk(repository.View(), 50);
  }

  lemma {:induction false} NothingAfterTheChunk(d: Durable, endMs: int)
    requires Sound(d) && d.state == JobState.Completed && OneChunk(d.plan, endMs)
    ensures TranscribedUpTo(d.plan, endMs) && forall t :: endMs <= t ==> !Transcribed(d.plan, t)
  {
    EverythingIsTranscribed(d, 0);
  }

  method TwoCopies() returns (repository: JobRepository, first: CliTranscriptionPersistence, second: CliTranscriptionPersistence)
    ensures fresh(repository) && fresh(first) && fresh(second) && first != second
    ensures first.Valid() && second.Valid() && first.repository == repository && second.repository == repository
    ensures repository.state == Queued && repository.owner == NoToken
    ensures first.phase == PlanKnown && first.resumed && !Started(first.chunks) && SamePlan(first.chunks, repository.plan)
    ensures OneChunk(first.chunks, 100)
    ensures second.phase == PlanKnown && second.resumed && OneChunk(second.chunks, 100) && CompletedAt(second.chunks, 0)
  {
    var gui;
    repository, gui, first, second := OvertakenJob();
    second.LoadSnapshot(true);
    ghost var d := repository.View();
    Requeue(gui);
    StillWaits(first.Seen(), d, repository.View());
    StillWaits(second.Seen(), d, repository.View());
  }

  method TranscribeShorter(cli: CliTranscriptionPersistence)
    requires cli.Valid() && cli.phase == PlanKnown && cli.resumed && OneChunk(cli.chunks, 100) && !Started(cli.chunks)
    requires cli.repository.state == Queued && cli.repository.owner == NoToken && SamePlan(cli.chunks, cli.repository.plan)
    modifies cli, cli.repository
    ensures Sound(cli.repository.View()) && cli.repository.state == JobState.Interrupted && cli.repository.owner == NoToken
    ensures OneChunk(cli.repository.plan, 50) && CompletedAt(cli.repository.plan, 0)
    ensures Grew(old(cli.repository.View()), cli.repository.View())
  {
    PlanShorter(cli);
    RunOnlyChunk(cli);
    var interrupted := cli.TransitionTo(JobState.Interrupted, true);
  }

  method PlanShorter(cli: CliTranscriptionPersistence)
    requires cli.Valid() && cli.phase == PlanKnown && cli.resumed && OneChunk(cli.chunks, 100) && !Started(cli.chunks)
    requires cli.repository.state == Queued && cli.repository.owner == NoToken && SamePlan(cli.chunks, cli.repository.plan)
    modifies cli, cli.repository
    ensures cli.Valid() && cli.phase == Executing && OneChunk(cli.chunks, 50) && cli.repository.plan == cli.chunks
    ensures cli.repository.Fenced(cli.token) && cli.repository.state == Preparing && cli.chunks[0].state != ChunkState.Completed
    ensures Grew(old(cli.repository.View()), cli.repository.View())
  {
    ResumeOnlyChunk(cli);
    cli.ResetNext(true);
    cli.PersistDuration(50, true);
    cli.CheckPlan(false, true);
    assert Shapes(cli.chunks)[0] == cli.chunks[0].shape && !CompletedAt(cli.chunks, 0);
  }

  method RunOnlyChunk(cli: CliTranscriptionPersistence)
    requires cli.Valid() && cli.phase == Executing && OneChunk(cli.chunks, 50) && cli.repository.plan == cli.chunks
    requires cli.repository.Fenced(cli.token) && cli.chunks[0].state != ChunkState.Completed
    modifies cli, cli.repository
    ensures cli.Valid() && cli.token == old(cli.token) && cli.repository.Fenced(cli.token)
    ensures cli.repository.state == old(cli.repository.state) && OneChunk(cli.repository.plan, 50) && CompletedAt(cli.repository.plan, 0)
    ensures Grew(old(cli.repository.View()), cli.repository.View())
  {
    cli.WriteChunk(0, Running, true);
    cli.WriteChunk(0, ChunkState.Completed, true);
  }

  method ResumeOnceMore(cli: CliTranscriptionPersistence)
    requires cli.Valid() && cli.phase == PlanKnown && cli.resumed
    requires cli.repository.state == JobState.Interrupted && cli.repository.owner == NoToken
    modifies cli.repository
    ensures cli.Valid() && cli.repository.View() == old(cli.repository.View()).(state := Queued)
  {
    var queued := cli.repository.Transition(Queued, NoToken, true);
    StillWaits(cli.Seen(), old(cli.repository.View()), cli.repository.View());
  }

  method CompleteLonger(cli: CliTranscriptionPersistence)
    requires cli.Valid() && cli.phase == PlanKnown && cli.resumed && OneChunk(cli.chunks, 100) && CompletedAt(cli.chunks, 0)
    requires cli.repository.state == Queued && cli.repository.owner == NoToken
    requires OneChunk(cli.repository.plan, 50) && CompletedAt(cli.repository.plan, 0)
    modifies cli, cli.repository
    ensures Sound(cli.repository.View()) && cli.repository.state == JobState.Completed && cli.repository.recordingMs == 100
    ensures cli.repository.plan == old(cli.repository.plan)
  {
    cli.ClaimJob(false, true);
    cli.ResetNext(true);
    cli.ResetNext(true);
    cli.PersistDuration(100, true);
    cli.CheckPlan(true, true);
    CompleteChecked(cli);
  }

  method CompleteChecked(cli: CliTranscriptionPersistence)
    requires cli.Valid() && cli.phase == Executing && cli.repository.Fenced(cli.token) && cli.repository.state == Preparing
    requires CompletedUpTo(cli.repository.plan, |cli.repository.plan|)
    modifies cli, cli.repository
    ensures Sound(cli.repository.View()) && cli.repository.state == JobState.Completed
    ensures cli.repository.plan == old(cli.repository.plan) && cli.repository.recordingMs == old(cli.durationMs)
  {
    ReachTranscription(cli);
    cli.CheckAllCompleted(true);
    var moved := cli.TransitionTo(Finalizing, true);
    cli.Complete(true);
  }

  method ReachTranscription(cli: CliTranscriptionPersistence)
    requires cli.Valid() && cli.repository.Fenced(cli.token) && cli.repository.state == Preparing
    modifies cli.repository
    ensures cli.Valid() && cli.repository.View() == old(cli.repository.View()).(state := Transcribing)
  {
    var moved := cli.TransitionTo(LoadingModel, true);
    moved := cli.TransitionTo(Transcribing, true);
  }
}
