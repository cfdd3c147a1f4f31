// src/app/TranscriptionCoordinator.cpp: how an active job ends other than by completing. The repository, the
// lease and the channel are an environment that may answer differently at every call; a single-shot timer is
// a flag and the event that it fires. What the job does between two worker requests is one continuation.

module TerminalCheckpoint {
  import opened ChunkPlan
  import opened WorkerProcessManager

  datatype RequestKind = NoRequest | GetCapabilities | AnalyzeSpeech | LoadModel | TranscribeChunk

  datatype PendingTerminalAction = NothingPending | Fail | Cancel | Interrupt | AbandonAfterLeaseLoss

  datatype CurrentChunk = NoChunk | At(state: ChunkState)

  // Whether something will carry the job on by itself: nothing, a timer, download or media operation, or the
  // reply to the current request.
  datatype Continuation = Idle | Scheduled | Reply

  datatype Write = Written | LeaseLost | Refused

  // What the environment answers the n-th handler of one chain of calls: activeExecutionLeaseLost, the durable
  // state durableCancellationWins reads, the two writes, terminalTransitionNeedsRetry, and the socket.
  datatype Answers = Answers(leaseLost: bool, cancelled: bool, chunkWrite: Write, jobWrite: Write, stillRunning: bool, sent: bool)

  type Environment = nat -> Answers

  datatype Cause = AsFailed | AsCancelled | AsInterrupted | AsHandedOff | AsCompleted

  // The coordinator let go of a job while the worker was running these requests for the model.
  datatype Release = Release(cause: Cause, running: set<RequestId>)

  datatype Step = Wait | Fails | Send(kind: RequestKind) | Completes

  datatype EnvelopeKind =
    Capabilities | SpeechAnalysisCompleted | ModelLoaded | ChunkCompleted | JobCancelled | Error | Progress | PartialSegment

  datatype Event =
    | Claimed(job: string)
    | Continued(step: Step)
    | OperationFailed
    | CancelWanted(mediaRunning: bool)
    | Heartbeat(cancelled: bool, mediaRunning: bool, renewed: bool)
    | ShutdownWanted(renewed: bool)
    | FailRetry
    | CancelRetry
    | InterruptRetry
    | WorkerStarts(candidates: seq<string>, disk: Disk)
    | RecoveryTimer(candidates: seq<string>, disk: Disk)
    | WorkerConnects
    | ChannelFails
    | ProcessExits(elapsed: nat)
    | Stopped(exits: bool)
    | Received(key: Operation, envelope: Envelope, managerFirst: bool)

  // accepted: the payload is valid and its durable writes succeed. modelMissing: the error is one that a new
  // download of the voice-activity model may cure, tried once for a job.
  datatype Envelope = Envelope(kind: EnvelopeKind, accepted: bool, modelMissing: bool)

  predicate IsTerminal(kind: EnvelopeKind) {
    kind == SpeechAnalysisCompleted || kind == ModelLoaded || kind == ChunkCompleted || kind == JobCancelled || kind == Error
  }

  predicate JobScoped(kind: RequestKind) {
    kind == AnalyzeSpeech || kind == TranscribeChunk
  }

  // The reply that a request asks for.
  predicate Matches(kind: RequestKind, reply: EnvelopeKind) {
    || (kind == GetCapabilities && reply == Capabilities)
    || (kind == AnalyzeSpeech && reply == SpeechAnalysisCompleted)
    || (kind == LoadModel && reply == ModelLoaded)
    || (kind == TranscribeChunk && reply == ChunkCompleted)
  }

  // After this reply to the current request the job goes on: it is the reply that was asked for, or the model can be
  // downloaded again.
  predicate GoesOn(kind: RequestKind, envelope: Envelope, cancelling: bool) {
    || (Matches(kind, envelope.kind) && envelope.accepted && (kind == AnalyzeSpeech ==> !cancelling))
    || (JobScoped(kind) && envelope.kind == Error && envelope.modelMissing && !cancelling)
  }

  // After this reply to the current request the job cannot go on.
  predicate EndsJob(kind: RequestKind, envelope: Envelope, cancelling: bool) {
    && !GoesOn(kind, envelope, cancelling)
    && (kind == GetCapabilities || envelope.kind == Error || envelope.kind == JobCancelled || Matches(kind, envelope.kind))
  }

  datatype Verdict = Ignore | Accept | Reject | CancelNow

  // What an envelope that is neither an error nor a cancellation means for the current request. A cancelled job
  // still takes a loaded model and a transcribed chunk.
  function Judged(kind: RequestKind, envelope: Envelope, cancelling: bool): Verdict {
    var answer := if envelope.accepted then Accept else Reject;
    match kind
    case NoRequest => Ignore
    case GetCapabilities => if envelope.kind == Capabilities then answer else Reject
    case AnalyzeSpeech => if envelope.kind != SpeechAnalysisCompleted then Ignore else if cancelling then CancelNow else answer
    case LoadModel => if envelope.kind == ModelLoaded then answer else Ignore
    case TranscribeChunk => if envelope.kind == ChunkCompleted then answer else Ignore
  }

  lemma {:induction false} JudgedRight(kind: RequestKind, envelope: Envelope, cancelling: bool)
    requires envelope.kind != Error && envelope.kind != JobCancelled
    ensures GoesOn(kind, envelope, cancelling) <==> Judged(kind, envelope, cancelling) == Accept
    ensures EndsJob(kind, envelope, cancelling) <==> Judged(kind, envelope, cancelling) in {CancelNow, Reject}
  {
  }

  function Rank(action: PendingTerminalAction): nat {
    match action
    case NothingPending => 0
    case Fail | Interrupt => 1
    case Cancel => 2
    case AbandonAfterLeaseLoss => 3
  }

  // What a job may be released as when action is to be carried out: as that action says, or as one of higher
  // priority does.
  predicate Fits(action: PendingTerminalAction, cause: Cause) {
    match action
    case NothingPending => true
    case Fail => cause == AsFailed || cause == AsCancelled || cause == AsHandedOff
    case Interrupt => cause == AsInterrupted || cause == AsCancelled || cause == AsHandedOff
    case Cancel => cause == AsCancelled || cause == AsHandedOff
    case AbandonAfterLeaseLoss => cause == AsHandedOff
  }

  // retries: how many retries of an interruption are due. refusedAt: how much traffic there had been when the last one
  // was refused.
  datatype View = View(job: string, pending: PendingTerminalAction, releases: seq<Release>, retries: nat, refusedAt: nat)

  // Carrying out action: either the job is still active, and its pending action did not change or climbed to
  // the action or beyond, or it was released once, as the action or one of higher priority says. Only an interruption
  // leaves a retry of one behind.
  predicate Climbs(before: View, after: View, action: PendingTerminalAction, running: set<RequestId>, sent: nat, refuses: bool) {
    var goal := Merged(before.pending, action);
    && (before.job == "" ==> after == before)
    && Marked(before, after, sent, sent, refuses && goal == Interrupt)
    && (|| (&& after.releases == before.releases && after.job == before.job && Rank(before.pending) <= Rank(after.pending)
            && (after.pending == before.pending || after.pending == goal || Rank(goal) < Rank(after.pending)))
        || (exists cause :: Released(before.releases, after, cause, running) && Fits(goal, cause)))
  }

  // What carries out an action of higher priority carries out the lower one as well.
  lemma {:induction false} HigherClimbs(before: View, after: View, action: PendingTerminalAction, higher: PendingTerminalAction,
                                        running: set<RequestId>, sent: nat, refuses: bool)
    requires Climbs(before, after, higher, running, sent, refuses) && Rank(action) <= Rank(higher) && Rank(higher) >= 2
    ensures Climbs(before, after, action, running, sent, refuses)
  {
    if cause :| Released(before.releases, after, cause, running) && Fits(Merged(before.pending, higher), cause) {
      assert Fits(Merged(before.pending, action), cause);
    }
  }

  // Retries of an interruption become due only when one is refused, at a moment between two amounts of traffic.
  predicate Marked(before: View, after: View, from: nat, to: nat, refused: bool) {
    || (after.refusedAt == before.refusedAt && after.retries <= before.retries)
    || (refused && from <= after.refusedAt <= to)
  }

  // The database refuses some write.
  ghost predicate Refuses(env: Environment) {
    exists n {:trigger env(n)} :: env(n).chunkWrite == Refused || env(n).jobWrite == Refused
  }

  // For one active job the pending action stays or climbs until the job is let go, and releases are never undone.
  predicate Climbing(before: View, after: View) {
    && before.releases <= after.releases
    && (before.releases == after.releases && before.job != "" ==>
        && after.job == before.job
        && (after.pending == before.pending || Rank(before.pending) < Rank(after.pending)))
  }

  // One event lets go of the active job at most.
  predicate ReleasesOne(before: View, after: View) {
    after.releases != before.releases ==> before.job != "" && after.job == "" && |after.releases| == |before.releases| + 1
  }

  predicate Released(before: seq<Release>, after: View, cause: Cause, running: set<RequestId>) {
    && after.job == "" && after.pending == NothingPending && after.retries == 0
    && after.releases == before + [Release(cause, running)]
  }

  function Merged(pending: PendingTerminalAction, action: PendingTerminalAction): PendingTerminalAction {
    if action == NothingPending then pending
    else if pending == NothingPending || action == AbandonAfterLeaseLoss then action
    else if action == Cancel && pending != AbandonAfterLeaseLoss then Cancel
    else pending
  }

  // The durable write is refused for now, and the job is not cancelled.
  predicate RefusesForNow(a: Answers) {
    !a.leaseLost && !a.cancelled && a.jobWrite == Refused && a.stillRunning
  }

  predicate Accepts(a: Answers) {
    !a.leaseLost && !a.cancelled && a.jobWrite == Written
  }

  predicate Cancellable(chunk: CurrentChunk) {
    chunk.At? && NeedsCancelling(chunk.state)
  }

  predicate AllQuiet(releases: seq<Release>) {
    forall i :: 0 <= i < |releases| ==> releases[i].running == {}
  }

  // What Run records before each event: all that is compared with the moment after it. accounted and alive are what
  // the predicates of these names say.
  datatype Moment = Moment(
    view: View, traffic: seq<Traffic>, requestId: RequestId, requestKind: RequestKind, continuation: Continuation,
    cancelling: bool, shuttingDown: bool, failRetries: nat, cancelRetries: nat, processRunning: bool, ready: bool,
    stopping: bool, stopped: bool, accounted: bool, alive: bool)

  // What the event can add to the traffic: the request it sends, the end of the one it answers, or the exit.
  predicate Logs(event: Event, t: Traffic) {
    match event
    case Continued(step) => step.Send? && step.kind != GetCapabilities && t.Sent?
    case Received(key, envelope, _) => IsTerminal(envelope.kind) && t == Ended(key.requestId)
    case ProcessExits(_) => t == Exited
    case Stopped(_) => t == Exited
    case _ => false
  }

  predicate LogsAtMost(event: Event, before: seq<Traffic>, after: seq<Traffic>) {
    after == before || (|after| == |before| + 1 && before <= after && Logs(event, after[|before|]))
  }

  // The events that can carry out an interruption.
  predicate CanInterrupt(event: Event) {
    || event.OperationFailed? || event.FailRetry? || event.ShutdownWanted? || event.InterruptRetry? || event.WorkerConnects?
    || event.ProcessExits? || event.Stopped? || event.Received?
  }

  // The action has an effect: the job was let go, as the action or one of higher priority says, or something will come
  // back to it to do so.
  predicate TakesEffect(before: View, after: View, accounted: bool, action: PendingTerminalAction) {
    var goal := Merged(before.pending, action);
    && accounted
    && if after.releases == before.releases then
         && after.job == before.job
         && (after.pending == before.pending || after.pending == goal || Rank(goal) < Rank(after.pending))
       else |after.releases| == |before.releases| + 1 && Fits(goal, after.releases[|before.releases|].cause)
  }

  lemma {:induction false} ClimbsTakesEffect(before: View, after: View, action: PendingTerminalAction, running: set<RequestId>,
                                             sent: nat, refuses: bool)
    requires Climbs(before, after, action, running, sent, refuses)
    ensures TakesEffect(before, after, true, action) && Climbing(before, after) && ReleasesOne(before, after)
    ensures Marked(before, after, sent, sent, refuses && Merged(before.pending, action) == Interrupt)
    ensures action == Cancel ==> TakesEffect(before, after, true, Fail)
  {
  }

  // What waits for the worker may be carried out at once.
  lemma {:induction false} CarriedOut(before: View, mid: View, after: View, action: PendingTerminalAction)
    requires before.pending == NothingPending && action != NothingPending
    requires TakesEffect(before, mid, true, action)
    requires after == mid || (mid.pending != NothingPending && TakesEffect(mid, after, true, NothingPending))
    requires mid.releases != before.releases ==> mid.job == "" && mid.pending == NothingPending
    ensures TakesEffect(before, after, true, action)
  {
  }

  predicate Effective(before: Moment, after: Moment, action: PendingTerminalAction) {
    TakesEffect(before.view, after.view, after.accounted, action)
  }

  // The job waits for the reply that the key belongs to, and no terminal action waits for the worker.
  predicate Awaited(key: Operation, m: Moment) {
    && m.view.job != "" && m.view.pending == NothingPending && key.requestId == m.requestId
    && (JobScoped(m.requestKind) ==> key.jobId == m.view.job)
  }

  // The end of the current request is reported for another job, or by an envelope that no such request asks for.
  predicate Strays(event: Event, m: Moment) {
    && event.Received? && IsTerminal(event.envelope.kind) && event.key.requestId == m.requestId
    && m.view.job != "" && m.view.pending == NothingPending
    && (|| !Awaited(event.key, m)
        || !(GoesOn(m.requestKind, event.envelope, m.cancelling) || EndsJob(m.requestKind, event.envelope, m.cancelling)))
  }

  // Only the reply to a running request will come back to the job.
  predicate OnlyAwaits(m: Moment) {
    && m.view.pending == NothingPending && m.continuation == Reply && m.requestKind != GetCapabilities
    && !m.accounted && !m.stopped
  }

  // A media operation is only aborted, and its continuation ends the job.
  predicate Cancels(mediaRunning: bool, before: Moment, after: Moment) {
    !before.cancelling ==>
      if mediaRunning && before.continuation == Scheduled then after.cancelling && after.view == before.view
      else Effective(before, after, Cancel)
  }

  // What an event does to an active job.
  predicate Reacts(event: Event, answer: Answers, before: Moment, after: Moment)
    requires before.view.job != ""
  {
    match event
    case Continued(step) =>
      before.continuation == Scheduled ==>
        if before.cancelling then Effective(before, after, Cancel)
        else
          && (step == Wait ==> after == before)
          && (step == Fails ==> Effective(before, after, Fail))
          && (step.Send? && step.kind != NoRequest ==>
                if before.ready then after.view == before.view && after.continuation == Reply && after.requestKind == step.kind
                else Effective(before, after, Fail))
          && (step == Completes ==>
                if !answer.cancelled && answer.jobWrite == Written then
                  after.view.releases != [] && after.view.releases[|after.view.releases| - 1].cause == AsCompleted && after.view.job == ""
                else Effective(before, after, Fail))
    case OperationFailed => Effective(before, after, Fail)
    case CancelWanted(mediaRunning) => Cancels(mediaRunning, before, after)
    case Heartbeat(cancelled, mediaRunning, renewed) =>
      && (!renewed ==> after.view.job == "" || after.view.pending == AbandonAfterLeaseLoss)
      && (renewed && cancelled ==> Cancels(mediaRunning, before, after))
    case ShutdownWanted(_) => !before.shuttingDown ==> Effective(before, after, Interrupt) && after.shuttingDown
    case FailRetry => before.failRetries > 0 ==> Effective(before, after, Fail)
    case CancelRetry => before.cancelRetries > 0 ==> Effective(before, after, Cancel)
    case InterruptRetry => before.view.retries > 0 ==> Effective(before, after, Interrupt)
    case ProcessExits(_) => before.processRunning && !before.stopping ==> Effective(before, after, Interrupt)
    case Received(key, envelope, _) =>
      && (Awaited(key, before) && EndsJob(before.requestKind, envelope, before.cancelling) ==> Effective(before, after, Fail))
      && (Awaited(key, before) && GoesOn(before.requestKind, envelope, before.cancelling) ==>
            after.view == before.view && after.continuation == Scheduled)
      && (Strays(event, before) && OnlyAwaits(before) ==> !after.alive)
    case _ => true
  }

  predicate SameRequest(before: Moment, after: Moment) {
    after.view.job == before.view.job && after.requestId == before.requestId && after.requestKind == before.requestKind
  }

  // Something comes back to the job again, unless nothing did before or the end of its request came astray.
  predicate Lives(event: Event, before: Moment, after: Moment) {
    after.alive || ((!before.alive || Strays(event, before)) && SameRequest(before, after))
  }

  // From one moment to the next: the event does to the job what it is for, lets at most one job go and adds at most its
  // own traffic, and retries become due only if it can interrupt and a write is refused. A retry that is not due does
  // nothing.
  ghost predicate Stepped(event: Event, env: Environment, later: Environment, before: Moment, after: Moment) {
    && LogsAtMost(event, before.traffic, after.traffic)
    && Climbing(before.view, after.view) && ReleasesOne(before.view, after.view)
    && Marked(before.view, after.view, |before.traffic|, |after.traffic|, CanInterrupt(event) && (Refuses(env) || Refuses(later)))
    && (event.InterruptRetry? && before.view.retries == 0 ==> after == before)
    && (before.view.job != "" ==> Reacts(event, env(0), before, after))
    && Lives(event, before, after)
  }

  type Trace = seq<(Event, Environment, Environment)>

  ghost predicate SteppedAt(events: Trace, moments: seq<Moment>, k: nat)
    requires k < |events| && k + 1 < |moments|
  {
    Stepped(events[k].0, events[k].1, events[k].2, moments[k], moments[k + 1])
  }

  // The i-th event is a retry that was overtaken by a request sent since the interruption was refused.
  ghost predicate OvertakenAt(events: Trace, moments: seq<Moment>, i: nat)
    requires i < |events| && i < |moments|
  {
    events[i].0.InterruptRetry? && moments[i].view.retries > 0 && StillRuns(moments[i].traffic, moments[i].view.refusedAt)
  }

  ghost predicate OvertakenBefore(events: Trace, moments: seq<Moment>, n: nat)
    requires n <= |events| && n <= |moments|
  {
    exists i :: 0 <= i < n && OvertakenAt(events, moments, i)
  }

  // Unless a retry was overtaken before the n-th event, every job let go before it was let go in quiet.
  ghost predicate SafeUpTo(events: Trace, moments: seq<Moment>, n: nat)
    requires n <= |events| && n < |moments|
  {
    OvertakenBefore(events, moments, n) || AllQuiet(moments[n].view.releases)
  }

  lemma {:induction false} StaysOvertaken(events: Trace, moments: seq<Moment>, next: Moment, n: nat)
    requires n <= |events| && n <= |moments|
    ensures OvertakenBefore(events, moments, n) ==> OvertakenBefore(events, moments + [next], n)
  {
    if i :| 0 <= i < n && OvertakenAt(events, moments, i) {
      assert OvertakenAt(events, moments + [next], i);
    }
  }

  // What is known after n events.
  ghost predicate Recorded(events: Trace, moments: seq<Moment>, n: nat, wasSafe: bool, safe: bool)
    requires n <= |events| && n < |moments|
  {
    && (forall k {:trigger SteppedAt(events, moments, k)} :: 0 <= k < n ==> SteppedAt(events, moments, k))
    && (wasSafe ==> forall i {:trigger SafeUpTo(events, moments, i)} :: 0 <= i <= n ==> SafeUpTo(events, moments, i))
    && (wasSafe && !safe ==> OvertakenBefore(events, moments, n))
  }

  lemma {:induction false} OneMoreStep(events: Trace, moments: seq<Moment>, next: Moment, k: nat, wasSafe: bool, isSafe: bool, safe: bool)
    requires k < |events| && |moments| == k + 1 && Recorded(events, moments, k, wasSafe, isSafe)
    requires Stepped(events[k].0, events[k].1, events[k].2, moments[k], next)
    requires safe ==> AllQuiet(next.view.releases)
    requires isSafe && !safe ==>
      events[k].0.InterruptRetry? && moments[k].view.retries > 0 && StillRuns(moments[k].traffic, moments[k].view.refusedAt)
    ensures Recorded(events, moments + [next], k + 1, wasSafe, safe)
  {
    var moments' := moments + [next];
    forall i | 0 <= i <= k ensures SteppedAt(events, moments', i) {
      if i < k {
        assert SteppedAt(events, moments, i);
      }
    }
    if isSafe && !safe {
      assert OvertakenAt(events, moments', k);
    }
    StaysOvertaken(events, moments, next, k);
    assert OvertakenBefore(events, moments', k) ==> OvertakenBefore(events, moments', k + 1);
    if wasSafe {
      forall i | 0 <= i <= k + 1 ensures SafeUpTo(events, moments', i) {
        if i <= k {
          assert SafeUpTo(events, moments, i);
          StaysOvertaken(events, moments, next, i);
        }
      }
    }
  }

  // The k-th event is the end of the job's request, come astray, and nothing has come back to the job since.
  predicate StrandedSince(events: Trace, moments: seq<Moment>, k: nat, n: nat)
    requires k < n <= |events| && n < |moments|
  {
    && Strays(events[k].0, moments[k]) && moments[k].alive
    && forall j :: k < j <= n ==> !moments[j].alive && SameRequest(moments[k], moments[j])
  }

  // A job is only ever stranded by a stray end of its request.
  lemma {:induction false} OnlyStraysStrand(events: Trace, moments: seq<Moment>, n: nat)
    requires n <= |events| && n < |moments| && moments[0].alive
    requires forall k {:trigger SteppedAt(events, moments, k)} :: 0 <= k < n ==> SteppedAt(events, moments, k)
    ensures !moments[n].alive ==> exists k :: 0 <= k < n && StrandedSince(events, moments, k, n)
  {
    if n > 0 && !moments[n].alive {
      assert SteppedAt(events, moments, n - 1);
      if moments[n - 1].alive {
        assert StrandedSince(events, moments, n - 1, n);
      } else {
        OnlyStraysStrand(events, moments, n - 1);
        var k :| 0 <= k < n - 1 && StrandedSince(events, moments, k, n - 1);
        assert StrandedSince(events, moments, k, n);
      }
    }
  }

  lemma {:induction false} OneMoreRelease(releases: seq<Release>, release: Release)
    ensures AllQuiet(releases + [release]) <==> AllQuiet(releases) && release.running == {}
  {
    var more := releases + [release];
    assert more[|releases|] == release && forall i :: 0 <= i < |releases| ==> more[i] == releases[i];
  }

  class Coordinator {
    const worker: Manager
    var activeJob: string
    var cancelling: bool
    var currentChunk: CurrentChunk
    var requestId: RequestId
    var requestKind: RequestKind
    var pendingTerminalAction: PendingTerminalAction
    var workerQuiescenceConfirmed: bool
    var continuation: Continuation
    var failRetries: nat
    var cancelRetries: nat
    var interruptRetries: nat
    var shuttingDown: bool
    ghost var releases: seq<Release>
    // How much traffic there had been when the last interruption was refused.
    ghost var refusedAt: nat

    ghost function Seen(): View
      reads this
    {
      View(activeJob, pendingTerminalAction, releases, interruptRetries, refusedAt)
    }

    ghost function JobSide(): (string, PendingTerminalAction, seq<Release>)
      reads this
    {
      (activeJob, pendingTerminalAction, releases)
    }

    predicate MayStillRun()
      reads this
    {
      requestId != NO_REQUEST && (requestKind == AnalyzeSpeech || requestKind == LoadModel || requestKind == TranscribeChunk)
    }

    predicate Cleared()
      reads this
    {
      && activeJob == "" && requestId == NO_REQUEST && requestKind == NoRequest && currentChunk == NoChunk
      && pendingTerminalAction == NothingPending && !workerQuiescenceConfirmed && !cancelling
      && continuation == Idle && NoRetries()
    }

    predicate NoRetries()
      reads this
    {
      failRetries == 0 && cancelRetries == 0 && interruptRetries == 0
    }

    // Nothing but the interruption itself is to be written for the job.
    predicate Uneventful()
      reads this
    {
      activeJob != "" && pendingTerminalAction == NothingPending && !cancelling && currentChunk == NoChunk
    }

    // The audio of a job is being prepared, and no request for the model runs.
    ghost predicate Preparing()
      reads this, worker
    {
      && Valid() && Uneventful() && continuation == Scheduled && releases == [] && worker.busy == {}
      && !worker.stopping && !worker.forcedCancellationPending && requestId == NO_REQUEST
    }

    ghost predicate Valid()
      reads this, worker
    {
      && worker.Valid() && requestId < worker.nextRequestId
      && (activeJob == "" ==> Cleared())
      && (pendingTerminalAction != NothingPending ==> MayStillRun())
      && (continuation == Scheduled ==> requestId == NO_REQUEST && requestKind == NoRequest)
      && (activeJob != "" && worker.forcedCancellationPending ==>
          pendingTerminalAction != NothingPending && worker.forcedCancellation.requestId == requestId)
    }

    // Every request that may be running is the current one, and none is once quiescence was confirmed.
    ghost predicate Tracked()
      reads this, worker
    {
      && worker.busy <= (if MayStillRun() then {requestId} else {})
      && (pendingTerminalAction != NothingPending && workerQuiescenceConfirmed ==> worker.busy == {})
      && Logged(worker.busy, worker.traffic)
    }

    // So far every job was let go while the worker ran no request for the model, and every interruption that
    // waits for its retry was refused then.
    ghost predicate Safe()
      reads this, worker
    {
      Tracked() && AllQuiet(releases) && (interruptRetries > 0 ==> QuietAt(worker.traffic, refusedAt))
    }

    // A request was sent since the last interruption was refused, and neither its terminal envelope nor the exit
    // of its process has come since.
    ghost predicate Overtaken()
      reads this, worker
    {
      interruptRetries > 0 && StillRuns(worker.traffic, refusedAt)
    }

    // Something will come back to an active job: the worker settling, or a retry.
    ghost predicate Accounted()
      reads this, worker
    {
      || activeJob == "" || failRetries > 0 || cancelRetries > 0 || interruptRetries > 0
      || (pendingTerminalAction != NothingPending && !workerQuiescenceConfirmed && worker.forcedCancellationPending)
    }

    // Something will come back to an active job: its timer, download or media operation, the reply to its request as
    // long as the worker runs it, the timeout of the capabilities, or what accounts for it. A closing application is
    // past that.
    ghost predicate Alive()
      reads this, worker
    {
      continuation == Scheduled || worker.stopped || Accounted() || AwaitsReply()
    }

    ghost predicate AwaitsReply()
      reads this, worker
    {
      && continuation == Reply && pendingTerminalAction == NothingPending
      && (requestKind == GetCapabilities || requestId in worker.busy)
    }

    ghost function Waiting(): (string, RequestId, RequestKind)
      reads this
    {
      (activeJob, requestId, requestKind)
    }

    // refused: the event may leave the retry of an interruption behind.
    twostate predicate Moves(refused: bool)
      reads this, worker
    {
      && Climbing(old(Seen()), Seen()) && ReleasesOne(old(Seen()), Seen()) && old(worker.traffic) <= worker.traffic
      && Marked(old(Seen()), Seen(), |old(worker.traffic)|, |worker.traffic|, refused)
    }

    // What every event but a stray envelope keeps.
    twostate predicate Steps(refused: bool)
      reads this, worker
    {
      Moves(refused) && (Alive() || (!old(Alive()) && Waiting() == old(Waiting())))
    }

    // No request was sent, answered or lost, the process was left alone, and a shutdown stays one.
    twostate predicate Untouched()
      reads this, worker
    {
      worker.Untouched() && shuttingDown == old(shuttingDown)
    }

    twostate predicate Effects(action: PendingTerminalAction)
      reads this, worker
    {
      TakesEffect(old(Seen()), Seen(), Accounted(), action)
    }

    ghost function Now(): Moment
      reads this, worker
    {
      Moment(Seen(), worker.traffic, requestId, requestKind, continuation, cancelling, shuttingDown, failRetries, cancelRetries,
             worker.processRunning, worker.ready, worker.stopping, worker.stopped, Accounted(), Alive())
    }

    constructor (worker: Manager)
      requires worker.Valid() && worker.busy == {} && worker.traffic == []
      ensures this.worker == worker && Valid() && Safe() && Cleared() && !shuttingDown && releases == []
    {
      this.worker := worker;
      activeJob, cancelling, currentChunk := "", false, NoChunk;
      requestId, requestKind := NO_REQUEST, NoRequest;
      pendingTerminalAction, workerQuiescenceConfirmed := NothingPending, false;
      continuation := Idle;
      failRetries, cancelRetries, interruptRetries := 0, 0, 0;
      shuttingDown := false;
      releases, refusedAt := [], 0;
    }

    // ---- The terminal handlers.

    method RaisePendingAction(action: PendingTerminalAction)
      modifies `pendingTerminalAction, `workerQuiescenceConfirmed
      ensures pendingTerminalAction == Merged(old(pendingTerminalAction), action)
      ensures workerQuiescenceConfirmed == (old(workerQuiescenceConfirmed) && old(pendingTerminalAction) != NothingPending)
    {
      if pendingTerminalAction == NothingPending {
        pendingTerminalAction := action;
        workerQuiescenceConfirmed := false;
      } else if action == AbandonAfterLeaseLoss {
        // A stale owner has no authority to write any terminal checkpoint.
        pendingTerminalAction := action;
      } else if action == Cancel && pendingTerminalAction != AbandonAfterLeaseLoss {
        // A durable cancellation wins over a local failure that was waiting for the worker.
        pendingTerminalAction := action;
      }
    }

    method AwaitWorkerQuiescence(action: PendingTerminalAction, sent: bool) returns (wait: bool)
      requires Valid() && activeJob != "" && action != NothingPending
      modifies `pendingTerminalAction, `workerQuiescenceConfirmed, worker
      ensures Valid() && Untouched() && (old(Safe()) ==> Safe())
      ensures pendingTerminalAction == if MayStillRun() then Merged(old(pendingTerminalAction), action) else old(pendingTerminalAction)
      ensures wait ==> MayStillRun() && !workerQuiescenceConfirmed && worker.forcedCancellationPending
      ensures !wait && MayStillRun() ==> workerQuiescenceConfirmed
      ensures old(Safe()) && !wait ==> worker.busy == {}
    {
      if !MayStillRun() {
        return false;
      }
      RaisePendingAction(action);
      if workerQuiescenceConfirmed {
        return false;
      }
      var workerJobId := if requestKind == LoadModel then "" else activeJob;
      worker.ForceCancelAfterGrace(workerJobId, requestId, sent);
      if !worker.forcedCancellationPending {
        workerQuiescenceConfirmed := true;
        return false;
      }
      wait := true;
    }

    method FinishPendingTerminalCheckpoint(env: Environment, n: nat)
      requires Valid()
      modifies this, worker
      ensures Valid() && Untouched()
      ensures Climbs(old(Seen()), Seen(), NothingPending, worker.busy, |worker.traffic|, Refuses(env))
      ensures old(Safe()) && worker.busy == {} ==> Safe()
      ensures old(pendingTerminalAction) != NothingPending ==> Accounted()
      ensures old(pendingTerminalAction) == AbandonAfterLeaseLoss ==> Released(old(releases), Seen(), AsHandedOff, worker.busy)
      ensures old(pendingTerminalAction) == NothingPending ==> unchanged(this) && unchanged(worker)
      decreases 3 - Rank(pendingTerminalAction), 8
    {
      if pendingTerminalAction == NothingPending {
        return;
      }
      workerQuiescenceConfirmed := true;
      FinishConfirmed(env, n);
    }

    method FinishConfirmed(env: Environment, n: nat)
      requires Valid() && activeJob != "" && pendingTerminalAction != NothingPending && workerQuiescenceConfirmed
      modifies this, worker
      ensures Valid() && Untouched() && Accounted()
      ensures Climbs(old(Seen()), Seen(), NothingPending, worker.busy, |worker.traffic|, Refuses(env))
      ensures old(Safe()) && worker.busy == {} ==> Safe()
      ensures old(pendingTerminalAction) == AbandonAfterLeaseLoss ==> Released(old(releases), Seen(), AsHandedOff, worker.busy)
      decreases 3 - Rank(pendingTerminalAction), 7
    {
      if pendingTerminalAction != AbandonAfterLeaseLoss && env(n).leaseLost {
        AbandonActiveJobAfterLeaseLoss(env, n + 1);
        return;
      }
      PreferCancellation(env(n).cancelled);
      CheckpointPending(env, n + 1);
    }

    // A durable cancellation replaces a failure or an interruption that waited for the worker.
    method PreferCancellation(cancelled: bool)
      requires activeJob != ""
      modifies `cancelling, `pendingTerminalAction
      ensures pendingTerminalAction ==
        if (old(pendingTerminalAction) == Fail || old(pendingTerminalAction) == Interrupt) && (old(cancelling) || cancelled)
        then Cancel else old(pendingTerminalAction)
    {
      if pendingTerminalAction == Fail || pendingTerminalAction == Interrupt {
        var wins := DurableCancellationWins(cancelled);
        if wins {
          pendingTerminalAction := Cancel;
        }
      }
    }

    // The switch at the end of finishPendingTerminalCheckpoint.
    method CheckpointPending(env: Environment, n: nat)
      requires Valid() && activeJob != "" && pendingTerminalAction != NothingPending && workerQuiescenceConfirmed
      modifies this, worker
      ensures Valid() && Untouched()
      ensures Climbs(old(Seen()), Seen(), NothingPending, worker.busy, |worker.traffic|, Refuses(env)) && Accounted()
      ensures old(Safe()) && worker.busy == {} ==> Safe()
      ensures old(pendingTerminalAction) == AbandonAfterLeaseLoss ==> Released(old(releases), Seen(), AsHandedOff, worker.busy)
      decreases 3 - Rank(pendingTerminalAction), 6
    {
      match pendingTerminalAction
      case Fail => CheckpointFailedJob(env, n + 1);
      case Cancel => CheckpointCancellation(env, n + 1);
      case Interrupt => CheckpointInterruption(env, n + 1);
      case AbandonAfterLeaseLoss => LetGo(AsHandedOff);
      case NothingPending =>
    }

    method DurableCancellationWins(cancelled: bool) returns (wins: bool)
      requires activeJob != ""
      modifies `cancelling
      ensures wins == (old(cancelling) || cancelled) == cancelling
    {
      cancelling := cancelling || cancelled;
      wins := cancelling;
    }

    method ClearActive()
      modifies `activeJob, `cancelling, `currentChunk, `requestId, `requestKind, `pendingTerminalAction
      modifies `workerQuiescenceConfirmed, `continuation, `failRetries, `cancelRetries, `interruptRetries
      ensures Cleared()
    {
      activeJob, cancelling, currentChunk := "", false, NoChunk;
      requestId, requestKind := NO_REQUEST, NoRequest;
      pendingTerminalAction, workerQuiescenceConfirmed := NothingPending, false;
      continuation := Idle;
      failRetries, cancelRetries, interruptRetries := 0, 0, 0;
    }

    // publish, clearActive and the log of this model; a handoff writes no terminal state.
    method LetGo(cause: Cause)
      requires Valid() && activeJob != ""
      modifies this
      ensures Valid() && Cleared() && refusedAt == old(refusedAt) && shuttingDown == old(shuttingDown)
      ensures Released(old(releases), Seen(), cause, worker.busy)
      ensures old(Safe()) && worker.busy == {} ==> Safe()
    {
      releases := releases + [Release(cause, worker.busy)];
      ClearActive();
    }

    method FailActiveJob(env: Environment, n: nat)
      requires Valid()
      modifies this, worker
      ensures Valid() && Untouched()
      ensures Climbs(old(Seen()), Seen(), Fail, worker.busy, |worker.traffic|, Refuses(env)) && Accounted()
      ensures old(Safe()) ==> Safe()
      decreases 3 - Rank(pendingTerminalAction), 14
    {
      if activeJob == "" {
        return;
      }
      if env(n).leaseLost {
        AbandonActiveJobAfterLeaseLoss(env, n + 1);
        HigherClimbs(old(Seen()), Seen(), Fail, AbandonAfterLeaseLoss, worker.busy, |worker.traffic|, Refuses(env));
        return;
      }
      FailWithLease(env, n);
    }

    method FailWithLease(env: Environment, n: nat)
      requires Valid() && activeJob != ""
      modifies this, worker
      ensures Valid() && Untouched()
      ensures Climbs(old(Seen()), Seen(), Fail, worker.busy, |worker.traffic|, Refuses(env)) && Accounted()
      ensures old(Safe()) ==> Safe()
      decreases 3 - Rank(pendingTerminalAction), 13
    {
      var wins := DurableCancellationWins(env(n).cancelled);
      if wins {
        FinishCancellation(env, n + 1);
        HigherClimbs(old(Seen()), Seen(), Fail, Cancel, worker.busy, |worker.traffic|, Refuses(env));
        return;
      }
      FailOnceQuiet(env, n);
    }

    method FailOnceQuiet(env: Environment, n: nat)
      requires Valid() && activeJob != ""
      modifies this, worker
      ensures Valid() && Untouched()
      ensures Climbs(old(Seen()), Seen(), Fail, worker.busy, |worker.traffic|, Refuses(env)) && Accounted()
      ensures old(Safe()) ==> Safe()
      decreases 3 - Rank(pendingTerminalAction), 12
    {
      if MayStillRun() {
        var wait := AwaitWorkerQuiescence(Fail, env(n).sent);
        if wait {
          return;
        }
        FinishPendingTerminalCheckpoint(env, n + 1);
        return;
      }
      CheckpointFailedJob(env, n + 1);
    }

    method CheckpointFailedJob(env: Environment, n: nat)
      requires Valid() && activeJob != "" && (pendingTerminalAction == NothingPending || pendingTerminalAction == Fail)
      requires pendingTerminalAction == Fail ==> workerQuiescenceConfirmed
      modifies this, worker
      ensures Valid() && Untouched()
      ensures Climbs(old(Seen()), Seen(), Fail, worker.busy, |worker.traffic|, Refuses(env)) && Accounted()
      ensures old(Safe()) && worker.busy == {} ==> Safe()
      ensures (old(currentChunk) == At(Running) ==> env(n).chunkWrite == Written) && env(n).jobWrite == Written ==>
        Released(old(releases), Seen(), AsFailed, worker.busy)
      decreases 2, 5
    {
      if currentChunk == At(Running) {
        match env(n).chunkWrite
        case LeaseLost =>
          AbandonActiveJobAfterLeaseLoss(env, n + 1);
          return;
        case Refused =>
          failRetries := failRetries + 1;
          return;
        case Written =>
          currentChunk := At(Failed);
      }
      TransitionToFailed(env, n);
    }

    method TransitionToFailed(env: Environment, n: nat)
      requires Valid() && activeJob != "" && (pendingTerminalAction == NothingPending || pendingTerminalAction == Fail)
      requires pendingTerminalAction == Fail ==> workerQuiescenceConfirmed
      modifies this, worker
      ensures Valid() && Untouched()
      ensures Climbs(old(Seen()), Seen(), Fail, worker.busy, |worker.traffic|, Refuses(env)) && Accounted()
      ensures old(Safe()) && worker.busy == {} ==> Safe()
      ensures env(n).jobWrite == Written ==> Released(old(releases), Seen(), AsFailed, worker.busy)
      decreases 2, 4
    {
      match env(n).jobWrite {
        case LeaseLost =>
          AbandonActiveJobAfterLeaseLoss(env, n + 1);
          return;
        case Refused =>
          var settled := TransitionToFailedRefused(env, n);
          if settled {
            return;
          }
        case Written =>
      }
      LetGo(AsFailed);
    }

    // A refused transition: a cancellation takes over, or a retry is due, or nothing is left to do.
    method TransitionToFailedRefused(env: Environment, n: nat) returns (settled: bool)
      requires Valid() && activeJob != "" && (pendingTerminalAction == NothingPending || pendingTerminalAction == Fail)
      requires pendingTerminalAction == Fail ==> workerQuiescenceConfirmed
      modifies this, worker
      ensures Valid() && Untouched()
      ensures Climbs(old(Seen()), Seen(), Fail, worker.busy, |worker.traffic|, Refuses(env))
      ensures if settled then Accounted() else Seen() == old(Seen()) && !env(n).stillRunning
      ensures old(Safe()) && worker.busy == {} ==> Safe()
      decreases 2, 3
    {
      var wins := DurableCancellationWins(env(n).cancelled);
      if wins {
        FinishCancellation(env, n + 1);
        HigherClimbs(old(Seen()), Seen(), Fail, Cancel, worker.busy, |worker.traffic|, Refuses(env));
        return true;
      }
      if env(n).stillRunning {
        failRetries := failRetries + 1;
      }
      settled := env(n).stillRunning;
    }

    method FinishCancellation(env: Environment, n: nat)
      requires Valid()
      modifies this, worker
      ensures Valid() && Untouched()
      ensures Climbs(old(Seen()), Seen(), Cancel, worker.busy, |worker.traffic|, Refuses(env)) && Accounted()
      ensures old(Safe()) ==> Safe()
      decreases if pendingTerminalAction == AbandonAfterLeaseLoss then 0 else 1, 11
    {
      if activeJob == "" {
        return;
      }
      if env(n).leaseLost {
        AbandonActiveJobAfterLeaseLoss(env, n + 1);
        return;
      }
      if MayStillRun() {
        var wait := AwaitWorkerQuiescence(Cancel, env(n).sent);
        if wait {
          return;
        }
        FinishPendingTerminalCheckpoint(env, n + 1);
        return;
      }
      CheckpointCancellation(env, n + 1);
    }

    method CheckpointCancellation(env: Environment, n: nat)
      requires Valid() && activeJob != "" && (pendingTerminalAction == NothingPending || pendingTerminalAction == Cancel)
      requires pendingTerminalAction == Cancel ==> workerQuiescenceConfirmed
      modifies this, worker
      ensures Valid() && Untouched()
      ensures Climbs(old(Seen()), Seen(), Cancel, worker.busy, |worker.traffic|, Refuses(env)) && Accounted()
      ensures old(Safe()) && worker.busy == {} ==> Safe()
      ensures (old(Cancellable(currentChunk)) ==> env(n).chunkWrite == Written) && env(n).jobWrite == Written ==>
        Released(old(releases), Seen(), AsCancelled, worker.busy)
      decreases 1, 5
    {
      if Cancellable(currentChunk) {
        match env(n).chunkWrite
        case LeaseLost =>
          AbandonActiveJobAfterLeaseLoss(env, n + 1);
          return;
        case Refused =>
          cancelRetries := cancelRetries + 1;
          return;
        case Written =>
          currentChunk := At(Cancelled);
      }
      TransitionToCancelled(env, n);
    }

    method TransitionToCancelled(env: Environment, n: nat)
      requires Valid() && activeJob != "" && (pendingTerminalAction == NothingPending || pendingTerminalAction == Cancel)
      requires pendingTerminalAction == Cancel ==> workerQuiescenceConfirmed
      modifies this, worker
      ensures Valid() && Untouched()
      ensures Climbs(old(Seen()), Seen(), Cancel, worker.busy, |worker.traffic|, Refuses(env)) && Accounted()
      ensures old(Safe()) && worker.busy == {} ==> Safe()
      ensures env(n).jobWrite == Written ==> Released(old(releases), Seen(), AsCancelled, worker.busy)
      decreases 1, 4
    {
      match env(n).jobWrite {
        case LeaseLost =>
          AbandonActiveJobAfterLeaseLoss(env, n + 1);
          return;
        case Refused =>
          if env(n).stillRunning {
            cancelRetries := cancelRetries + 1;
            return;
          }
        case Written =>
      }
      LetGo(AsCancelled);
    }

    method InterruptActiveJob(env: Environment, n: nat)
      requires Valid()
      modifies this, worker
      ensures Valid() && Untouched()
      ensures Climbs(old(Seen()), Seen(), Interrupt, worker.busy, |worker.traffic|, Refuses(env)) && Accounted()
      ensures old(Safe()) && worker.busy == {} ==> Safe()
      ensures old(Uneventful()) && Accepts(env(n)) && Accepts(env(n + 1)) ==> Released(old(releases), Seen(), AsInterrupted, worker.busy)
      ensures old(Uneventful()) && RefusesForNow(env(n)) && RefusesForNow(env(n + 1)) ==>
        interruptRetries > 0 && JobSide() == old(JobSide()) && Uneventful()
        && unchanged(`continuation, `requestId, `requestKind) && unchanged(worker)
    {
      if activeJob == "" {
        return;
      }
      if pendingTerminalAction != NothingPending {
        workerQuiescenceConfirmed := true;
        FinishPendingTerminalCheckpoint(env, n + 1);
        return;
      }
      InterruptAtOnce(env, n);
    }

    method InterruptAtOnce(env: Environment, n: nat)
      requires Valid() && activeJob != "" && pendingTerminalAction == NothingPending
      modifies this, worker
      ensures Valid() && Untouched()
      ensures Climbs(old(Seen()), Seen(), Interrupt, worker.busy, |worker.traffic|, Refuses(env)) && Accounted()
      ensures old(Safe()) && worker.busy == {} ==> Safe()
      ensures old(Uneventful()) && Accepts(env(n)) && Accepts(env(n + 1)) ==> Released(old(releases), Seen(), AsInterrupted, worker.busy)
      ensures old(Uneventful()) && RefusesForNow(env(n)) && RefusesForNow(env(n + 1)) ==>
        interruptRetries > 0 && JobSide() == old(JobSide()) && Uneventful()
        && unchanged(`continuation, `requestId, `requestKind) && unchanged(worker)
    {
      if env(n).leaseLost {
        AbandonActiveJobAfterLeaseLoss(env, n + 1);
        HigherClimbs(old(Seen()), Seen(), Interrupt, AbandonAfterLeaseLoss, worker.busy, |worker.traffic|, Refuses(env));
        return;
      }
      var wins := DurableCancellationWins(env(n).cancelled);
      if wins {
        CheckpointCancellation(env, n + 1);
        HigherClimbs(old(Seen()), Seen(), Interrupt, Cancel, worker.busy, |worker.traffic|, Refuses(env));
        return;
      }
      CheckpointInterruption(env, n + 1);
    }

    method CheckpointInterruption(env: Environment, n: nat)
      requires Valid() && activeJob != "" && (pendingTerminalAction == NothingPending || pendingTerminalAction == Interrupt)
      requires pendingTerminalAction == Interrupt ==> workerQuiescenceConfirmed
      modifies this, worker
      ensures Valid() && Untouched()
      ensures Climbs(old(Seen()), Seen(), Interrupt, worker.busy, |worker.traffic|, Refuses(env)) && Accounted()
      ensures old(Safe()) && worker.busy == {} ==> Safe()
      ensures (old(currentChunk) == At(Running) ==> env(n).chunkWrite == Written) && env(n).jobWrite == Written ==>
        Released(old(releases), Seen(), AsInterrupted, worker.busy)
      ensures old(Uneventful()) && RefusesForNow(env(n)) ==>
        interruptRetries > 0 && JobSide() == old(JobSide()) && Uneventful()
        && unchanged(`continuation, `requestId, `requestKind) && unchanged(worker)
      decreases 2, 5
    {
      if currentChunk == At(Running) {
        match env(n).chunkWrite
        case LeaseLost =>
          AbandonActiveJobAfterLeaseLoss(env, n + 1);
          return;
        case Refused =>
          RetryInterruption();
          return;
        case Written =>
          currentChunk := At(Interrupted);
      }
      TransitionToInterrupted(env, n);
    }

    method TransitionToInterrupted(env: Environment, n: nat)
      requires Valid() && activeJob != "" && (pendingTerminalAction == NothingPending || pendingTerminalAction == Interrupt)
      requires pendingTerminalAction == Interrupt ==> workerQuiescenceConfirmed
      modifies this, worker
      ensures Valid() && Untouched()
      ensures Climbs(old(Seen()), Seen(), Interrupt, worker.busy, |worker.traffic|, Refuses(env)) && Accounted()
      ensures old(Safe()) && worker.busy == {} ==> Safe()
      ensures env(n).jobWrite == Written ==> Released(old(releases), Seen(), AsInterrupted, worker.busy)
      ensures old(Uneventful()) && RefusesForNow(env(n)) ==>
        interruptRetries > 0 && JobSide() == old(JobSide()) && Uneventful()
        && unchanged(`continuation, `requestId, `requestKind) && unchanged(worker)
      decreases 2, 4
    {
      match env(n).jobWrite {
        case LeaseLost =>
          AbandonActiveJobAfterLeaseLoss(env, n + 1);
          return;
        case Refused =>
          var settled := TransitionToInterruptedRefused(env, n);
          if settled {
            return;
          }
        case Written =>
      }
      LetGo(AsInterrupted);
    }

    // A refused transition: a cancellation takes over, or a retry is due, or nothing is left to do.
    method TransitionToInterruptedRefused(env: Environment, n: nat) returns (settled: bool)
      requires Valid() && activeJob != "" && (pendingTerminalAction == NothingPending || pendingTerminalAction == Interrupt)
      requires env(n).jobWrite == Refused
      requires pendingTerminalAction == Interrupt ==> workerQuiescenceConfirmed
      modifies this, worker
      ensures Valid() && Untouched()
      ensures Climbs(old(Seen()), Seen(), Interrupt, worker.busy, |worker.traffic|, Refuses(env))
      ensures if settled then Accounted() else Seen() == old(Seen()) && !env(n).stillRunning
      ensures old(Safe()) && worker.busy == {} ==> Safe()
      ensures old(Uneventful()) && RefusesForNow(env(n)) ==>
        settled && interruptRetries > 0 && JobSide() == old(JobSide()) && Uneventful()
        && unchanged(`continuation, `requestId, `requestKind) && unchanged(worker)
      decreases 2, 3
    {
      var wins := DurableCancellationWins(env(n).cancelled);
      if wins {
        FinishCancellation(env, n + 1);
        HigherClimbs(old(Seen()), Seen(), Interrupt, Cancel, worker.busy, |worker.traffic|, Refuses(env));
        return true;
      }
      if env(n).stillRunning {
        RetryInterruption();
      }
      settled := env(n).stillRunning;
    }

    // The single-shot timer of a refused interruption.
    method RetryInterruption()
      requires Valid() && activeJob != ""
      modifies `interruptRetries, `refusedAt
      ensures Valid() && Accounted() && (old(Safe()) && worker.busy == {} ==> Safe())
      ensures interruptRetries == old(interruptRetries) + 1 && refusedAt == |worker.traffic|
    {
      interruptRetries, refusedAt := interruptRetries + 1, |worker.traffic|;
      QuietNow(worker.busy, worker.traffic);
    }

    method AbandonActiveJobAfterLeaseLoss(env: Environment, n: nat)
      requires Valid()
      modifies this, worker
      ensures Valid() && Untouched()
      ensures Climbs(old(Seen()), Seen(), AbandonAfterLeaseLoss, worker.busy, |worker.traffic|, Refuses(env)) && Accounted()
      ensures activeJob != "" ==> pendingTerminalAction == AbandonAfterLeaseLoss && !worker.ready
      ensures releases == old(releases) || releases == old(releases) + [Release(AsHandedOff, worker.busy)]
      ensures old(Safe()) ==> Safe()
      decreases 0, 10
    {
      if activeJob == "" {
        return;
      }
      if MayStillRun() {
        var wait := AwaitWorkerQuiescence(AbandonAfterLeaseLoss, env(n).sent);
        if wait {
          AbortWorker(env, n + 1);
          return;
        }
        FinishPendingTerminalCheckpoint(env, n + 1);
        return;
      }
      LetGo(AsHandedOff);
    }

    // abortImmediately, and the settling it may signal.
    method AbortWorker(env: Environment, n: nat)
      requires Valid() && activeJob != "" && pendingTerminalAction == AbandonAfterLeaseLoss
      requires !workerQuiescenceConfirmed && worker.forcedCancellationPending
      modifies this, worker
      ensures Valid() && Untouched()
      ensures Climbs(old(Seen()), Seen(), NothingPending, worker.busy, |worker.traffic|, Refuses(env)) && Accounted()
      ensures activeJob != "" ==> pendingTerminalAction == AbandonAfterLeaseLoss && !worker.ready
      ensures releases == old(releases) || releases == old(releases) + [Release(AsHandedOff, worker.busy)]
      ensures old(Safe()) ==> Safe()
      decreases 0, 9
    {
      var settled := worker.AbortImmediately();
      if settled {
        FinishPendingTerminalCheckpoint(env, n);
      }
    }

    // ---- The events of the loop. Each keeps every running request tracked and releases no job under one.

    // scheduleNext: a job was claimed.
    method ClaimJob(job: string)
      requires Valid()
      modifies this
      ensures Valid() && releases == old(releases) && (old(Safe()) ==> Safe()) && Steps(false)
      ensures old(activeJob) == "" && job != "" && !shuttingDown && !worker.forcedCancellationPending ==>
        activeJob == job && continuation == Scheduled && !cancelling && currentChunk == NoChunk && NoRetries()
        && pendingTerminalAction == NothingPending && requestId == NO_REQUEST
      ensures shuttingDown == old(shuttingDown)
    {
      if activeJob != "" || job == "" || shuttingDown || worker.forcedCancellationPending {
        return;
      }
      activeJob := job;
      continuation := Scheduled;
    }

    // sendRequest for the active job; a request that cannot be sent fails the job.
    method SendRequest(kind: RequestKind, env: Environment)
      requires Valid() && activeJob != "" && continuation == Idle && !MayStillRun() && kind != NoRequest
      modifies this, worker
      ensures Valid() && Alive() && Steps(false)
      ensures old(Safe()) ==> Safe()
      ensures worker.traffic == old(worker.traffic)
              || (kind != GetCapabilities && worker.traffic == old(worker.traffic) + [Sent(old(worker.nextRequestId))])
      ensures old(worker.ready) ==>
        && requestId == old(worker.nextRequestId) && requestKind == kind && continuation == Reply && releases == old(releases)
        && worker.busy == old(worker.busy) + (if kind == GetCapabilities then {} else {requestId})
        && unchanged(`activeJob, `cancelling, `currentChunk, `pendingTerminalAction, `failRetries, `cancelRetries, `interruptRetries)
      ensures old(worker.ready) ==> Seen() == old(Seen())
      ensures !old(worker.ready) ==> Effects(Fail)
      ensures old(worker.ready) && env(0).sent ==>
        && worker.ready && worker.stopping == old(worker.stopping) && worker.ProcessSide() == old(worker.ProcessSide())
    {
      var posted := PostRequest(kind, env(0).sent);
      if posted {
        continuation := Reply;
      } else {
        FailActiveJob(env, 1);
      }
    }

    method PostRequest(kind: RequestKind, sent: bool) returns (posted: bool)
      requires Valid() && activeJob != "" && continuation == Idle && !MayStillRun() && kind != NoRequest
      modifies `requestKind, `requestId, worker`nextRequestId, worker`busy, worker`traffic
      modifies worker`processGeneration, worker`authenticatedProcessGeneration, worker`ready
      ensures Valid() && (old(Safe()) ==> Safe())
      ensures worker.traffic == old(worker.traffic)
              || (kind != GetCapabilities && worker.traffic == old(worker.traffic) + [Sent(old(worker.nextRequestId))])
      ensures posted == old(worker.ready)
      ensures posted ==> requestId == old(worker.nextRequestId) && requestKind == kind && worker.processRunning
      ensures posted ==> worker.busy == old(worker.busy) + (if kind == GetCapabilities then {} else {requestId})
      ensures posted && sent ==> worker.ready
      ensures !posted ==> !MayStillRun()
    {
      requestKind := kind;
      LogGrows(worker.busy, worker.traffic, Sent(worker.nextRequestId), refusedAt);
      requestId := worker.SendRequest(kind != GetCapabilities, sent);
      posted := requestId != NO_REQUEST;
    }

    // The next step of the job, when its timer, download or media operation comes back.
    method ContinueJob(step: Step, env: Environment)
      requires Valid()
      modifies this, worker
      ensures Valid() && (old(Safe()) ==> Safe()) && Steps(false)
      ensures LogsAtMost(Continued(step), old(worker.traffic), worker.traffic)
      ensures old(continuation) != Scheduled || (step == Wait && !old(cancelling)) ==> unchanged(this) && unchanged(worker)
      ensures old(continuation) == Scheduled && old(cancelling) && old(activeJob) != "" ==> Effects(Cancel)
      ensures old(continuation) == Scheduled && !old(cancelling) && old(activeJob) != "" ==> Taken(step, env(0))
      ensures old(continuation) == Scheduled && old(Uneventful()) && step.Send? && step.kind != NoRequest && old(worker.ready)
              && env(0).sent ==>
        && requestId == old(worker.nextRequestId) && requestKind == step.kind && continuation == Reply && releases == old(releases)
        && worker.busy == old(worker.busy) + (if step.kind == GetCapabilities then {} else {requestId})
        && unchanged(`activeJob, `cancelling, `pendingTerminalAction, `failRetries, `cancelRetries, `interruptRetries)
        && (step.kind != TranscribeChunk ==> Uneventful())
        && worker.ready && worker.stopping == old(worker.stopping) && worker.ProcessSide() == old(worker.ProcessSide())
    {
      if activeJob == "" || continuation != Scheduled {
        return;
      }
      if cancelling {
        continuation := Idle;
        FinishCancellation(env, 0);
        return;
      }
      TakeStep(step, env);
    }

    // What a step does to a job that is not cancelled.
    twostate predicate Taken(step: Step, answer: Answers)
      reads this, worker
    {
      && (step == Fails ==> Effects(Fail))
      && (step.Send? && step.kind != NoRequest ==>
            if old(worker.ready) then
              && Seen() == old(Seen()) && continuation == Reply && requestKind == step.kind
              && currentChunk == (if step.kind == TranscribeChunk then At(Running) else old(currentChunk))
            else Effects(Fail))
      && (step == Completes ==>
            if !answer.cancelled && answer.jobWrite == Written then Released(old(releases), Seen(), AsCompleted, old(worker.busy))
            else Effects(Fail))
    }

    method TakeStep(step: Step, env: Environment)
      requires Valid() && activeJob != "" && continuation == Scheduled && !cancelling
      modifies this, worker
      ensures Valid() && (old(Safe()) ==> Safe()) && Steps(false)
      ensures LogsAtMost(Continued(step), old(worker.traffic), worker.traffic)
      ensures step == Wait ==> unchanged(this) && unchanged(worker)
      ensures Taken(step, env(0))
      ensures old(Uneventful()) && step.Send? && step.kind != NoRequest && old(worker.ready) && env(0).sent ==>
        && requestId == old(worker.nextRequestId) && requestKind == step.kind && continuation == Reply && releases == old(releases)
        && worker.busy == old(worker.busy) + (if step.kind == GetCapabilities then {} else {requestId})
        && unchanged(`activeJob, `cancelling, `pendingTerminalAction, `failRetries, `cancelRetries, `interruptRetries)
        && (step.kind != TranscribeChunk ==> Uneventful())
        && worker.ready && worker.stopping == old(worker.stopping) && worker.ProcessSide() == old(worker.ProcessSide())
    {
      match step
      case Wait =>
      case Fails =>
        continuation := Idle;
        EndFailed(env, 0);
      case Send(kind) =>
        if kind == NoRequest {
          return;
        }
        Ask(kind, env);
      case Completes =>
        continuation := Idle;
        CompleteActiveJob(env);
    }

    method Ask(kind: RequestKind, env: Environment)
      requires Valid() && activeJob != "" && continuation == Scheduled && kind != NoRequest
      modifies this, worker
      ensures Valid() && Alive() && Steps(false)
      ensures old(Safe()) ==> Safe()
      ensures worker.traffic == old(worker.traffic)
              || (kind != GetCapabilities && worker.traffic == old(worker.traffic) + [Sent(old(worker.nextRequestId))])
      ensures if old(worker.ready) then
                && Seen() == old(Seen()) && continuation == Reply && requestKind == kind && requestId == old(worker.nextRequestId)
                && currentChunk == (if kind == TranscribeChunk then At(Running) else old(currentChunk))
                && worker.busy == old(worker.busy) + (if kind == GetCapabilities then {} else {requestId})
                && unchanged(`cancelling, `failRetries, `cancelRetries)
              else Effects(Fail)
      ensures old(worker.ready) && env(0).sent ==>
        worker.ready && worker.stopping == old(worker.stopping) && worker.ProcessSide() == old(worker.ProcessSide())
    {
      continuation := Idle;
      if kind == TranscribeChunk {
        currentChunk := At(Running);
      }
      SendRequest(kind, env);
    }

    method CompleteActiveJob(env: Environment)
      requires Valid() && activeJob != "" && !MayStillRun()
      modifies this, worker
      ensures Valid() && Untouched() && (old(Safe()) ==> Safe()) && Steps(false)
      ensures if !old(cancelling) && !env(0).cancelled && env(0).jobWrite == Written then
                Released(old(releases), Seen(), AsCompleted, worker.busy)
              else Effects(Fail)
    {
      var wins := DurableCancellationWins(env(0).cancelled);
      if wins {
        EndCancelled(env, 1);
        return;
      }
      if env(0).jobWrite != Written {
        CompletionRefused(env);
        return;
      }
      LetGo(AsCompleted);
    }

    method CompletionRefused(env: Environment)
      requires Valid() && activeJob != "" && pendingTerminalAction == NothingPending
      modifies this, worker
      ensures Valid() && Untouched() && (old(Safe()) ==> Safe()) && Steps(false) && Effects(Fail)
    {
      var wins := DurableCancellationWins(env(1).cancelled);
      if wins {
        EndCancelled(env, 2);
      } else {
        EndFailed(env, 2);
      }
    }

    // A progress or segment write failed, a reply was malformed or a timeout ran out.
    method OperationFails(env: Environment)
      requires Valid()
      modifies this, worker
      ensures Valid() && Untouched() && (old(Safe()) ==> Safe()) && Steps(Refuses(env)) && Effects(Fail)
    {
      FailActiveJob(env, 0);
    }

    // cancel and the first half of renewActiveLease. A media operation is aborted and its continuation ends the job.
    method CancelRequested(mediaRunning: bool, env: Environment)
      requires Valid()
      modifies this, worker
      ensures Valid() && Untouched() && (old(Safe()) ==> Safe()) && Steps(false)
      ensures old(activeJob) == "" ==> activeJob == ""
      ensures old(activeJob) != "" && !old(cancelling) ==>
        if mediaRunning && old(continuation) == Scheduled then cancelling && Seen() == old(Seen()) else Effects(Cancel)
    {
      if activeJob == "" || cancelling {
        return;
      }
      cancelling := true;
      if mediaRunning && continuation == Scheduled {
        return;
      }
      FinishCancellation(env, 0);
    }

    method RenewActiveLease(cancelled: bool, mediaRunning: bool, renewed: bool, env: Environment, later: Environment)
      requires Valid()
      modifies this, worker
      ensures Valid() && Untouched() && (old(Safe()) ==> Safe()) && Steps(false)
      ensures !renewed ==> activeJob == "" || pendingTerminalAction == AbandonAfterLeaseLoss
      ensures renewed && cancelled && old(activeJob) != "" && !old(cancelling) ==>
        if mediaRunning && old(continuation) == Scheduled then cancelling && Seen() == old(Seen()) else Effects(Cancel)
    {
      if cancelled {
        CancelRequested(mediaRunning, env);
      }
      if !renewed {
        AbandonActiveJobAfterLeaseLoss(later, 0);
      }
    }

    method Shutdown(renewed: bool, env: Environment)
      requires Valid()
      modifies this, worker
      ensures Valid() && worker.Untouched() && (old(Safe()) ==> Safe()) && Steps(Refuses(env))
      ensures shuttingDown && (!old(shuttingDown) ==> Effects(Interrupt))
    {
      if shuttingDown {
        return;
      }
      shuttingDown := true;
      if activeJob != "" {
        ShutdownJob(renewed, env);
      }
    }

    method ShutdownJob(renewed: bool, env: Environment)
      requires Valid() && activeJob != ""
      modifies this, worker
      ensures Valid() && Untouched() && (old(Safe()) ==> Safe()) && Effects(Interrupt)
      ensures Climbing(old(Seen()), Seen()) && ReleasesOne(old(Seen()), Seen())
      ensures Marked(old(Seen()), Seen(), |worker.traffic|, |worker.traffic|, Refuses(env))
    {
      if MayStillRun() {
        InterruptOnceQuiet(renewed, env);
      } else {
        CheckpointInterruption(env, 0);
      }
      ClimbsTakesEffect(old(Seen()), Seen(), Interrupt, worker.busy, |worker.traffic|, Refuses(env));
    }

    // The lease is renewed once more to cover the wait for the worker.
    method InterruptOnceQuiet(renewed: bool, env: Environment)
      requires Valid() && activeJob != "" && MayStillRun()
      modifies this, worker
      ensures Valid() && Untouched() && (old(Safe()) ==> Safe()) && Accounted()
      ensures Climbs(old(Seen()), Seen(), Interrupt, worker.busy, |worker.traffic|, Refuses(env))
    {
      if !renewed {
        AbandonActiveJobAfterLeaseLoss(env, 0);
        return;
      }
      var wait := AwaitWorkerQuiescence(Interrupt, env(0).sent);
      if !wait {
        FinishPendingTerminalCheckpoint(env, 1);
      }
    }

    method FailRetryFires(env: Environment)
      requires Valid()
      modifies this, worker
      ensures Valid() && Untouched() && (old(Safe()) ==> Safe()) && Steps(Refuses(env))
      ensures old(failRetries) > 0 ==> Effects(Fail)
    {
      if failRetries > 0 {
        failRetries := failRetries - 1;
        FailActiveJob(env, 0);
      }
    }

    method CancelRetryFires(env: Environment)
      requires Valid()
      modifies this, worker
      ensures Valid() && Untouched() && (old(Safe()) ==> Safe()) && Steps(false)
      ensures old(cancelRetries) > 0 ==> Effects(Cancel)
    {
      if cancelRetries > 0 {
        cancelRetries := cancelRetries - 1;
        FinishCancellation(env, 0);
      }
    }

    // The retry of an interruption does not ask again whether a request may be running, as the other two do. What it
    // releases, it releases too early exactly when it was overtaken. It never is while no request may be running.
    method InterruptRetryFires(env: Environment)
      requires Valid()
      modifies this, worker
      ensures Valid() && Untouched() && Steps(Refuses(env))
      ensures if old(interruptRetries) == 0 then unchanged(this) && unchanged(worker) else Effects(Interrupt)
      ensures old(Safe()) && !old(Overtaken()) ==> Safe()
      ensures old(Safe()) && releases != old(releases) ==> (AllQuiet(releases) <==> !old(Overtaken()))
      ensures old(Safe()) && old(Overtaken()) ==> old(MayStillRun()) && old(worker.processRunning)
      ensures old(interruptRetries) > 0 && old(Uneventful()) && Accepts(env(0)) && Accepts(env(1)) ==>
        Released(old(releases), Seen(), AsInterrupted, worker.busy) && worker.busy == old(worker.busy)
    {
      if interruptRetries > 0 {
        if Safe() {
          SentSince(worker.traffic, refusedAt);
        }
        RetryInterrupts(env);
        if releases != old(releases) {
          OneMoreRelease(old(releases), releases[|releases| - 1]);
        }
      }
    }

    method RetryInterrupts(env: Environment)
      requires Valid() && interruptRetries > 0
      modifies this, worker
      ensures Valid() && Untouched() && (old(Safe()) && worker.busy == {} ==> Safe()) && Steps(Refuses(env)) && Effects(Interrupt)
      ensures releases != old(releases) ==> (exists cause :: releases == old(releases) + [Release(cause, worker.busy)])
      ensures old(Uneventful()) && Accepts(env(0)) && Accepts(env(1)) ==> Released(old(releases), Seen(), AsInterrupted, worker.busy)
    {
      interruptRetries := interruptRetries - 1;
      InterruptAsAsked(env);
    }

    // interruptActiveJob, from the retry or the signal of the manager.
    method InterruptAsAsked(env: Environment)
      requires Valid()
      modifies this, worker
      ensures Valid() && Untouched() && (old(Safe()) && worker.busy == {} ==> Safe())
      ensures Effects(Interrupt) && Climbing(old(Seen()), Seen()) && ReleasesOne(old(Seen()), Seen())
      ensures Marked(old(Seen()), Seen(), |worker.traffic|, |worker.traffic|, Refuses(env))
      ensures releases != old(releases) ==> (exists cause :: releases == old(releases) + [Release(cause, worker.busy)])
      ensures old(Uneventful()) && Accepts(env(0)) && Accepts(env(1)) ==> Released(old(releases), Seen(), AsInterrupted, worker.busy)
      ensures old(Uneventful()) && RefusesForNow(env(0)) && RefusesForNow(env(1)) ==>
        interruptRetries > 0 && JobSide() == old(JobSide()) && Uneventful()
        && unchanged(`continuation, `requestId, `requestKind) && unchanged(worker)
    {
      InterruptActiveJob(env, 0);
      ClimbsTakesEffect(old(Seen()), Seen(), Interrupt, worker.busy, |worker.traffic|, Refuses(env));
    }

    method ProcessFinished(now: int, env: Environment)
      requires Valid() && worker.processRunning && worker.clock <= now
      modifies this, worker
      ensures Valid() && (old(Safe()) ==> Safe()) && Steps(Refuses(env))
      ensures worker.traffic == old(worker.traffic) + [Exited]
      ensures !old(worker.stopping) ==> Effects(Interrupt)
      ensures old(Uneventful()) && !old(worker.stopping) && RefusesForNow(env(0)) && RefusesForNow(env(1)) ==>
        interruptRetries > 0 && JobSide() == old(JobSide()) && Uneventful() && unchanged(`continuation, `requestId)
        && !worker.processRunning && worker.busy == {} && !worker.stopping
        && worker.forcedCancellationPending == old(worker.forcedCancellationPending)
        && worker.failedExecutables <= old(worker.failedExecutables + {worker.currentExecutable})
    {
      LogGrows(worker.busy, worker.traffic, Exited, refusedAt);
      var interrupted, settled := worker.ProcessExited();
      if interrupted {
        WorkerInterrupted(now, env);
      } else {
        Settle(settled, env);
      }
    }

    // The forcedCancellationSettled signal, if it was raised.
    method Settle(settled: bool, env: Environment)
      requires Valid()
      modifies this, worker
      ensures Valid() && Untouched() && Climbing(old(Seen()), Seen()) && ReleasesOne(old(Seen()), Seen())
      ensures Marked(old(Seen()), Seen(), |worker.traffic|, |worker.traffic|, Refuses(env))
      ensures old(Safe()) && worker.busy == {} ==> Safe()
      ensures !settled || old(pendingTerminalAction) == NothingPending ==> unchanged(this) && unchanged(worker)
      ensures settled && old(pendingTerminalAction) != NothingPending ==> Effects(NothingPending)
    {
      if settled {
        FinishPendingTerminalCheckpoint(env, 0);
        ClimbsTakesEffect(old(Seen()), Seen(), NothingPending, worker.busy, |worker.traffic|, Refuses(env));
      }
    }

    // The workerInterrupted signal and the rest of handleUnexpectedExit.
    method WorkerInterrupted(now: int, env: Environment)
      requires Valid() && worker.clock <= now
      modifies this, worker
      ensures Valid() && Effects(Interrupt) && Climbing(old(Seen()), Seen())
      ensures Marked(old(Seen()), Seen(), |worker.traffic|, |worker.traffic|, Refuses(env)) && ReleasesOne(old(Seen()), Seen())
      ensures worker.traffic == old(worker.traffic)
      ensures old(Safe()) && old(worker.busy) == {} ==> Safe()
      ensures worker.processRunning == old(worker.processRunning)
      ensures worker.failedExecutables <= old(worker.failedExecutables + {worker.currentExecutable})
      ensures old(Uneventful()) && RefusesForNow(env(0)) && RefusesForNow(env(1)) ==>
        interruptRetries > 0 && JobSide() == old(JobSide()) && Uneventful() && unchanged(`continuation, `requestId)
        && worker.busy == old(worker.busy) && worker.stopping == old(worker.stopping)
        && worker.forcedCancellationPending == old(worker.forcedCancellationPending)
    {
      InterruptAsAsked(env);
      var restart := worker.RestartAfterExit(now);
    }

    method WorkerReady(env: Environment)
      requires Valid() && worker.CanBecomeReady()
      modifies this, worker
      ensures Valid() && worker.traffic == old(worker.traffic) && (old(Safe()) ==> Safe()) && Steps(Refuses(env))
      ensures !old(worker.forcedCancellationPending) ==>
        && unchanged(this) && worker.ready && !worker.forcedCancellationPending && worker.busy == {}
        && worker.stopping == old(worker.stopping) && worker.ProcessSide() == old(worker.ProcessSide())
    {
      var settled := worker.BecomeReady();
      Settle(settled, env);
    }

    method StopWorker(exits: bool, env: Environment)
      requires Valid()
      modifies this, worker
      ensures Valid() && (old(Safe()) ==> Safe()) && Steps(Refuses(env))
      ensures LogsAtMost(Stopped(exits), old(worker.traffic), worker.traffic)
    {
      LogGrows(worker.busy, worker.traffic, Exited, refusedAt);
      var settled := worker.Stop(exits);
      Settle(settled, env);
    }

    // An envelope arrives. The manager's slot was connected first and runs first; nothing depends on that.
    method ReceiveEnvelope(key: Operation, envelope: Envelope, managerFirst: bool, env: Environment, later: Environment)
      requires Valid() && key.requestId < worker.nextRequestId
      modifies this, worker
      ensures Valid() && (old(Safe()) ==> Safe()) && Moves(Refuses(env) || Refuses(later))
      ensures LogsAtMost(Received(key, envelope, managerFirst), old(worker.traffic), worker.traffic)
      ensures Alive() || ((!old(Alive()) || old(Astray(key, envelope))) && Waiting() == old(Waiting()))
      ensures old(Awaits(key)) && EndsJob(old(requestKind), envelope, old(cancelling)) ==> Effects(Fail)
      ensures old(Awaits(key)) && GoesOn(old(requestKind), envelope, old(cancelling)) ==>
        Seen() == old(Seen()) && continuation == Scheduled
      ensures old(Astray(key, envelope)) && old(OnlyAwaits(Now())) ==> !Alive()
    {
      RequestMayEnd(key.requestId, envelope.kind);
      DeliverEnvelope(key, envelope, managerFirst, env, later);
    }

    method DeliverEnvelope(key: Operation, envelope: Envelope, managerFirst: bool, env: Environment, later: Environment)
      requires Valid() && key.requestId < worker.nextRequestId && (IsTerminal(envelope.kind) ==> key.requestId !in worker.busy)
      modifies this, worker
      ensures Valid() && Untouched() && (old(Safe()) ==> Safe()) && Steps(Refuses(env) || Refuses(later))
      ensures old(Awaits(key)) && EndsJob(old(requestKind), envelope, old(cancelling)) ==> Effects(Fail)
      ensures old(Awaits(key)) && GoesOn(old(requestKind), envelope, old(cancelling)) ==>
        Seen() == old(Seen()) && continuation == Scheduled
      ensures old(Astray(key, envelope)) ==> unchanged(this)
    {
      if managerFirst {
        SettleOnEnvelope(key, envelope.kind, env);
        HandleWorkerEnvelope(key, envelope, later);
      } else {
        HandleWorkerEnvelope(key, envelope, env);
        ghost var handled := Seen();
        SettleOnEnvelope(key, envelope.kind, later);
        if old(Awaits(key)) && EndsJob(old(requestKind), envelope, old(cancelling)) {
          CarriedOut(old(Seen()), handled, Seen(), Fail);
        }
      }
    }

    // A worker that has sent a terminal envelope no longer runs the request.
    method RequestMayEnd(request: RequestId, kind: EnvelopeKind)
      requires Valid()
      modifies worker`busy, worker`traffic
      ensures Valid() && (old(Safe()) ==> Safe()) && Moves(false) && (Alive() == old(Alive()) || (IsTerminal(kind) && request == requestId && old(AwaitsReply())))
      ensures worker.ProcessSide() == old(worker.ProcessSide())
      ensures worker.traffic == old(worker.traffic) + (if IsTerminal(kind) then [Ended(request)] else [])
      ensures IsTerminal(kind) ==> request !in worker.busy
    {
      if IsTerminal(kind) {
        LogGrows(worker.busy, worker.traffic, Ended(request), refusedAt);
        worker.RequestEnds(request);
      }
    }

    // The manager's slot, and the checkpoint that waits for it.
    method SettleOnEnvelope(key: Operation, kind: EnvelopeKind, env: Environment)
      requires Valid() && key.requestId < worker.nextRequestId && (IsTerminal(kind) ==> key.requestId !in worker.busy)
      modifies this, worker
      ensures Valid() && Untouched() && (old(Safe()) ==> Safe()) && Steps(Refuses(env))
      ensures unchanged(this) || (old(pendingTerminalAction) != NothingPending && Effects(NothingPending))
      ensures old(Accounted()) ==> Accounted()
    {
      if IsTerminal(kind) {
        var settled := worker.ObserveTerminal(key);
        Settle(settled, env);
      }
    }

    // The worker ends the current request for another job, or by an envelope that no such request asks for.
    predicate Astray(key: Operation, envelope: Envelope)
      reads this
    {
      && activeJob != "" && pendingTerminalAction == NothingPending && key.requestId == requestId && IsTerminal(envelope.kind)
      && !(Awaits(key) && (GoesOn(requestKind, envelope, cancelling) || EndsJob(requestKind, envelope, cancelling)))
    }

    // The envelope is for the current request, and no terminal action waits for the worker.
    predicate Awaits(key: Operation)
      reads this
    {
      && activeJob != "" && key.requestId == requestId && pendingTerminalAction == NothingPending
      && (JobScoped(requestKind) ==> key.jobId == activeJob)
    }

    method HandleWorkerEnvelope(key: Operation, envelope: Envelope, env: Environment)
      requires Valid() && (IsTerminal(envelope.kind) ==> key.requestId !in worker.busy)
      modifies this, worker
      ensures Valid() && Untouched() && (old(Safe()) ==> Safe()) && Steps(false)
      ensures !old(Awaits(key)) ==> unchanged(this) && unchanged(worker)
      ensures old(Awaits(key)) ==> Replied(envelope)
    {
      if activeJob == "" || key.requestId != requestId {
        return;
      }
      if (requestKind == AnalyzeSpeech || requestKind == TranscribeChunk) && key.jobId != activeJob {
        return;
      }
      if pendingTerminalAction != NothingPending {
        return;
      }
      AnswerRequest(key, envelope, env);
    }

    // What a reply to the current request does: the job ends or goes on, or nothing happens.
    twostate predicate Replied(envelope: Envelope)
      reads this, worker
    {
      if EndsJob(old(requestKind), envelope, old(cancelling)) then Effects(Fail)
      else if GoesOn(old(requestKind), envelope, old(cancelling)) then
        && continuation == Scheduled && requestId == NO_REQUEST && Seen() == old(Seen()) && unchanged(worker)
        && unchanged(`cancelling, `failRetries, `cancelRetries) && currentChunk == (if envelope.kind == ChunkCompleted then At(Completed) else old(currentChunk))
      else unchanged(this) && unchanged(worker)
    }

    method AnswerRequest(key: Operation, envelope: Envelope, env: Environment)
      requires Valid() && Awaits(key) && (IsTerminal(envelope.kind) ==> key.requestId !in worker.busy)
      modifies this, worker
      ensures Valid() && Untouched() && (old(Safe()) ==> Safe()) && Steps(false)
      ensures Replied(envelope)
    {
      if envelope.kind == Error || envelope.kind == JobCancelled {
        if cancelling {
          EndCancelled(env, 0);
        } else if envelope.kind == Error && envelope.modelMissing && (requestKind == AnalyzeSpeech || requestKind == TranscribeChunk) {
          RequestAnswered();
        } else {
          EndFailed(env, 0);
        }
        return;
      }
      CompleteRequest(envelope, env);
    }

    method CompleteRequest(envelope: Envelope, env: Environment)
      requires Valid() && activeJob != "" && pendingTerminalAction == NothingPending
      requires envelope.kind != Error && envelope.kind != JobCancelled && (IsTerminal(envelope.kind) ==> requestId !in worker.busy)
      modifies this, worker
      ensures Valid() && Untouched() && (old(Safe()) ==> Safe()) && Steps(false)
      ensures Replied(envelope)
    {
      JudgedRight(requestKind, envelope, cancelling);
      match Judged(requestKind, envelope, cancelling)
      case Ignore =>
      case CancelNow => EndCancelled(env, 0);
      case Reject => EndFailed(env, 0);
      case Accept =>
        if requestKind == TranscribeChunk {
          currentChunk := At(Completed);
        }
        RequestAnswered();
    }

    method EndFailed(env: Environment, n: nat)
      requires Valid() && activeJob != "" && pendingTerminalAction == NothingPending
      modifies this, worker
      ensures Valid() && Untouched() && (old(Safe()) ==> Safe()) && Steps(false) && Effects(Fail)
    {
      FailActiveJob(env, n);
      ClimbsTakesEffect(old(Seen()), Seen(), Fail, worker.busy, |worker.traffic|, Refuses(env));
    }

    method EndCancelled(env: Environment, n: nat)
      requires Valid() && activeJob != "" && pendingTerminalAction == NothingPending
      modifies this, worker
      ensures Valid() && Untouched() && (old(Safe()) ==> Safe()) && Steps(false) && Effects(Fail) && Effects(Cancel)
    {
      FinishCancellation(env, n);
      ClimbsTakesEffect(old(Seen()), Seen(), Cancel, worker.busy, |worker.traffic|, Refuses(env));
    }

    // The request is over, and the job goes on.
    method RequestAnswered()
      requires Valid() && activeJob != "" && pendingTerminalAction == NothingPending
      modifies `requestId, `requestKind, `continuation
      ensures Valid() && continuation == Scheduled
      ensures old(Safe()) && old(requestId) !in worker.busy ==> Safe()
    {
      requestId, requestKind := NO_REQUEST, NoRequest;
      continuation := Scheduled;
    }

    // ---- Whole runs.

    method Handle(event: Event, env: Environment, later: Environment)
      requires Valid()
      modifies this, worker
      ensures Valid() && Stepped(event, env, later, old(Now()), Now())
      ensures old(Safe()) && !(event.InterruptRetry? && old(Overtaken())) ==> Safe()
    {
      match event
      case Claimed(_) => HandleJob(event, env, later);
      case Continued(_) => HandleJob(event, env, later);
      case CancelWanted(_) => HandleJob(event, env, later);
      case Heartbeat(_, _, _) => HandleJob(event, env, later);
      case Received(_, _, _) => HandleEnvelope(event, env, later);
      case WorkerStarts(_, _) => HandleStart(event, env, later);
      case RecoveryTimer(_, _) => HandleStart(event, env, later);
      case WorkerConnects => HandleWorker(event, env, later);
      case ChannelFails => HandleWorker(event, env, later);
      case ProcessExits(_) => HandleExit(event, env, later);
      case Stopped(_) => HandleExit(event, env, later);
      case OperationFailed => HandleEnding(event, env, later);
      case ShutdownWanted(_) => HandleEnding(event, env, later);
      case _ => HandleRetry(event, env, later);
    }

    // Each group keeps what the loop needs.
    method HandleJob(event: Event, env: Environment, later: Environment)
      requires Valid()
      modifies this, worker
      ensures Valid() && (old(Safe()) ==> Safe())
      ensures event.Claimed? || event.Continued? || event.CancelWanted? || event.Heartbeat? ==>
        Stepped(event, env, later, old(Now()), Now())
    {
      match event
      case Claimed(job) => ClaimJob(job);
      case Continued(step) => ContinueJob(step, env);
      case CancelWanted(mediaRunning) => CancelRequested(mediaRunning, env);
      case Heartbeat(cancelled, mediaRunning, renewed) => RenewActiveLease(cancelled, mediaRunning, renewed, env, later);
      case _ =>
    }

    method HandleEnding(event: Event, env: Environment, later: Environment)
      requires Valid()
      modifies this, worker
      ensures Valid() && (old(Safe()) ==> Safe())
      ensures event.OperationFailed? || event.ShutdownWanted? ==> Stepped(event, env, later, old(Now()), Now())
    {
      match event
      case OperationFailed => OperationFails(env);
      case ShutdownWanted(renewed) => Shutdown(renewed, env);
      case _ =>
    }

    method HandleRetry(event: Event, env: Environment, later: Environment)
      requires Valid()
      modifies this, worker
      ensures Valid() && (old(Safe()) && !(event.InterruptRetry? && old(Overtaken())) ==> Safe())
      ensures event.FailRetry? || event.CancelRetry? || event.InterruptRetry? ==> Stepped(event, env, later, old(Now()), Now())
    {
      match event
      case FailRetry => FailRetryFires(env);
      case CancelRetry => CancelRetryFires(env);
      case InterruptRetry => InterruptRetryFires(env);
      case _ =>
    }

    method HandleEnvelope(event: Event, env: Environment, later: Environment)
      requires Valid()
      modifies this, worker
      ensures Valid() && (old(Safe()) ==> Safe())
      ensures event.Received? ==> Stepped(event, env, later, old(Now()), Now())
    {
      match event
      case Received(key, envelope, managerFirst) =>
        if key.requestId < worker.nextRequestId {
          ReceiveEnvelope(key, envelope, managerFirst, env, later);
        }
      case _ =>
    }

    method HandleExit(event: Event, env: Environment, later: Environment)
      requires Valid()
      modifies this, worker
      ensures Valid() && (old(Safe()) ==> Safe())
      ensures event.ProcessExits? || event.Stopped? ==> Stepped(event, env, later, old(Now()), Now())
    {
      match event
      case ProcessExits(elapsed) =>
        if worker.processRunning {
          ProcessFinished(worker.clock + elapsed, env);
        }
      case Stopped(exits) => StopWorker(exits, env);
      case _ =>
    }

    method HandleWorker(event: Event, env: Environment, later: Environment)
      requires Valid()
      modifies this, worker
      ensures Valid() && (old(Safe()) ==> Safe())
      ensures event.WorkerConnects? || event.ChannelFails? ==> Stepped(event, env, later, old(Now()), Now())
    {
      match event
      case WorkerConnects =>
        if worker.CanBecomeReady() {
          WorkerReady(env);
        }
      case ChannelFails => LoseChannel();
      case _ =>
    }

    method LoseChannel()
      requires Valid()
      modifies worker
      ensures Valid() && worker.traffic == old(worker.traffic) && (old(Safe()) ==> Safe()) && Steps(false)
    {
      worker.RecoverAuthenticatedChannelFailure(worker.processGeneration);
    }

    // The events that may start a process.
    method HandleStart(event: Event, env: Environment, later: Environment)
      requires Valid()
      modifies worker
      ensures Valid() && (old(Safe()) ==> Safe())
      ensures event.WorkerStarts? || event.RecoveryTimer? ==> Stepped(event, env, later, old(Now()), Now())
    {
      match event
      case WorkerStarts(candidates, disk) => LaunchWorker(candidates, disk);
      case RecoveryTimer(candidates, disk) => RecoverWorker(candidates, disk);
      case _ =>
    }

    method LaunchWorker(candidates: seq<string>, disk: Disk)
      requires Valid()
      modifies worker
      ensures Valid() && worker.traffic == old(worker.traffic) && (old(Safe()) ==> Safe()) && Steps(false)
    {
      var started := worker.Start(candidates, disk, 0);
    }

    method RecoverWorker(candidates: seq<string>, disk: Disk)
      requires Valid()
      modifies worker
      ensures Valid() && worker.traffic == old(worker.traffic) && (old(Safe()) ==> Safe()) && Steps(false)
    {
      worker.RecoveryTimerFires(candidates, disk);
    }

    // However events interleave and whatever the environment answers: every event does to the job what it is for; up to
    // any moment before which no retry was overtaken, no job was let go under a running request, and the next run starts
    // from there; only a stray end of its request strands a job; the pending action of an active job only climbs; and the
    // worker keeps its own promises.
    method Run(events: Trace) returns (ghost moments: seq<Moment>)
      requires Valid()
      modifies this, worker
      ensures Valid()
      ensures |moments| == |events| + 1 && moments[0] == old(Now()) && moments[|events|] == Now()
      ensures forall k {:trigger SteppedAt(events, moments, k)} :: 0 <= k < |events| ==> SteppedAt(events, moments, k)
      ensures old(Safe()) ==> forall n {:trigger SafeUpTo(events, moments, n)} :: 0 <= n <= |events| ==> SafeUpTo(events, moments, n)
      ensures old(Safe()) ==> Safe() || OvertakenBefore(events, moments, |events|)
      ensures old(Alive()) && !Alive() ==> exists k :: 0 <= k < |events| && StrandedSince(events, moments, k, |events|)
      ensures Spread(worker.restarts) && CacheSound(worker.terminalRequests, worker.terminalRequestOrder)
    {
      moments := [Now()];
      for k := 0 to |events|
        invariant Valid()
        invariant |moments| == k + 1 && moments[0] == old(Now()) && moments[k] == Now()
        invariant Recorded(events, moments, k, old(Safe()), Safe())
      {
        moments := HandleNext(events, k, moments, old(Safe()));
      }
      if old(Alive()) {
        OnlyStraysStrand(events, moments, |events|);
      }
    }

    method HandleNext(events: Trace, k: nat, ghost moments: seq<Moment>, ghost wasSafe: bool) returns (ghost moments': seq<Moment>)
      requires Valid() && k < |events| && |moments| == k + 1 && moments[k] == Now()
      requires Recorded(events, moments, k, wasSafe, Safe())
      modifies this, worker
      ensures Valid() && moments' == moments + [Now()]
      ensures Recorded(events, moments', k + 1, wasSafe, Safe())
    {
      var (event, env, later) := events[k];
      Handle(event, env, later);
      moments' := moments + [Now()];
      OneMoreStep(events, moments, Now(), k, wasSafe, old(Safe()), Safe());
    }
  }

  // The executables of the registry are there and start.
  const CANDIDATES: seq<string> := ["asr-worker", "asr-worker-cpu"]

  ghost predicate AllStart(disk: Disk) {
    Constant(disk) && disk(0).slow == {} && Names(CANDIDATES) <= disk(0).present * disk(0).launches
  }

  // One of the two still starts when the other one has failed.
  lemma {:induction false} OneIsLeft(disk: Disk, failed: set<string>, executable: string)
    requires AllStart(disk) && failed <= {executable}
    ensures Startable(CANDIDATES, disk(0), failed)
  {
    assert |CANDIDATES[0]| != |CANDIDATES[1]|;
    var k := if CANDIDATES[0] == executable then 1 else 0;
    assert CANDIDATES[k] in Names(CANDIDATES);
    assert CANDIDATES[k] in Names(CANDIDATES) * disk(0).present * (disk(0).launches + disk(0).slow);
  }

  // The retry of a refused interruption can let a job go while its new request runs. The worker exits while the audio
  // of a job is being prepared, and the durable write of the interruption is refused once. The worker restarts, reports
  // its capabilities again, the preparation ends and speech analysis begins, and only then the retry fires.
  method OvertakenRetry(disk: Disk) returns (c: Coordinator)
    requires AllStart(disk)
    ensures exists r :: c.worker.busy == {r} && c.releases == [Release(AsInterrupted, {r})]
  {
    var willing := Answers(false, false, Written, Written, false, true);
    c := RefusedInterruption(disk);
    var started := c.worker.Start(CANDIDATES, disk, 0);
    c.WorkerReady(n => willing);
    AskCapabilities(c);
    c.ContinueJob(Send(AnalyzeSpeech), n => willing);
    assert c.worker.busy == {c.requestId};
    c.InterruptRetryFires(n => willing);
  }

  // A worker that ends the analysis as if it had loaded a model strands the job: nothing will come back to it.
  method StrandedJob(disk: Disk) returns (c: Coordinator)
    requires AllStart(disk)
    ensures c.activeJob != "" && !c.Alive()
  {
    var willing := Answers(false, false, Written, Written, false, true);
    c := PreparedJob(disk);
    c.ContinueJob(Send(AnalyzeSpeech), n => willing);
    c.ReceiveEnvelope(Operation(c.activeJob, c.requestId), Envelope(ModelLoaded, true, false), true, n => willing, n => willing);
  }

  method AskCapabilities(c: Coordinator)
    requires c.Preparing() && c.worker.ready
    modifies c, c.worker
    ensures c.Preparing() && c.worker.ready && c.interruptRetries == old(c.interruptRetries)
    ensures old(c.NoRetries()) ==> c.NoRetries()
    ensures c.worker.ProcessSide() == old(c.worker.ProcessSide())
  {
    var willing := Answers(false, false, Written, Written, false, true);
    c.ContinueJob(Send(GetCapabilities), n => willing);
    c.HandleWorkerEnvelope(Operation("", c.requestId), Envelope(Capabilities, true, false), n => willing);
  }

  method RefusedInterruption(disk: Disk) returns (c: Coordinator)
    requires AllStart(disk)
    ensures fresh(c) && fresh(c.worker) && c.Preparing() && c.interruptRetries > 0 && !c.worker.processRunning
    ensures Startable(CANDIDATES, disk(0), c.worker.failedExecutables)
  {
    var willing := Answers(false, false, Written, Written, false, true);
    var refusing := Answers(false, false, Refused, Refused, true, true);
    c := PreparedJob(disk);
    c.ContinueJob(Wait, n => willing);
    ghost var executable := c.worker.currentExecutable;
    c.ProcessFinished(0, n => refusing);
    OneIsLeft(disk, c.worker.failedExecutables, executable);
  }

  method PreparedJob(disk: Disk) returns (c: Coordinator)
    requires AllStart(disk)
    ensures fresh(c) && fresh(c.worker) && c.Preparing() && c.worker.processRunning && c.worker.clock == 0
    ensures c.worker.failedExecutables == {} && c.worker.ready && !c.worker.stopped && c.NoRetries()
  {
    var willing := Answers(false, false, Written, Written, false, true);
    var worker := new Manager();
    c := new Coordinator(worker);
    c.ClaimJob("job");
    OneIsLeft(disk, {}, "");
    var started := c.worker.Start(CANDIDATES, disk, 0);
    c.WorkerReady(n => willing);
    AskCapabilities(c);
  }
}
