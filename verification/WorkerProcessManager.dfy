// src/app/WorkerProcessManager.cpp: the worker process, its authenticated channel, forced cancellation, the
// cache of terminal requests and the restart window. QProcess, the socket and the clock are the environment:
// what they do is a parameter or a separate event. A signal of the source is an out-parameter here, raised
// where the source emits it as the last thing it does.

module WorkerProcessManager {
  const MAXIMUM_REMEMBERED_TERMINAL_REQUESTS: nat := 128
  const RESTART_WINDOW_SECONDS: int := 60
  const MAXIMUM_RESTARTS_IN_WINDOW: nat := 3

  // Request identifiers are UUIDs: drawn from a supply that never repeats. Zero is the empty string.
  type RequestId = nat
  const NO_REQUEST: RequestId := 0

  // operationKey
  datatype Operation = Operation(jobId: string, requestId: RequestId)

  // What happened to the requests for the model: one was sent, its terminal envelope came, or the process that
  // received it exited.
  datatype Traffic = Sent(request: RequestId) | Ended(request: RequestId) | Exited

  predicate Ends(t: Traffic, request: RequestId) {
    t == Ended(request) || t == Exited
  }

  // The requests that have neither been answered nor lost their process.
  function Running(traffic: seq<Traffic>): set<RequestId> {
    if traffic == [] then {}
    else
      After(Running(traffic[..|traffic| - 1]), traffic[|traffic| - 1])
  }

  // The request was sent at position i, and nothing has ended it since.
  predicate Unended(traffic: seq<Traffic>, i: nat, request: RequestId) {
    i < |traffic| && traffic[i] == Sent(request) && forall j :: i < j < |traffic| ==> !Ends(traffic[j], request)
  }

  lemma {:induction false} RunningIsUnended(traffic: seq<Traffic>, request: RequestId)
    ensures request in Running(traffic) <==> exists i: nat :: Unended(traffic, i, request)
  {
    if traffic != [] {
      var last := |traffic| - 1;
      var before := traffic[..last];
      RunningIsUnended(before, request);
      if i: nat :| Unended(before, i, request) {
        assert !Ends(traffic[last], request) ==> Unended(traffic, i, request);
      }
      if i: nat :| Unended(traffic, i, request) {
        assert i < last ==> Unended(before, i, request);
      }
      assert traffic[last] == Sent(request) ==> Unended(traffic, last, request);
    }
  }

  // The log of the traffic accounts for what is running.
  ghost predicate Logged(busy: set<RequestId>, traffic: seq<Traffic>) {
    busy == Running(traffic)
  }

  // What ran when nothing ran at position from was sent after it.
  lemma {:induction false} SentSince(traffic: seq<Traffic>, from: nat)
    requires QuietAt(traffic, from)
    ensures Running(traffic) != {} <==> StillRuns(traffic, from)
  {
    var early := traffic[..from];
    if request :| request in Running(traffic) {
      RunningIsUnended(traffic, request);
      var i: nat :| Unended(traffic, i, request);
      RunningIsUnended(early, request);
      assert i < from ==> Unended(early, i, request);
    }
    if i: nat, request :| from <= i && Unended(traffic, i, request) {
      RunningIsUnended(traffic, request);
    }
  }

  ghost predicate StillRuns(traffic: seq<Traffic>, from: nat) {
    exists i: nat, request :: from <= i && Unended(traffic, i, request)
  }

  predicate QuietAt(traffic: seq<Traffic>, at: nat) {
    at <= |traffic| && Running(traffic[..at]) == {}
  }

  lemma {:induction false} QuietNow(busy: set<RequestId>, traffic: seq<Traffic>)
    ensures Logged(busy, traffic) && busy == {} ==> QuietAt(traffic, |traffic|)
  {
    assert traffic[..|traffic|] == traffic;
  }

  lemma {:induction false} LogGrows(busy: set<RequestId>, traffic: seq<Traffic>, t: Traffic, at: nat)
    ensures Logged(busy, traffic) ==> Logged(After(busy, t), traffic + [t])
    ensures QuietAt(traffic, at) ==> QuietAt(traffic + [t], at)
  {
    assert (traffic + [t])[..|traffic|] == traffic;
    assert at <= |traffic| ==> (traffic + [t])[..at] == traffic[..at];
  }

  function After(busy: set<RequestId>, t: Traffic): set<RequestId> {
    match t
    case Sent(request) => busy + {request}
    case Ended(request) => busy - {request}
    case Exited => {}
  }

  predicate Distinct(s: seq<Operation>) {
    forall i, j {:trigger Differ(s, i, j)} :: 0 <= i < j < |s| ==> Differ(s, i, j)
  }

  predicate Differ(s: seq<Operation>, i: nat, j: nat)
    requires i < j < |s|
  {
    s[i] != s[j]
  }

  function LastOf<T>(s: seq<T>, n: nat): seq<T> {
    if |s| <= n then s else s[|s| - n..]
  }

  // What a start finds: the executables that exist, those that start, and those that do not start in time.
  datatype DiskState = DiskState(present: set<string>, launches: set<string>, slow: set<string>)

  // What the n-th attempt of a start finds.
  type Disk = nat -> DiskState

  ghost predicate Constant(disk: Disk) {
    forall m, n {:trigger disk(m), disk(n)} :: disk(m) == disk(n)
  }

  // Some candidate that has not failed exists and leaves a process behind.
  predicate Startable(candidates: seq<string>, d: DiskState, failed: set<string>) {
    !(Names(candidates) * d.present * (d.launches + d.slow) <= failed)
  }

  // At some attempt from the n-th on, every candidate that existed had failed.
  ghost predicate Exhausted(candidates: seq<string>, disk: Disk, n: nat, failed: set<string>) {
    exists m {:trigger disk(m)} :: m >= n && Names(candidates) * disk(m).present <= failed
  }

  // What a start from the n-th attempt on does to the failed executables, and when it leaves a process behind.
  ghost predicate StartsWell(candidates: seq<string>, disk: Disk, n: nat, failed: set<string>, failed': set<string>, ok: bool) {
    && failed' <= failed + Names(candidates)
    && (!ok ==> Exhausted(candidates, disk, n, failed'))
    && (Constant(disk) ==>
        && failed' <= failed + (Names(candidates) - (disk(n).launches - disk(n).slow))
        && (ok <==> Startable(candidates, disk(n), failed)))
  }

  // The first candidate of the registry that exists, starts and has not failed before.
  ghost predicate Preferred(candidates: seq<string>, d: DiskState, failed: set<string>, executable: string) {
    exists k :: 0 <= k < |candidates| && candidates[k] == executable && executable in d.launches && executable !in failed
                && forall i :: 0 <= i < k ==> candidates[i] !in d.present * d.launches || candidates[i] in failed
  }

  lemma {:induction false} PreferredWithout(candidates: seq<string>, d: DiskState, failed: set<string>, bad: string,
                                            executable: string)
    requires Preferred(candidates, d, failed + {bad}, executable) && bad !in d.launches
    ensures Preferred(candidates, d, failed, executable)
  {
    var k :| 0 <= k < |candidates| && candidates[k] == executable && executable in d.launches && executable !in failed + {bad}
             && forall i :: 0 <= i < k ==> candidates[i] !in d.present * d.launches || candidates[i] in failed + {bad};
    assert candidates[k] == executable;
  }

  // A candidate that did not start is skipped.
  lemma {:induction false} SkipOne(candidates: seq<string>, disk: Disk, n: nat, failed: set<string>, executable: string,
                                   failed': set<string>, ok: bool)
    requires StartsWell(candidates, disk, n + 1, failed + {executable}, failed', ok)
    requires executable in Names(candidates) && executable !in disk(n).launches + disk(n).slow
    ensures StartsWell(candidates, disk, n, failed, failed', ok)
  {
    if !ok {
      var m :| m >= n + 1 && Names(candidates) * disk(m).present <= failed';
      assert m >= n;
    }
  }

  // One that hangs while starting leaves its process behind.
  lemma {:induction false} HangingOne(candidates: seq<string>, disk: Disk, n: nat, failed: set<string>, executable: string)
    requires executable in Names(candidates) * disk(n).present * disk(n).slow && executable !in failed
    ensures StartsWell(candidates, disk, n, failed, failed + {executable}, true)
  {
  }

  function Names(executables: seq<string>): set<string> {
    set e | e in executables
  }

  predicate Sorted(times: seq<int>) {
    forall i, j {:trigger InOrder(times, i, j)} :: 0 <= i < j < |times| ==> InOrder(times, i, j)
  }

  predicate InOrder(times: seq<int>, i: nat, j: nat)
    requires i < j < |times|
  {
    times[i] <= times[j]
  }

  // Any four consecutive restarts span more than the window.
  predicate Spread(restarts: seq<int>) {
    forall i {:trigger SpreadAt(restarts, i)} :: 0 <= i < |restarts| - MAXIMUM_RESTARTS_IN_WINDOW ==> SpreadAt(restarts, i)
  }

  predicate SpreadAt(restarts: seq<int>, i: nat)
    requires i < |restarts| - MAXIMUM_RESTARTS_IN_WINDOW
  {
    restarts[i + MAXIMUM_RESTARTS_IN_WINDOW] - restarts[i] > RESTART_WINDOW_SECONDS
  }

  predicate Before(times: seq<int>, t: int) {
    forall time :: time in times ==> time < t
  }

  // The queue holds the latest of the restarts so far; the ones it dropped are out of every later window.
  predicate WindowSound(restartTimes: seq<int>, restarts: seq<int>, clock: int) {
    && |restartTimes| <= |restarts| && restarts[|restarts| - |restartTimes|..] == restartTimes
    && Before(restarts[..|restarts| - |restartTimes|], clock - RESTART_WINDOW_SECONDS)
    && Before(restarts, clock + 1)
    && |restartTimes| <= MAXIMUM_RESTARTS_IN_WINDOW
    && Sorted(restarts) && Spread(restarts)
  }

  function Members(order: seq<Operation>): set<Operation> {
    set k | k in order
  }

  // The set holds exactly the members of the queue, which never repeats one.
  predicate CacheSound(requests: set<Operation>, order: seq<Operation>) {
    && requests == Members(order)
    && Distinct(order)
    && |order| <= MAXIMUM_REMEMBERED_TERMINAL_REQUESTS
  }

  predicate Finished(requests: set<Operation>, busy: set<RequestId>, nextRequestId: RequestId) {
    forall k :: k in requests ==> k.requestId < nextRequestId && k.requestId !in busy
  }

  predicate Issued(busy: set<RequestId>, nextRequestId: RequestId) {
    nextRequestId > NO_REQUEST && forall r :: r in busy ==> NO_REQUEST < r < nextRequestId
  }

  lemma {:induction false} NothingRemembered(busy: set<RequestId>, nextRequestId: RequestId)
    ensures CacheSound({}, []) && Finished({}, busy, nextRequestId)
  {
  }

  lemma {:induction false} NothingRestarted(clock: int)
    ensures WindowSound([], [], clock)
  {
  }

  lemma {:induction false} FewerBusy(requests: set<Operation>, busy: set<RequestId>, fewer: set<RequestId>,
                                     nextRequestId: RequestId)
    requires Finished(requests, busy, nextRequestId) && Issued(busy, nextRequestId) && fewer <= busy
    ensures Finished(requests, fewer, nextRequestId) && Issued(fewer, nextRequestId)
  {
  }

  class Manager {
    var processRunning: bool
    var ready: bool
    var stopping: bool
    var processGeneration: nat
    var authenticatedProcessGeneration: nat
    var connectionGeneration: nat
    var failedExecutables: set<string>
    var currentExecutable: string
    var candidateCount: nat
    var forcedCancellationPending: bool
    var forcedCancellationAwaitingRestart: bool
    var forcedCancellation: Operation
    var forcedCancellationTicket: nat
    var recoveryTimerActive: bool
    var terminalRequests: set<Operation>
    var terminalRequestOrder: seq<Operation>
    var restartTimes: seq<int>
    var nextRequestId: RequestId
    var clock: int  // the latest reading of the system clock

    // Requests for the model that the live process has received and not answered with a terminal envelope.
    ghost var busy: set<RequestId>
    ghost var traffic: seq<Traffic>
    // The application is closing: the manager has been told to stop.
    ghost var stopped: bool
    // Automatic restarts since the forced recovery last cleared the window.
    ghost var restarts: seq<int>

    // The client can still become ready only for the generation it was started for, and only once.
    ghost predicate ChannelSound()
      reads this
    {
      && connectionGeneration <= processGeneration
      && (ready ==> processRunning && connectionGeneration == processGeneration
                    && authenticatedProcessGeneration == processGeneration)
      && (busy != {} ==> processRunning && (ready || connectionGeneration < processGeneration))
    }

    ghost predicate Valid()
      reads this
    {
      && CacheSound(terminalRequests, terminalRequestOrder)
      && ChannelSound()
      && Issued(busy, nextRequestId) && Finished(terminalRequests, busy, nextRequestId)
      && (stopping ==> stopped)
      && WindowSound(restartTimes, restarts, clock)
    }

    // What the forced-cancellation record says.
    ghost function Forced(): (bool, bool, Operation, nat)
      reads this
    {
      (forcedCancellationPending, forcedCancellationAwaitingRestart, forcedCancellation, forcedCancellationTicket)
    }

    // What only the process and the clock change.
    ghost function ProcessSide(): (bool, bool, int, set<string>, string)
      reads this
    {
      (processRunning, stopped, clock, failedExecutables, currentExecutable)
    }

    // No request was sent, answered or lost, and the process was left alone.
    twostate predicate Untouched()
      reads this
    {
      busy == old(busy) && traffic == old(traffic) && nextRequestId >= old(nextRequestId) && ProcessSide() == old(ProcessSide())
    }

    constructor ()
      ensures Valid() && !processRunning && !ready && !forcedCancellationPending && busy == {} && restarts == []
      ensures processGeneration == 0 && !stopping && !stopped && traffic == [] && failedExecutables == {}
      ensures nextRequestId == 1 && clock == 0
    {
      processRunning, ready, stopping := false, false, false;
      processGeneration, authenticatedProcessGeneration, connectionGeneration := 0, 0, 0;
      failedExecutables, currentExecutable, candidateCount := {}, "", 0;
      forcedCancellationPending, forcedCancellationAwaitingRestart := false, false;
      forcedCancellation, forcedCancellationTicket := Operation("", NO_REQUEST), 0;
      recoveryTimerActive := false;
      terminalRequests, terminalRequestOrder, restartTimes := {}, [], [];
      nextRequestId := 1;
      busy, traffic, stopped, restarts, clock := {}, [], false, [], 0;
      NothingRemembered({}, 1);
      NothingRestarted(0);
    }

    // ---- The terminal-request cache.

    method RememberTerminal(key: Operation)
      requires CacheSound(terminalRequests, terminalRequestOrder)
      modifies this`terminalRequests, this`terminalRequestOrder
      ensures CacheSound(terminalRequests, terminalRequestOrder)
      ensures terminalRequestOrder ==
        if key in old(terminalRequestOrder) then old(terminalRequestOrder)
        else LastOf(old(terminalRequestOrder) + [key], MAXIMUM_REMEMBERED_TERMINAL_REQUESTS)
      ensures key in terminalRequests && terminalRequests <= old(terminalRequests) + {key}
    {
      if key !in terminalRequests {
        terminalRequests := terminalRequests + {key};
        DistinctPlus(terminalRequestOrder, key);
        terminalRequestOrder := terminalRequestOrder + [key];
        while |terminalRequestOrder| > MAXIMUM_REMEMBERED_TERMINAL_REQUESTS
          invariant |terminalRequestOrder| <= |old(terminalRequestOrder)| + 1
          invariant terminalRequestOrder == LastOf(old(terminalRequestOrder) + [key], |terminalRequestOrder|)
          invariant |terminalRequestOrder| >= MAXIMUM_REMEMBERED_TERMINAL_REQUESTS
                    || terminalRequestOrder == old(terminalRequestOrder) + [key]
          invariant Distinct(terminalRequestOrder) && terminalRequestOrder[|terminalRequestOrder| - 1] == key
          invariant terminalRequests == Members(terminalRequestOrder)
          invariant terminalRequests <= old(terminalRequests) + {key}
        {
          var forgotten := terminalRequestOrder[0];
          DistinctTail(terminalRequestOrder);
          terminalRequestOrder := terminalRequestOrder[1..];
          terminalRequests := terminalRequests - {forgotten};
        }
      }
    }

    static lemma {:induction false} DistinctTail(s: seq<Operation>)
      requires Distinct(s) && s != []
      ensures Distinct(s[1..]) && s[0] !in s[1..]
      ensures Members(s[1..]) == Members(s) - {s[0]}
    {
      forall i, j | 0 <= i < j < |s| - 1 ensures Differ(s[1..], i, j) {
        assert Differ(s, i + 1, j + 1);
      }
      forall j | 0 <= j < |s| - 1 ensures s[1..][j] != s[0] {
        assert Differ(s, 0, j + 1);
      }
      assert s == [s[0]] + s[1..];
    }

    static lemma {:induction false} DistinctPlus(s: seq<Operation>, key: Operation)
      requires Distinct(s) && key !in s
      ensures Distinct(s + [key])
    {
      forall i, j | 0 <= i < j < |s| + 1 ensures Differ(s + [key], i, j) {
        if j < |s| {
          assert Differ(s, i, j);
        }
      }
    }

    // The worker has sent a terminal envelope: the request it names is no longer running.
    method RequestEnds(requestId: RequestId)
      requires Valid()
      modifies `busy, `traffic
      ensures Valid() && busy == old(busy) - {requestId} && traffic == old(traffic) + [Ended(requestId)]
    {
      busy, traffic := busy - {requestId}, traffic + [Ended(requestId)];
    }

    // The manager's slot for a terminal envelope.
    method ObserveTerminal(key: Operation) returns (settled: bool)
      requires Valid() && key.requestId < nextRequestId && key.requestId !in busy
      modifies `terminalRequests, `terminalRequestOrder, `recoveryTimerActive
      modifies `forcedCancellationPending, `forcedCancellationAwaitingRestart, `forcedCancellation, `forcedCancellationTicket
      ensures Valid()
      ensures key.requestId != NO_REQUEST ==> key in terminalRequests
      ensures settled <==> old(forcedCancellationPending) && key == old(forcedCancellation)
      ensures forcedCancellationPending == (old(forcedCancellationPending) && !settled)
      ensures !settled ==> Forced() == old(Forced())
    {
      if key.requestId != NO_REQUEST {
        RememberTerminal(key);
      }
      settled := false;
      if forcedCancellationPending && key == forcedCancellation {
        settled := SettleForcedCancellation();
      }
    }

    // ---- Forced cancellation.

    method SettleForcedCancellation() returns (settled: bool)
      modifies `forcedCancellationPending, `forcedCancellationAwaitingRestart, `forcedCancellation
      modifies `recoveryTimerActive, `forcedCancellationTicket
      ensures settled == old(forcedCancellationPending)
      ensures !forcedCancellationPending
      ensures settled ==> !forcedCancellationAwaitingRestart && !recoveryTimerActive
                          && forcedCancellationTicket == old(forcedCancellationTicket) + 1
      ensures !settled ==> Forced() == old(Forced()) && recoveryTimerActive == old(recoveryTimerActive)
    {
      if !forcedCancellationPending {
        return false;
      }
      forcedCancellationPending := false;
      forcedCancellationAwaitingRestart := false;
      forcedCancellation := Operation("", NO_REQUEST);
      recoveryTimerActive := false;
      forcedCancellationTicket := forcedCancellationTicket + 1;
      settled := true;
    }

    // Nothing is pending afterwards only if the cache already held this very request.
    method ForceCancelAfterGrace(jobId: string, requestId: RequestId, sent: bool)
      requires Valid()
      modifies `nextRequestId, `processGeneration, `authenticatedProcessGeneration, `ready
      modifies `forcedCancellationPending, `forcedCancellationAwaitingRestart, `forcedCancellation, `forcedCancellationTicket
      ensures Valid()
      ensures requestId != NO_REQUEST && !forcedCancellationPending ==> Operation(jobId, requestId) in terminalRequests
      ensures requestId == NO_REQUEST || Operation(jobId, requestId) in old(terminalRequests) ==> Forced() == old(Forced())
      ensures requestId != NO_REQUEST && Operation(jobId, requestId) !in old(terminalRequests) ==>
        && forcedCancellationPending && forcedCancellation == Operation(jobId, requestId)
        && ((old(forcedCancellationPending) && old(forcedCancellation) == forcedCancellation)
            || forcedCancellationAwaitingRestart == !old(ready))
      ensures ready ==> old(ready)
      ensures nextRequestId >= old(nextRequestId)
    {
      var key := Operation(jobId, requestId);
      if requestId == NO_REQUEST {
        return;
      }
      if key in terminalRequests || (forcedCancellationPending && key == forcedCancellation) {
        return;
      }
      forcedCancellationTicket := forcedCancellationTicket + 1;
      forcedCancellationPending := true;
      forcedCancellationAwaitingRestart := !ready;
      forcedCancellation := key;
      if !ready {
        return;
      }
      nextRequestId := nextRequestId + 1;
      if !sent {
        RecoverAuthenticatedChannelFailure(processGeneration);
      }
    }

    method AbortImmediately() returns (settled: bool)
      requires Valid()
      modifies `stopping, `processGeneration, `authenticatedProcessGeneration, `ready, `recoveryTimerActive
      modifies `forcedCancellationPending, `forcedCancellationAwaitingRestart, `forcedCancellation, `forcedCancellationTicket
      ensures Valid()
      ensures !ready && !stopping && processGeneration == old(processGeneration) + 1
      ensures settled <==> !processRunning && old(forcedCancellationPending)
      ensures forcedCancellationPending == (old(forcedCancellationPending) && !settled)
      ensures !settled ==> Forced() == old(Forced())
    {
      stopping := false;
      processGeneration := processGeneration + 1;
      authenticatedProcessGeneration := 0;
      ready := false;
      settled := false;
      if !processRunning {
        settled := SettleForcedCancellation();
      }
    }

    // ---- The channel.

    // connectClientWithRetry reached the worker: HelloAck was received.
    predicate CanBecomeReady()
      reads this
    {
      processRunning && !ready && connectionGeneration == processGeneration
    }

    method BecomeReady() returns (settled: bool)
      requires Valid() && CanBecomeReady()
      modifies `authenticatedProcessGeneration, `ready, `recoveryTimerActive
      modifies `forcedCancellationPending, `forcedCancellationAwaitingRestart, `forcedCancellation, `forcedCancellationTicket
      ensures Valid() && ready && busy == {}
      ensures settled <==> old(forcedCancellationPending) && old(forcedCancellationAwaitingRestart)
      ensures forcedCancellationPending == (old(forcedCancellationPending) && !settled)
      ensures !settled ==> Forced() == old(Forced())
    {
      ready := true;
      authenticatedProcessGeneration := processGeneration;
      settled := false;
      if forcedCancellationPending && forcedCancellationAwaitingRestart {
        settled := SettleForcedCancellation();
      }
    }

    method RecoverAuthenticatedChannelFailure(generation: nat)
      requires Valid()
      modifies `processGeneration, `authenticatedProcessGeneration, `ready
      ensures Valid()
      ensures old(ready) && generation == old(processGeneration) && !stopping ==>
        !ready && processGeneration == old(processGeneration) + 1
      ensures ready ==> old(ready)
      ensures processGeneration >= old(processGeneration)
    {
      if generation != processGeneration || authenticatedProcessGeneration != generation || stopping || !processRunning {
        return;
      }
      processGeneration := processGeneration + 1;
      authenticatedProcessGeneration := 0;
      ready := false;
    }

    // sendRequest of the client; keepsBusy marks the requests that use the model. A failed write is
    // reported through the channel-failure path, and the request still gets its identifier.
    method SendRequest(keepsBusy: bool, sent: bool) returns (requestId: RequestId)
      requires Valid()
      modifies `nextRequestId, `busy, `traffic, `processGeneration, `authenticatedProcessGeneration, `ready
      ensures Valid()
      ensures requestId != NO_REQUEST <==> old(ready)
      ensures requestId != NO_REQUEST ==> requestId == old(nextRequestId) && requestId !in old(busy)
      ensures busy == if keepsBusy && old(ready) then old(busy) + {requestId} else old(busy)
      ensures traffic == if keepsBusy && old(ready) then old(traffic) + [Sent(requestId)] else old(traffic)
      ensures nextRequestId == old(nextRequestId) + if old(ready) then 1 else 0
      ensures sent ==> ready == old(ready)
    {
      if !ready {
        return NO_REQUEST;
      }
      requestId := nextRequestId;
      nextRequestId := nextRequestId + 1;
      if keepsBusy {
        busy, traffic := busy + {requestId}, traffic + [Sent(requestId)];
      }
      if !sent {
        RecoverAuthenticatedChannelFailure(processGeneration);
      }
    }

    // ---- Starting, stopping and restarting the process.

    // The first candidate of the registry that is on the disk and has not failed before. A variant that does not
    // start in time counts as failed, but its process is there, without a channel.
    method Start(candidates: seq<string>, disk: Disk, n: nat) returns (ok: bool)
      requires Valid()
      modifies `candidateCount, `failedExecutables, `recoveryTimerActive, `stopping, `processGeneration
      modifies `authenticatedProcessGeneration, `connectionGeneration, `terminalRequests, `terminalRequestOrder
      modifies `processRunning, `currentExecutable
      ensures Valid() && ok == processRunning
      ensures old(processRunning) ==> unchanged(this)
      ensures !old(processRunning) && ok ==> terminalRequests == {} && !stopping
      ensures !old(processRunning) ==> StartsWell(candidates, disk, n, old(failedExecutables), failedExecutables, ok)
      ensures !old(processRunning) && Constant(disk) && ok && disk(n).slow == {} ==>
        CanBecomeReady() && Preferred(candidates, disk(n), old(failedExecutables), currentExecutable)
      ensures !ok && forcedCancellationPending && !stopping ==> recoveryTimerActive
      decreases Names(candidates) - failedExecutables
    {
      if processRunning {
        return true;
      }
      candidateCount := |Names(candidates) * disk(n).present|;
      var index := FirstUntried(candidates, disk(n).present);
      if index == |candidates| {
        ScheduleForcedCancellationRecovery();
        return false;
      }
      var executable := candidates[index];
      ok := Launch(executable, disk(n));
      if !ok {
        ghost var failed := failedExecutables;
        failedExecutables := failedExecutables + {executable};
        ok := Start(candidates, disk, n + 1);
        if executable in disk(n).slow {
          HangingOne(candidates, disk, n, failed, executable);
        } else {
          SkipOne(candidates, disk, n, failed, executable, failedExecutables, ok);
          if Constant(disk) && ok && disk(n).slow == {} {
            PreferredWithout(candidates, disk(n), failed, executable, currentExecutable);
          }
        }
      }
    }

    method FirstUntried(candidates: seq<string>, present: set<string>) returns (index: nat)
      ensures index <= |candidates|
      ensures index < |candidates| ==> candidates[index] in Names(candidates) * present - failedExecutables
      ensures forall i :: 0 <= i < index ==> candidates[i] !in present || candidates[i] in failedExecutables
      ensures index == |candidates| ==> Names(candidates) * present <= failedExecutables
    {
      index := 0;
      while index < |candidates| && (candidates[index] !in present || candidates[index] in failedExecutables)
        invariant 0 <= index <= |candidates|
        invariant forall i :: 0 <= i < index ==> candidates[i] !in present || candidates[i] in failedExecutables
      {
        index := index + 1;
      }
    }

    // A slow process exists although it is not reported as started.
    method Launch(executable: string, disk: DiskState) returns (ok: bool)
      requires Valid() && !processRunning
      modifies `stopping, `processGeneration, `authenticatedProcessGeneration, `connectionGeneration
      modifies `terminalRequests, `terminalRequestOrder, `processRunning, `currentExecutable
      ensures Valid() && terminalRequests == {} && !stopping && processGeneration == old(processGeneration) + 1
      ensures processRunning == (executable in disk.launches + disk.slow)
      ensures ok == (executable in disk.launches - disk.slow)
      ensures ok ==> CanBecomeReady() && currentExecutable == executable
    {
      stopping := false;
      processGeneration := processGeneration + 1;
      authenticatedProcessGeneration := 0;
      terminalRequests, terminalRequestOrder := {}, [];
      NothingRemembered(busy, nextRequestId);
      processRunning := executable in disk.launches + disk.slow;
      ok := executable in disk.launches - disk.slow;
      if ok {
        currentExecutable := executable;
        connectionGeneration := processGeneration;
      }
    }

    method ScheduleForcedCancellationRecovery()
      modifies `recoveryTimerActive
      ensures recoveryTimerActive ==
        (old(recoveryTimerActive) || (forcedCancellationPending && !stopping && !processRunning))
    {
      if !forcedCancellationPending || stopping || processRunning || recoveryTimerActive {
        return;
      }
      recoveryTimerActive := true;
    }

    method ClearFailures()
      requires Valid()
      modifies `failedExecutables, `restartTimes, `restarts
      ensures Valid() && failedExecutables == {} && |restarts| == 0
    {
      failedExecutables, restartTimes, restarts := {}, [], [];
      NothingRestarted(clock);
    }

    method RecoveryTimerFires(candidates: seq<string>, disk: Disk)
      requires Valid()
      modifies `candidateCount, `failedExecutables, `recoveryTimerActive, `stopping, `processGeneration
      modifies `authenticatedProcessGeneration, `connectionGeneration, `terminalRequests, `terminalRequestOrder
      modifies `processRunning, `currentExecutable
      modifies `restartTimes, `restarts
      ensures Valid() && (old(processRunning) ==> processRunning)
      ensures forcedCancellationPending && !old(stopping) && !old(processRunning) ==> |restarts| == 0
      ensures forcedCancellationPending && !stopping && !processRunning ==> recoveryTimerActive
      ensures !(forcedCancellationPending && !old(stopping) && !old(processRunning)) ==>
        restarts == old(restarts) && processRunning == old(processRunning)
    {
      recoveryTimerActive := false;
      if forcedCancellationPending && !stopping && !processRunning {
        ClearFailures();
        StartAgain(candidates, disk);
      }
    }

    method StartAgain(candidates: seq<string>, disk: Disk)
      requires Valid()
      modifies `candidateCount, `failedExecutables, `recoveryTimerActive, `stopping, `processGeneration
      modifies `authenticatedProcessGeneration, `connectionGeneration, `terminalRequests, `terminalRequestOrder
      modifies `processRunning, `currentExecutable
      ensures Valid() && (forcedCancellationPending && !stopping && !processRunning ==> recoveryTimerActive)
    {
      var started := Start(candidates, disk, 0);
      if !started {
        ScheduleForcedCancellationRecovery();
      }
    }

    method ProcessGone()
      requires Valid() && processRunning
      modifies `processRunning, `busy, `traffic, `processGeneration, `authenticatedProcessGeneration, `ready
      ensures Valid() && busy == {} && traffic == old(traffic) + [Exited] && !processRunning && !ready
    {
      FewerBusy(terminalRequests, busy, {}, nextRequestId);
      processRunning, busy, traffic := false, {}, traffic + [Exited];
      processGeneration := processGeneration + 1;
      authenticatedProcessGeneration := 0;
      ready := false;
    }

    // The first half of handleUnexpectedExit: up to the workerInterrupted signal, which is raised unless the
    // manager is stopping.
    method ProcessExited() returns (interrupted: bool, settled: bool)
      requires Valid() && processRunning
      modifies `processRunning, `busy, `traffic, `processGeneration, `authenticatedProcessGeneration, `ready, `recoveryTimerActive
      modifies `forcedCancellationPending, `forcedCancellationAwaitingRestart, `forcedCancellation, `forcedCancellationTicket
      ensures Valid() && busy == {} && traffic == old(traffic) + [Exited] && !processRunning && !ready
      ensures interrupted == !stopping
      ensures settled <==> stopping && old(forcedCancellationPending)
      ensures forcedCancellationPending == (old(forcedCancellationPending) && !settled)
      ensures !settled ==> forcedCancellation == old(forcedCancellation)
      ensures forcedCancellationPending ==> forcedCancellationAwaitingRestart
    {
      ProcessGone();
      if forcedCancellationPending {
        forcedCancellationAwaitingRestart := true;
      }
      settled := false;
      interrupted := !stopping;
      if stopping {
        settled := SettleForcedCancellation();
      }
    }

    method DropOldRestarts(now: int)
      requires WindowSound(restartTimes, restarts, now)
      modifies `restartTimes
      ensures WindowSound(restartTimes, restarts, now)
      ensures restartTimes == RecentRestarts(restarts, now)
    {
      while restartTimes != [] && restartTimes[0] < now - RESTART_WINDOW_SECONDS
        invariant WindowSound(restartTimes, restarts, now)
      {
        Forget(restartTimes, restarts, now);
        restartTimes := restartTimes[1..];
      }
      RecentOnes(restarts, |restarts| - |restartTimes|, now);
    }

    static lemma {:induction false} LaterClock(restartTimes: seq<int>, restarts: seq<int>, clock: int, now: int)
      requires WindowSound(restartTimes, restarts, clock) && clock <= now
      ensures WindowSound(restartTimes, restarts, now)
    {
    }

    // The second half: whether an automatic restart is due. now is a clock that does not run backwards.
    method RestartAfterExit(now: int) returns (restart: bool)
      requires Valid() && clock <= now
      modifies `failedExecutables, `restartTimes, `restarts, `clock, `recoveryTimerActive
      ensures Valid() && clock == now
      ensures restart <==> |RecentRestarts(old(restarts), now)| < MAXIMUM_RESTARTS_IN_WINDOW
      ensures restarts == old(restarts) + if restart then [now] else []
      ensures failedExecutables == old(failedExecutables) + if candidateCount > 1 && currentExecutable != "" then {currentExecutable} else {}
    {
      if candidateCount > 1 && currentExecutable != "" {
        failedExecutables := failedExecutables + {currentExecutable};
      }
      restart := CountRestart(now);
      clock := now;
    }

    method CountRestart(now: int) returns (restart: bool)
      requires WindowSound(restartTimes, restarts, clock) && clock <= now
      modifies `restartTimes, `restarts, `recoveryTimerActive
      ensures WindowSound(restartTimes, restarts, now)
      ensures restart <==> |RecentRestarts(old(restarts), now)| < MAXIMUM_RESTARTS_IN_WINDOW
      ensures restarts == old(restarts) + if restart then [now] else []
    {
      LaterClock(restartTimes, restarts, clock, now);
      DropOldRestarts(now);
      restart := AdmitRestart(now);
    }

    method AdmitRestart(now: int) returns (restart: bool)
      requires WindowSound(restartTimes, restarts, now)
      modifies `restartTimes, `restarts, `recoveryTimerActive
      ensures WindowSound(restartTimes, restarts, now)
      ensures restart <==> |old(restartTimes)| < MAXIMUM_RESTARTS_IN_WINDOW
      ensures restarts == old(restarts) + if restart then [now] else []
    {
      if |restartTimes| >= MAXIMUM_RESTARTS_IN_WINDOW {
        ScheduleForcedCancellationRecovery();
        return false;
      }
      OneMoreRestart(restartTimes, restarts, now);
      restartTimes := restartTimes + [now];
      restarts := restarts + [now];
      restart := true;
    }

    static lemma {:induction false} Forget(restartTimes: seq<int>, restarts: seq<int>, now: int)
      requires WindowSound(restartTimes, restarts, now)
      requires restartTimes != [] && restartTimes[0] < now - RESTART_WINDOW_SECONDS
      ensures WindowSound(restartTimes[1..], restarts, now)
    {
      var dropped := |restarts| - |restartTimes|;
      assert restarts[dropped] == restarts[dropped..][0];
      assert restarts[dropped + 1..] == restarts[dropped..][1..];
      assert restarts[..dropped + 1] == restarts[..dropped] + [restarts[dropped]];
    }

    static lemma {:induction false} OneMoreRestart(restartTimes: seq<int>, restarts: seq<int>, now: int)
      requires WindowSound(restartTimes, restarts, now) && |restartTimes| < MAXIMUM_RESTARTS_IN_WINDOW
      ensures WindowSound(restartTimes + [now], restarts + [now], now)
    {
      var more := restarts + [now];
      var dropped := |restarts| - |restartTimes|;
      forall i, j | 0 <= i < j < |more| ensures InOrder(more, i, j) {
        if j < |restarts| {
          assert InOrder(restarts, i, j);
        } else {
          assert restarts[i] in restarts;
        }
      }
      forall i | 0 <= i < |more| - MAXIMUM_RESTARTS_IN_WINDOW ensures SpreadAt(more, i) {
        if i < |restarts| - MAXIMUM_RESTARTS_IN_WINDOW {
          assert SpreadAt(restarts, i);
        } else {
          assert restarts[i] == restarts[..dropped][i];
          assert restarts[i] in restarts[..dropped];
        }
      }
      assert more[|more| - |restartTimes| - 1..] == restarts[dropped..] + [now];
      assert more[..dropped] == restarts[..dropped];
    }

    method WaitForExit(exits: bool) returns (settled: bool)
      requires Valid() && stopping && !ready
      modifies `processRunning, `busy, `traffic, `processGeneration, `authenticatedProcessGeneration, `ready, `recoveryTimerActive
      modifies `forcedCancellationPending, `forcedCancellationAwaitingRestart, `forcedCancellation, `forcedCancellationTicket
      ensures Valid() && !ready
      ensures processRunning == (old(processRunning) && !exits)
      ensures busy == if processRunning then old(busy) else {}
      ensures traffic == if old(processRunning) && exits then old(traffic) + [Exited] else old(traffic)
      ensures settled <==> !processRunning && old(forcedCancellationPending)
      ensures forcedCancellationPending == (old(forcedCancellationPending) && !settled)
      ensures !settled ==> forcedCancellation == old(forcedCancellation)
    {
      settled := false;
      if processRunning && exits {
        var interrupted;
        interrupted, settled := ProcessExited();
      } else if !processRunning {
        settled := SettleForcedCancellation();
      }
    }

    // exits says whether the process ends within the waits and the kill of stop().
    method Stop(exits: bool) returns (settled: bool)
      requires Valid()
      modifies `nextRequestId, `stopping, `stopped, `processRunning, `busy, `traffic, `processGeneration
      modifies `authenticatedProcessGeneration, `ready, `recoveryTimerActive
      modifies `forcedCancellationPending, `forcedCancellationAwaitingRestart, `forcedCancellation, `forcedCancellationTicket
      ensures Valid() && stopping && stopped && !ready && nextRequestId >= old(nextRequestId)
      ensures processRunning == (old(processRunning) && !exits)
      ensures busy == if processRunning then old(busy) else {}
      ensures traffic == if old(processRunning) && exits then old(traffic) + [Exited] else old(traffic)
      ensures settled <==> !processRunning && old(forcedCancellationPending)
      ensures forcedCancellationPending == (old(forcedCancellationPending) && !settled)
      ensures !settled ==> forcedCancellation == old(forcedCancellation)
    {
      BeginStop();
      settled := WaitForExit(exits);
    }

    method BeginStop()
      requires Valid()
      modifies `stopping, `stopped, `recoveryTimerActive, `processGeneration, `authenticatedProcessGeneration
      modifies `forcedCancellationTicket, `nextRequestId, `ready
      ensures Valid() && stopping && stopped && !ready && nextRequestId >= old(nextRequestId)
    {
      stopping, stopped := true, true;
      recoveryTimerActive := false;
      processGeneration := processGeneration + 1;
      authenticatedProcessGeneration := 0;
      forcedCancellationTicket := forcedCancellationTicket + 1;
      if ready {
        nextRequestId := nextRequestId + 1;
      }
      ready := false;
    }
  }

  lemma {:induction false} RecentOnes(restarts: seq<int>, gone: nat, now: int)
    requires gone <= |restarts| && Sorted(restarts)
    requires Before(restarts[..gone], now - RESTART_WINDOW_SECONDS)
    requires gone < |restarts| ==> restarts[gone] >= now - RESTART_WINDOW_SECONDS
    ensures RecentRestarts(restarts, now) == restarts[gone..]
    decreases |restarts|
  {
    if restarts != [] {
      var last := |restarts| - 1;
      var rest := restarts[..last];
      forall i, j | 0 <= i < j < last ensures InOrder(rest, i, j) {
        assert InOrder(restarts, i, j);
      }
      if gone <= last {
        assert rest[..gone] == restarts[..gone];
        RecentOnes(rest, gone, now);
        assert gone < last ==> InOrder(restarts, gone, last);
        assert restarts[gone..] == rest[gone..] + [restarts[last]];
      } else {
        assert rest[..last] == rest && forall time :: time in rest ==> time in restarts[..gone];
        assert restarts[last] in restarts[..gone];
        RecentOnes(rest, last, now);
      }
    }
  }

  // The restarts at most a window old.
  function RecentRestarts(restarts: seq<int>, now: int): seq<int> {
    if restarts == [] then []
    else
      var last := |restarts| - 1;
      RecentRestarts(restarts[..last], now) + if restarts[last] >= now - RESTART_WINDOW_SECONDS then [restarts[last]] else []
  }
}
