/** The polling hook in its own imperative shape: refs assigned step by step, each handler proved to
  * compute the state function of `SyncPolling` with the same name. */
module SyncPollingHook {
  import opened Options
  import opened SyncPolling
  import opened SyncPollingSafety

  class PollingHook {
    var generation: nat
    var active: Option<Target>
    var retry: Option<Target>
    var terminal: Option<Target>
    var errorCount: nat
    var startedAt: int
    var timeout: Option<nat>
    var controller: Option<nat>
    var mounted: bool
    var jobStatus: Option<Job>
    var isPolling: bool
    var pollingError: Option<PollingError>
    var pending: map<nat, Continuation>
    var nextHandle: nat
    var clock: int
    var log: seq<Output>

    ghost function View(): State
      reads this
    {
      State(generation, active, retry, terminal, errorCount, startedAt, timeout, controller, mounted,
            jobStatus, isPolling, pollingError, pending, nextHandle, clock, log)
    }

    constructor (clock: int)
      ensures View() == Initial(clock)
    {
      generation, active, retry, terminal := 0, None, None, None;
      errorCount, startedAt, timeout, controller := 0, 0, None, None;
      mounted, jobStatus, isPolling, pollingError := true, None, false, None;
      pending, nextHandle, log := map[], 0, [];
      this.clock := clock;
    }

    method CancelActivePolling()
      modifies this
      ensures View() == Cancelled(old(View()))
    {
      generation := generation + 1;
      active := None;
      if timeout.Some? {
        pending := pending - {timeout.value};
        timeout := None;
      }
      controller := None;
    }

    method StopPolling()
      modifies this
      ensures View() == StopResult(old(View()))
    {
      CancelActivePolling();
      retry := None;
      terminal := None;
      errorCount := 0;
      jobStatus := None;
      isPolling := false;
      pollingError := None;
      log := log + [Stopped];
    }

    method FailPolling(error: PollingError)
      modifies this
      ensures View() == FailResult(old(View()), error)
    {
      CancelActivePolling();
      isPolling := false;
      pollingError := Some(error);
    }

    method Poll(pollingGeneration: nat, target: Target)
      modifies this
      ensures View() == PollResult(old(View()), pollingGeneration, target)
    {
      if pollingGeneration != generation {
        return;
      }
      if clock - startedAt >= MAX_POLL_DURATION_MS {
        FailPolling(TimedOut);
        return;
      }
      controller := Some(nextHandle);
      pending := pending[nextHandle := Request(pollingGeneration, target)];
      nextHandle := nextHandle + 1;
      log := log + [Requested(pollingGeneration)];
    }

    method Arm(target: Target)
      modifies this
      ensures View() == Armed(old(View()), target)
    {
      var isRetryingTarget := retry == Some(target);
      CancelActivePolling();
      active := Some(target);
      retry := Some(target);
      terminal := None;
      errorCount := 0;
      startedAt := clock;
      ShowRunning(isRetryingTarget);
      log := log + [Started(generation, target)];
    }

    /** The React state of a fresh session; a retry keeps showing the job. */
    method ShowRunning(keepJob: bool)
      modifies this
      ensures View() == old(View()).(jobStatus := if keepJob then old(jobStatus) else None, isPolling := true,
                                     pollingError := None)
    {
      if !keepJob {
        jobStatus := None;
      }
      isPolling := true;
      pollingError := None;
    }

    method StartPolling(target: Target)
      modifies this
      ensures View() == StartResult(old(View()), target)
    {
      if !mounted {
        return;
      }
      if active == Some(target) || terminal == Some(target) {
        return;
      }
      Arm(target);
      Poll(generation, target);
    }

    method RetryPolling()
      modifies this
      ensures View() == RetryResult(old(View()))
    {
      if retry.Some? {
        StartPolling(retry.value);
      }
    }

    method ScheduleNext(pollingGeneration: nat, target: Target)
      modifies this
      ensures View() == Scheduled(old(View()), pollingGeneration, target)
    {
      timeout := Some(nextHandle);
      pending := pending[nextHandle := Timer(pollingGeneration, target, clock + POLL_INTERVAL_MS)];
      nextHandle := nextHandle + 1;
    }

    method FireTimer(handle: nat)
      requires handle in pending
      modifies this
      ensures View() == TimerResult(old(View()), handle)
    {
      var c := pending[handle];
      pending := pending - {handle};
      timeout := None;
      Poll(c.generation, c.target);
    }

    method CatchBlock(handle: nat, pollingGeneration: nat, target: Target)
      modifies this
      ensures View() == CatchResult(old(View()), handle, pollingGeneration, target)
    {
      ReleaseController(handle);
      if pollingGeneration != generation {
        return;
      }
      errorCount := errorCount + 1;
      log := log + [Errored(pollingGeneration)];
      if errorCount >= MAX_CONSECUTIVE_ERRORS {
        FailPolling(RequestFailed);
        return;
      }
      ScheduleNext(pollingGeneration, target);
    }

    method TerminalCallback(calls: seq<Call>)
      modifies this
      ensures View() == CallsResult(old(View()), calls)
    {
      for i := 0 to |calls|
        invariant View() == CallsResult(old(View()), calls[..i])
      {
        assert calls[..i + 1][..i] == calls[..i];
        match calls[i]
        case CallStart(target) => StartPolling(target);
        case CallStop => StopPolling();
        case CallRetry => RetryPolling();
      }
      assert calls[..|calls|] == calls;
    }

    method OnFulfilled(handle: nat, pollingGeneration: nat, target: Target, job: Job, calls: seq<Call>, throws: bool)
      returns (reported: Option<Job>)
      modifies this
      ensures reported == if IsTerminal(job.status) then Some(job) else None
      ensures View() == FulfilledResult(old(View()), handle, pollingGeneration, target, job, calls, throws)
    {
      reported := None;
      if job.status.Unknown? {
        FailPolling(InvalidStatus);
        return;
      }
      errorCount := 0;
      jobStatus := Some(job);
      log := log + [Answered(pollingGeneration)];
      if IsTerminal(job.status) {
        FinishPolling(target);
        assert View() == TerminalState(old(View()), job, pollingGeneration, target);
        reported := Some(job);
        TerminalCallback(calls);
        if throws {
          CatchBlock(handle, pollingGeneration, target);
        }
        return;
      }
      ScheduleNext(pollingGeneration, target);
    }

    method ReleaseController(handle: nat)
      modifies this
      ensures View() == Released(old(View()), handle)
    {
      if controller == Some(handle) {
        controller := None;
      }
    }

    /** `reported` is the job with which the terminal callback was called. */
    method SettleRequest(handle: nat, answer: Answer, calls: seq<Call>, throws: bool) returns (reported: Option<Job>)
      requires handle in pending && pending[handle].Request?
      modifies this
      ensures reported == ReportOf(old(View()), Settle(handle, answer, calls, throws))
      ensures View() == SettleResult(old(View()), handle, answer, calls, throws)
    {
      reported := None;
      var c := pending[handle];
      pending := pending - {handle};
      match answer
      case Rejected =>
        CatchBlock(handle, c.generation, c.target);
      case Fulfilled(job) =>
        ReleaseController(handle);
        if c.generation != generation {
          return;
        }
        reported := OnFulfilled(handle, c.generation, c.target, job, calls, throws);
    }

    method FinishPolling(target: Target)
      modifies this
      ensures View() == (var c := Cancelled(old(View()));
                         c.(retry := None, terminal := Some(target), isPolling := false, pollingError := None,
                            log := c.log + [Reported(target)]))
    {
      CancelActivePolling();
      retry := None;
      terminal := Some(target);
      isPolling := false;
      pollingError := None;
      log := log + [Reported(target)];
    }

    method Unmount()
      modifies this
      ensures View() == UnmountResult(old(View()))
    {
      mounted := false;
      CancelActivePolling();
    }

    method Remount()
      modifies this
      ensures View() == old(View()).(mounted := true)
    {
      mounted := true;
    }

    method Advance(ms: nat)
      modifies this
      ensures View() == old(View()).(clock := old(clock) + ms)
    {
      clock := clock + ms;
    }

    /** One event of the outside world; what the event loop cannot deliver changes nothing. */
    method Dispatch(event: Event) returns (reported: Option<Job>)
      modifies this
      ensures View() == Step(old(View()), event) && reported == ReportOf(old(View()), event)
    {
      reported := None;
      match event
      case Start(target) => StartPolling(target);
      case Stop => StopPolling();
      case Retry => RetryPolling();
      case FireTimer(handle) =>
        if handle in pending && pending[handle].Timer? && pending[handle].due <= clock {
          FireTimer(handle);
        }
      case Settle(handle, answer, calls, throws) =>
        if handle in pending && pending[handle].Request? {
          reported := SettleRequest(handle, answer, calls, throws);
        }
      case Unmount => Unmount();
      case Remount => Remount();
      case Advance(ms) => Advance(ms);
    }
  }

  /** A whole life of the hook: whatever happens to it, it ends in the state of the run, with one live continuation
    * exactly while a target is active, and all budgets kept. */
  method Live(clock: int, events: seq<Event>) returns (hook: PollingHook)
    ensures hook.View() == Run(Initial(clock), events)
    ensures |CurrentHandles(hook.View())| == if hook.active.Some? then 1 else 0
    ensures hook.active.Some? ==> hook.errorCount < MAX_CONSECUTIVE_ERRORS
    ensures hook.pollingError.Some? ==> hook.retry.Some? && hook.active.None?
    ensures forall g :: Issued(hook.log, g) <= MAX_REQUESTS
  {
    hook := new PollingHook(clock);
    for n := 0 to |events|
      invariant fresh(hook) && hook.View() == Run(Initial(clock), events[..n])
    {
      assert events[..n + 1][..n] == events[..n];
      var _ := hook.Dispatch(events[n]);
    }
    assert events[..|events|] == events;
    OneLiveContinuation(clock, events);
    ErrorCountIsFailureRun(clock, events);
    if hook.pollingError.Some? {
      RetryRestartsFailedTarget(clock, events);
    }
    forall g ensures Issued(hook.log, g) <= MAX_REQUESTS {
      RequestBudget(clock, events, g);
    }
  }
}
