/** Safety of the polling hook over every run: fencing, single reporting, budgets and retry. */
module SyncPollingSafety {
  import opened Options
  import opened SyncPolling

  // ---------------------------------------------------------------- the invariant

  /** Who is pending: one continuation of the current generation, named by its ref, and no stale timer. */
  ghost predicate Fenced(s: State) {
    && (forall h :: h in s.pending ==> h < s.nextHandle && s.pending[h].generation <= s.generation)
    && (forall h :: h in s.pending && s.pending[h].Timer? ==> s.timeout == Some(h))
    && (forall h :: h in s.pending && s.pending[h].generation == s.generation ==>
          s.active == Some(s.pending[h].target) && (s.timeout == Some(h) || s.controller == Some(h)))
    && (s.active.None? ==> s.timeout.None? && s.controller.None?)
    && (s.active.Some? ==> s.timeout.None? != s.controller.None?)
    && (s.timeout.Some? ==> Names(s, s.timeout.value) && s.pending[s.timeout.value].Timer?)
    && (s.controller.Some? ==> Names(s, s.controller.value) && s.pending[s.controller.value].Request?)
  }

  predicate Names(s: State, handle: nat) {
    handle in s.pending && s.pending[handle].generation == s.generation
  }

  /** How the three target refs exclude one another. */
  ghost predicate Targets(s: State) {
    && (s.active.Some? ==> s.mounted && s.isPolling && s.retry == s.active && s.terminal.None? && s.pollingError.None?)
    && (s.terminal.Some? ==> s.retry.None? && s.pollingError.None? && !s.isPolling)
    && (s.pollingError.Some? ==> s.retry.Some? && !s.isPolling)
    && s.terminal == LastReport(s.log)
    && WellSeparated(s.log)
  }

  ghost predicate Budget(s: State) {
    && WithinBudget(s.log) && UpTo(s.log, s.generation)
    && (s.active.Some? ==>
          && s.startedAt <= s.clock
          && s.errorCount == FailureRun(s.log, s.generation) < MAX_CONSECUTIVE_ERRORS)
    && (s.timeout.Some? && s.timeout.value in s.pending && s.pending[s.timeout.value].Timer? ==>
          s.pending[s.timeout.value].due >= s.startedAt + POLL_INTERVAL_MS * Issued(s.log, s.generation))
    && (s.controller.Some? ==>
          s.clock + POLL_INTERVAL_MS >= s.startedAt + POLL_INTERVAL_MS * Issued(s.log, s.generation))
  }

  ghost predicate Inv(s: State) {
    Fenced(s) && Targets(s) && Budget(s)
  }

  lemma LogStep(log: seq<Output>, next: Output, g: nat)
    requires WellSeparated(log) && Allowed(log, next) && WithinBudget(log)
    requires next.Requested? ==> Issued(log, next.generation) < MAX_REQUESTS
    ensures WellSeparated(log + [next]) && WithinBudget(log + [next])
    ensures Issued(log + [next], g) == Issued(log, g) + if next == Requested(g) then 1 else 0
    ensures FailureRun(log + [next], g) == if next == Errored(g) then FailureRun(log, g) + 1
                                           else if next == Answered(g) then 0 else FailureRun(log, g)
    ensures LastReport(log + [next]) ==
            if next.Reported? then Some(next.target)
            else if next.Stopped? || next.Started? then None else LastReport(log)
  {
    var longer := log + [next];
    assert longer[..|longer| - 1] == log;
  }

  lemma {:induction false} UnusedGeneration(log: seq<Output>, used: nat, g: nat)
    requires UpTo(log, used) && g > used
    ensures Issued(log, g) == 0 && FailureRun(log, g) == 0
  {
    if log != [] {
      UnusedGeneration(log[..|log| - 1], used, g);
      assert log[|log| - 1] in log;
    }
  }

  lemma {:induction false} BudgetHolds(log: seq<Output>, g: nat)
    requires WithinBudget(log)
    ensures Issued(log, g) <= MAX_REQUESTS
  {
    if log != [] {
      BudgetHolds(log[..|log| - 1], g);
    }
  }

  lemma {:induction false} SeparatedPrefix(log: seq<Output>, k: nat)
    requires WellSeparated(log) && k < |log|
    ensures Allowed(log[..k], log[k])
  {
    if k < |log| - 1 {
      SeparatedPrefix(log[..|log| - 1], k);
      assert log[..|log| - 1][..k] == log[..k];
    }
  }

  lemma CancelKeeps(s: State)
    requires Inv(s)
    ensures Fenced(Cancelled(s)) && Budget(Cancelled(s)) && CurrentHandles(Cancelled(s)) == {}
    ensures s.active.None? ==> Inv(Cancelled(s))
  {
  }

  lemma StopKeeps(s: State)
    requires Inv(s)
    ensures Inv(StopResult(s))
  {
    CancelKeeps(s);
    LogStep(Cancelled(s).log, Stopped, s.generation);
  }

  /** Between a continuation being consumed and the next one being created. */
  ghost predicate Detached(s: State) {
    && (forall h :: h in s.pending ==>
        h < s.nextHandle && s.pending[h].generation < s.generation && s.pending[h].Request?)
    && s.timeout.None? && s.controller.None? && s.active.Some?
    && Targets(s) && s.startedAt <= s.clock
    && WithinBudget(s.log) && UpTo(s.log, s.generation)
  }

  lemma DetachedFailKeeps(s: State, error: PollingError)
    requires Detached(s)
    ensures Inv(FailResult(s, error))
  {
  }

  lemma PollKeeps(s: State)
    requires Detached(s)
    requires s.errorCount == FailureRun(s.log, s.generation) < MAX_CONSECUTIVE_ERRORS
    requires s.clock >= s.startedAt + POLL_INTERVAL_MS * Issued(s.log, s.generation)
    ensures Inv(PollResult(s, s.generation, s.active.value))
  {
    if s.clock - s.startedAt >= MAX_POLL_DURATION_MS {
      DetachedFailKeeps(s, TimedOut);
    } else {
      LogStep(s.log, Requested(s.generation), s.generation);
    }
  }

  lemma ScheduleKeeps(s: State)
    requires Detached(s)
    requires s.errorCount == FailureRun(s.log, s.generation) < MAX_CONSECUTIVE_ERRORS
    requires s.clock + POLL_INTERVAL_MS >= s.startedAt + POLL_INTERVAL_MS * Issued(s.log, s.generation)
    ensures Inv(Scheduled(s, s.generation, s.active.value))
  {
  }

  lemma StartKeeps(s: State, target: Target)
    requires Inv(s)
    ensures Inv(StartResult(s, target))
    ensures StartTakesEffect(s, target) ==>
              && StartResult(s, target).active == Some(target)
              && StartResult(s, target).controller == Some(s.nextHandle)
  {
    if StartTakesEffect(s, target) {
      ArmedIsDetached(s, target);
      PollKeeps(Armed(s, target));
      hide Inv, Detached, Issued, FailureRun;
    }
  }

  lemma ArmedIsDetached(s: State, target: Target)
    requires Inv(s) && StartTakesEffect(s, target)
    ensures var a := Armed(s, target);
            && Detached(a) && a.generation == s.generation + 1
            && Issued(a.log, a.generation) == 0 == FailureRun(a.log, a.generation)
  {
    CancelKeeps(s);
    LogStep(Cancelled(s).log, Started(s.generation + 1, target), s.generation + 1);
    UnusedGeneration(s.log, s.generation, s.generation + 1);
    hide Issued, FailureRun, WithinBudget, WellSeparated, LastReport;
  }

  lemma CallKeeps(s: State, call: Call)
    requires Inv(s)
    ensures Inv(CallResult(s, call)) && CallResult(s, call).generation >= s.generation
    ensures CallResult(s, call).nextHandle >= s.nextHandle
  {
    match call
    case CallStart(target) => StartKeeps(s, target);
    case CallStop => StopKeeps(s);
    case CallRetry => if s.retry.Some? { StartKeeps(s, s.retry.value); }
  }

  lemma {:induction false} CallsKeep(s: State, calls: seq<Call>)
    requires Inv(s)
    ensures Inv(CallsResult(s, calls)) && CallsResult(s, calls).generation >= s.generation
    ensures CallsResult(s, calls).nextHandle >= s.nextHandle
  {
    if calls != [] {
      CallsKeep(s, calls[..|calls| - 1]);
      CallKeeps(CallsResult(s, calls[..|calls| - 1]), calls[|calls| - 1]);
    }
  }

  /** Taking a live request out of the event loop leaves the session detached from it. */
  lemma DetachRequest(s: State, handle: nat)
    requires Inv(s) && handle in s.pending && s.pending[handle].Request? && s.pending[handle].generation == s.generation
    ensures s.active == Some(s.pending[handle].target)
    ensures var r := Released(s.(pending := s.pending - {handle}), handle);
            && Detached(r) && r.errorCount == FailureRun(r.log, r.generation) < MAX_CONSECUTIVE_ERRORS
            && r.clock + POLL_INTERVAL_MS >= r.startedAt + POLL_INTERVAL_MS * Issued(r.log, r.generation)
            && handle < r.nextHandle
  {
  }

  lemma CatchKeeps(r: State, handle: nat)
    requires Detached(r) && r.errorCount == FailureRun(r.log, r.generation) < MAX_CONSECUTIVE_ERRORS
    requires r.clock + POLL_INTERVAL_MS >= r.startedAt + POLL_INTERVAL_MS * Issued(r.log, r.generation)
    ensures Inv(CatchResult(r, handle, r.generation, r.active.value))
  {
    hide FailResult, Inv, Scheduled;
    LogStep(r.log, Errored(r.generation), r.generation);
    var e := r.(errorCount := r.errorCount + 1, log := r.log + [Errored(r.generation)]);
    if e.errorCount >= MAX_CONSECUTIVE_ERRORS {
      DetachedFailKeeps(e, RequestFailed);
    } else {
      ScheduleKeeps(e);
    }
  }

  lemma TerminalKeeps(r: State, job: Job)
    requires Detached(r)
    ensures Inv(TerminalState(r, job, r.generation, r.active.value))
  {
    hide Issued, FailureRun, WithinBudget, WellSeparated, LastReport;
    LogStep(r.log, Answered(r.generation), r.generation);
    LogStep(r.log + [Answered(r.generation)], Reported(r.active.value), r.generation);
  }

  lemma ProgressKeeps(r: State, job: Job)
    requires Detached(r)
    requires r.clock + POLL_INTERVAL_MS >= r.startedAt + POLL_INTERVAL_MS * Issued(r.log, r.generation)
    ensures Inv(Scheduled(r.(errorCount := 0, jobStatus := Some(job), log := r.log + [Answered(r.generation)]),
                          r.generation, r.active.value))
  {
    LogStep(r.log, Answered(r.generation), r.generation);
    ScheduleKeeps(r.(errorCount := 0, jobStatus := Some(job), log := r.log + [Answered(r.generation)]));
  }

  /** Once the session is over, the catch block can only release its own controller. */
  lemma LateCatch(s: State, handle: nat, generation: nat, target: Target)
    requires generation < s.generation && s.controller != Some(handle)
    ensures CatchResult(s, handle, generation, target) == s
  {
  }

  lemma CallbackKeeps(t: State, calls: seq<Call>, throws: bool, handle: nat, generation: nat, target: Target)
    requires Inv(t) && generation < t.generation && handle < t.nextHandle && t.controller.None?
    ensures Inv(CallsResult(t, calls))
    ensures CatchResult(CallsResult(t, calls), handle, generation, target) == CallsResult(t, calls)
  {
    CallsKeep(t, calls);
    FreshControllers(t, calls, handle);
    LateCatch(CallsResult(t, calls), handle, generation, target);
  }

  /** A callback that calls nothing leaves the state in which it was entered, even if it throws. */
  lemma SilentReport(r: State, job: Job, throws: bool, handle: nat)
    requires Detached(r) && handle < r.nextHandle && IsTerminal(job.status)
    ensures FulfilledResult(r, handle, r.generation, r.active.value, job, [], throws) ==
            TerminalState(r, job, r.generation, r.active.value)
  {
    var t := TerminalState(r, job, r.generation, r.active.value);
    TerminalKeeps(r, job);
    CallbackKeeps(t, [], throws, handle, r.generation, r.active.value);
    hide Inv, Detached, CatchResult;
    assert CallsResult(t, []) == t;
  }

  lemma {:induction false} FreshControllers(s: State, calls: seq<Call>, handle: nat)
    requires Inv(s) && handle < s.nextHandle && s.controller != Some(handle)
    ensures CallsResult(s, calls).controller != Some(handle)
  {
    if calls != [] {
      FreshControllers(s, calls[..|calls| - 1], handle);
      CallsKeep(s, calls[..|calls| - 1]);
      CallControllers(CallsResult(s, calls[..|calls| - 1]), calls[|calls| - 1]);
      hide Inv, CallResult;
    }
  }

  lemma CallControllers(s: State, call: Call)
    ensures var c := CallResult(s, call).controller; c == s.controller || c == None || c == Some(s.nextHandle)
  {
  }

  lemma LiveSettleKeeps(s: State, handle: nat, answer: Answer, calls: seq<Call>, throws: bool)
    requires Inv(s) && handle in s.pending && s.pending[handle].Request? && s.pending[handle].generation == s.generation
    ensures Inv(SettleResult(s, handle, answer, calls, throws))
  {
    var c := s.pending[handle];
    var popped := s.(pending := s.pending - {handle});
    var r := Released(popped, handle);
    DetachRequest(s, handle);
    hide Inv, Detached, Issued, FailureRun;
    if answer.Rejected? {
      CatchKeeps(r, handle);
      assert CatchResult(popped, handle, c.generation, c.target) ==
             CatchResult(r, handle, r.generation, r.active.value);
    } else if answer.job.status.Unknown? {
      DetachedFailKeeps(r, InvalidStatus);
    } else if IsTerminal(answer.job.status) {
      TerminalKeeps(r, answer.job);
      CallbackKeeps(TerminalState(r, answer.job, c.generation, c.target), calls, throws, handle, c.generation,
          c.target);
    } else {
      ProgressKeeps(r, answer.job);
    }
  }

  lemma StaleSettle(s: State, handle: nat, answer: Answer, calls: seq<Call>, throws: bool)
    requires Inv(s) && handle in s.pending && s.pending[handle].generation != s.generation
    ensures s.pending[handle].Request?
    ensures SettleResult(s, handle, answer, calls, throws) == s.(pending := s.pending - {handle})
  {
  }

  lemma StepKeeps(s: State, event: Event)
    requires Inv(s)
    ensures Inv(Step(s, event))
  {
    hide Inv, StartResult, StopResult, TimerResult, SettleResult, UnmountResult;
    match event
    case Start(target) => StartKeeps(s, target); return;
    case Stop => StopKeeps(s); return;
    case Retry => if s.retry.Some? { StartKeeps(s, s.retry.value); } return;
    case FireTimer(handle) =>
      if handle in s.pending && s.pending[handle].Timer? && s.pending[handle].due <= s.clock {
        TimerKeeps(s, handle);
      }
      return;
    case Settle(handle, answer, calls, throws) =>
      if handle in s.pending && s.pending[handle].Request? {
        SettleKeeps(s, handle, answer, calls, throws);
      }
      return;
    case Unmount => UnmountKeeps(s); return;
    case Remount => WaitKeeps(s, 0); return;
    case Advance(ms) => WaitKeeps(s, ms); return;
  }

  lemma TimerKeeps(s: State, handle: nat)
    requires Inv(s) && handle in s.pending && s.pending[handle].Timer? && s.pending[handle].due <= s.clock
    ensures Inv(TimerResult(s, handle))
  {
    PollKeeps(s.(timeout := None, pending := s.pending - {handle}));
  }

  lemma SettleKeeps(s: State, handle: nat, answer: Answer, calls: seq<Call>, throws: bool)
    requires Inv(s) && handle in s.pending && s.pending[handle].Request?
    ensures Inv(SettleResult(s, handle, answer, calls, throws))
  {
    if s.pending[handle].generation == s.generation {
      LiveSettleKeeps(s, handle, answer, calls, throws);
      hide *;
    } else {
      StaleSettle(s, handle, answer, calls, throws);
      hide SettleResult;
    }
  }

  lemma WaitKeeps(s: State, ms: nat)
    requires Inv(s)
    ensures Inv(s.(clock := s.clock + ms)) && Inv(s.(mounted := true))
  {
  }

  lemma UnmountKeeps(s: State)
    requires Inv(s)
    ensures Inv(UnmountResult(s)) && UnmountResult(s).active.None?
  {
  }

  lemma {:induction false} RunKeeps(clock: int, events: seq<Event>)
    ensures Inv(Run(Initial(clock), events))
  {
    if events != [] {
      RunKeeps(clock, events[..|events| - 1]);
      StepKeeps(Run(Initial(clock), events[..|events| - 1]), events[|events| - 1]);
    }
  }

  /** Some run of the hook ends in `s`. */
  ghost predicate Reachable(s: State) {
    exists clock: int, events: seq<Event> :: s == Run(Initial(clock), events)
  }

  lemma ReachableKeeps(s: State, event: Event)
    requires Reachable(s)
    ensures Reachable(Step(s, event))
  {
    var clock: int, events: seq<Event> :| s == Run(Initial(clock), events);
    var longer := events + [event];
    assert longer[..|longer| - 1] == events;
    assert Step(s, event) == Run(Initial(clock), longer);
  }

  lemma ReachableInv(s: State)
    requires Reachable(s)
    ensures Inv(s)
  {
    var clock: int, events: seq<Event> :| s == Run(Initial(clock), events);
    RunKeeps(clock, events);
  }

  // ---------------------------------------------------------------- main results

  /** At most one continuation carries the current generation; it exists exactly while a target is
    * active, it belongs to that target, and the matching ref names it. */
  lemma OneLiveContinuation(clock: int, events: seq<Event>)
    ensures var s := Run(Initial(clock), events);
            && |CurrentHandles(s)| <= 1
            && (s.active.Some? <==> |CurrentHandles(s)| == 1)
            && (forall h :: h in CurrentHandles(s) ==>
                  && s.active == Some(s.pending[h].target)
                  && (s.timeout == Some(h) <==> s.pending[h].Timer?)
                  && (s.controller == Some(h) <==> s.pending[h].Request?))
            && (s.timeout.Some? ==> CurrentHandles(s) == {s.timeout.value})
            && (s.controller.Some? ==> CurrentHandles(s) == {s.controller.value})
  {
    RunKeeps(clock, events);
    OneHandle(Run(Initial(clock), events));
  }

  lemma OneHandle(s: State)
    requires Inv(s)
    ensures |CurrentHandles(s)| <= 1 && (s.active.Some? <==> |CurrentHandles(s)| == 1)
    ensures s.timeout.Some? ==> CurrentHandles(s) == {s.timeout.value}
    ensures s.controller.Some? ==> CurrentHandles(s) == {s.controller.value}
  {
    if s.active.Some? {
      var h := if s.timeout.Some? then s.timeout.value else s.controller.value;
      assert CurrentHandles(s) == {h};
    } else {
      assert CurrentHandles(s) == {};
    }
  }

  /** A continuation of an older generation is always a request, and settling it, however it settles,
    * only takes it out of the event loop. */
  lemma StaleContinuationIsInert(clock: int, events: seq<Event>, handle: nat, answer: Answer, calls: seq<Call>,
                                 throws: bool)
    requires var s := Run(Initial(clock), events);
             handle in s.pending && s.pending[handle].generation != s.generation
    ensures var s := Run(Initial(clock), events);
            && s.pending[handle].Request?
            && s.pending[handle].generation < s.generation
            && Step(s, Settle(handle, answer, calls, throws)) == s.(pending := s.pending - {handle})
  {
    RunKeeps(clock, events);
    StaleSettle(Run(Initial(clock), events), handle, answer, calls, throws);
  }

  /** A terminal callback that throws leaves the hook exactly as one that returns. */
  lemma ThrowingCallbackIsIgnored(clock: int, events: seq<Event>, handle: nat, job: Job, calls: seq<Call>)
    requires IsTerminal(job.status)
    ensures var s := Run(Initial(clock), events);
            Step(s, Settle(handle, Fulfilled(job), calls, true)) ==
            Step(s, Settle(handle, Fulfilled(job), calls, false))
  {
    RunKeeps(clock, events);
    var s := Run(Initial(clock), events);
    if handle in s.pending && s.pending[handle].Request? && s.pending[handle].generation == s.generation {
      var c := s.pending[handle];
      var r := Released(s.(pending := s.pending - {handle}), handle);
      DetachRequest(s, handle);
      TerminalKeeps(r, job);
      CallbackKeeps(TerminalState(r, job, c.generation, c.target), calls, true, handle, c.generation, c.target);
    }
  }

  predicate Separates(output: Output, target: Target) {
    output.Stopped? || (output.Started? && output.target != target)
  }

  /** Two reports of one target always have a stop, or an effective start of another target, between them. */
  lemma ReportedOncePerReset(clock: int, events: seq<Event>, i: nat, j: nat)
    requires var log := Run(Initial(clock), events).log;
             i < j < |log| && log[i].Reported? && log[j] == log[i]
    ensures var log := Run(Initial(clock), events).log;
            exists k :: i < k < j && Separates(log[k], log[i].target)
  {
    RunKeeps(clock, events);
    var log := Run(Initial(clock), events).log;
    assert log[..i + 1][..i] == log[..i];
    SeparatorBefore(log, log[i].target, i + 1, j);
  }

  lemma {:induction false} SeparatorBefore(log: seq<Output>, target: Target, from: nat, j: nat)
    requires WellSeparated(log) && from <= j < |log| && log[j] == Reported(target)
    requires LastReport(log[..from]) == Some(target)
    ensures exists k :: from <= k < j && Separates(log[k], target)
    decreases j - from
  {
    SeparatedPrefix(log, from);
    assert log[..from + 1][..from] == log[..from];
    if log[from].Stopped? || log[from].Started? {
      assert Separates(log[from], target);
    } else {
      SeparatorBefore(log, target, from + 1, j);
    }
  }

  /** No effective `startPolling` issues more than 450 requests. */
  lemma RequestBudget(clock: int, events: seq<Event>, generation: nat)
    ensures Issued(Run(Initial(clock), events).log, generation) <= 450
  {
    RunKeeps(clock, events);
    BudgetHolds(Run(Initial(clock), events).log, generation);
  }

  /** While polling, the error count is the length of the current run of failures and below the limit. */
  lemma ErrorCountIsFailureRun(clock: int, events: seq<Event>)
    ensures var s := Run(Initial(clock), events);
            s.active.Some? ==> s.errorCount == FailureRun(s.log, s.generation) < MAX_CONSECUTIVE_ERRORS
  {
    RunKeeps(clock, events);
  }

  /** A polling error always leaves a target to retry, and retrying it while mounted starts a fresh
    * poll of that target which keeps the last job status. */
  lemma RetryRestartsFailedTarget(clock: int, events: seq<Event>)
    requires Run(Initial(clock), events).pollingError.Some?
    ensures var s := Run(Initial(clock), events);
            var s' := Step(s, Retry);
            && s.retry.Some? && s.active.None? && s.terminal.None?
            && (!s.mounted ==> s' == s)
            && (s.mounted ==>
                  && s'.active == s'.retry == s.retry
                  && s'.jobStatus == s.jobStatus
                  && s'.isPolling && s'.pollingError.None? && s'.errorCount == 0
                  && s'.generation > s.generation
                  && s'.controller == Some(s.nextHandle)
                  && s'.pending == s.pending[s.nextHandle := Request(s'.generation, s.retry.value)]
                  && s'.log == s.log + [Started(s'.generation, s.retry.value), Requested(s'.generation)])
  {
    RunKeeps(clock, events);
  }

  /** Starting another target never shows the previous target's job. */
  lemma StartForgetsOtherJob(clock: int, events: seq<Event>, target: Target)
    ensures var s := Run(Initial(clock), events);
            var s' := Step(s, Start(target));
            && (s' == s || (s'.active == Some(target) && (s.retry != Some(target) ==> s'.jobStatus.None?)))
            && (s' == s <==> !StartTakesEffect(s, target))
  {
    RunKeeps(clock, events);
    StartKeeps(Run(Initial(clock), events), target);
  }

  // ---------------------------------------------------------------- a running state is driven

  /** A mounted hook that reports a running poll has an active target. */
  predicate Driven(s: State) {
    s.mounted && s.isPolling ==> s.active.Some?
  }

  lemma StartDrives(s: State, target: Target)
    requires Inv(s) && (Driven(s) || s.mounted)
    ensures Driven(StartResult(s, target))
  {
    StartKeeps(s, target);
  }

  lemma {:induction false} CallsDrive(s: State, calls: seq<Call>)
    requires Inv(s) && Driven(s)
    ensures Driven(CallsResult(s, calls))
  {
    if calls != [] {
      var before := CallsResult(s, calls[..|calls| - 1]);
      CallsDrive(s, calls[..|calls| - 1]);
      CallsKeep(s, calls[..|calls| - 1]);
      match calls[|calls| - 1]
      case CallStart(target) => StartDrives(before, target);
      case CallStop =>
      case CallRetry => if before.retry.Some? { StartDrives(before, before.retry.value); }
    }
  }

  lemma SettleDrives(s: State, handle: nat, answer: Answer, calls: seq<Call>, throws: bool)
    requires Inv(s) && Driven(s) && handle in s.pending && s.pending[handle].Request?
    ensures Driven(SettleResult(s, handle, answer, calls, throws))
  {
    var c := s.pending[handle];
    var r := Released(s.(pending := s.pending - {handle}), handle);
    if c.generation == s.generation && answer.Fulfilled? && IsTerminal(answer.job.status) {
      DetachRequest(s, handle);
      TerminalKeeps(r, answer.job);
      var t := TerminalState(r, answer.job, c.generation, c.target);
      CallbackKeeps(t, calls, throws, handle, c.generation, c.target);
      CallsDrive(t, calls);
    }
  }

  /** The only event that leaves a running state undriven is a remount of the hook on its own, after an unmount that
    * cancelled a running poll. */
  lemma StepDrivenIff(s: State, event: Event)
    requires Inv(s) && Driven(s)
    ensures Driven(Step(s, event)) <==> !(event.Remount? && !s.mounted && s.isPolling)
  {
    match event
    case Start(target) => StartDrives(s, target); return;
    case Retry => if s.retry.Some? { StartDrives(s, s.retry.value); } return;
    case Settle(handle, answer, calls, throws) =>
      hide SettleResult;
      if handle in s.pending && s.pending[handle].Request? {
        SettleDrives(s, handle, answer, calls, throws);
      }
      return;
    case _ =>
  }

  ghost predicate AlwaysDriven(s: State, events: seq<Event>) {
    forall k :: 0 <= k <= |events| ==> Driven(Run(s, events[..k]))
  }

  /** The hook is remounted on its own while it still reports a poll that its unmount cancelled. */
  predicate RemountsRunning(s: State, event: Event) {
    event.Remount? && !s.mounted && s.isPolling
  }

  ghost predicate NeverRemountedRunning(s: State, events: seq<Event>) {
    forall k :: 0 <= k < |events| ==> !RemountsRunning(Run(s, events[..k]), events[k])
  }

  lemma PrefixesOf(s: State, events: seq<Event>)
    requires events != []
    ensures var init := events[..|events| - 1];
            && (AlwaysDriven(s, events) <==> AlwaysDriven(s, init) && Driven(Run(s, events)))
            && (NeverRemountedRunning(s, events) <==>
                  NeverRemountedRunning(s, init) && !RemountsRunning(Run(s, init), events[|events| - 1]))
  {
    hide Driven, RemountsRunning, Run;
    var init := events[..|events| - 1];
    assert events[..|events|] == events;
    forall k | 0 <= k < |events| ensures init[..k] == events[..k] { }
    assert AlwaysDriven(s, events) ==> Driven(Run(s, events[..|events|]));
    forall k | 0 <= k <= |init| && AlwaysDriven(s, events) ensures Driven(Run(s, init[..k])) {
      assert Driven(Run(s, events[..k]));
    }
    forall k | 0 <= k <= |events| && AlwaysDriven(s, init) && Driven(Run(s, events))
      ensures Driven(Run(s, events[..k]))
    {
      if k < |events| {
        assert Driven(Run(s, init[..k]));
      }
    }
  }

  /** Over whole runs of the hook on its own: a mounted hook always has an active target while it reports a running
    * poll, exactly when no event of the run remounts it running. */
  lemma {:induction false} DrivenIff(clock: int, events: seq<Event>)
    ensures AlwaysDriven(Initial(clock), events) <==> NeverRemountedRunning(Initial(clock), events)
  {
    var s := Initial(clock);
    if events != [] {
      var init := events[..|events| - 1];
      DrivenIff(clock, init);
      PrefixesOf(s, events);
      if AlwaysDriven(s, init) {
        assert init[..|init|] == init;
        RunKeeps(clock, init);
        assert Driven(Run(s, init));
        hide Inv, Driven;
        StepDrivenIff(Run(s, init), events[|events| - 1]);
      }
    }
  }

  /** Such a run of the hook on its own exists. */
  lemma RemountShowsRunningWithoutPoll(target: Target)
    ensures var s := Run(Initial(0), [Start(target), Unmount, Remount]);
            s.mounted && s.isPolling && s.active.None? && CurrentHandles(s) == {}
  {
    var e := [Start(target), Unmount, Remount];
    assert e[..2] == [Start(target), Unmount] && e[..2][..1] == [Start(target)];
    RunKeeps(0, e[..1]);
    assert Run(Initial(0), e[..1]) == StartResult(Initial(0), target);
    assert Run(Initial(0), e[..2]) == UnmountResult(StartResult(Initial(0), target));
  }
}
