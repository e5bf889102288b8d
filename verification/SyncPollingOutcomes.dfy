/** What each event does to a hook that some run has reached, told by the answer, the clock and the refs alone. */
module SyncPollingOutcomes {
  import opened Options
  import opened SyncPolling
  import opened SyncPollingSafety

  /** The request of the session that polls now. */
  predicate IsLive(s: State, handle: nat) {
    handle in s.pending && s.pending[handle].Request? && s.pending[handle].generation == s.generation
  }

  /** The session is over, and was reported with this job. */
  predicate Finishes(s: State, t: State, handle: nat, job: Job) {
    && s.active.Some? && CurrentHandles(t) == {}
    && t == s.(generation := s.generation + 1, active := None, retry := None, terminal := s.active, errorCount := 0,
               timeout := None, controller := None, jobStatus := Some(job), isPolling := false, pollingError := None,
               pending := s.pending - {handle},
               log := s.log + [Answered(s.generation), Reported(s.active.value)])
  }

  /** The session goes on with one timer, four seconds ahead. */
  predicate Waits(s: State, t: State, handle: nat, job: Job) {
    && s.active.Some? && CurrentHandles(t) == {s.nextHandle}
    && t == s.(errorCount := 0, timeout := Some(s.nextHandle), controller := None, jobStatus := Some(job),
               nextHandle := s.nextHandle + 1, log := s.log + [Answered(s.generation)],
               pending := (s.pending - {handle})[s.nextHandle := Timer(s.generation, s.active.value, s.clock + 4000)])
  }

  /** The session is over with an error; its target is kept for a retry. */
  predicate Fails(s: State, t: State, handle: nat, error: PollingError) {
    && s.active.Some? && s.retry == s.active && CurrentHandles(t) == {}
    && t == s.(generation := s.generation + 1, active := None, timeout := None, controller := None, isPolling := false,
               pollingError := Some(error), pending := s.pending - {handle})
  }

  // ---------------------------------------------------------------- answers

  /** A live request that is answered with a job ends the session and reports it, or polls on, or fails, by the status
    * of the job alone. */
  lemma AnsweredWithJob(s: State, handle: nat, job: Job, throws: bool)
    requires Reachable(s) && IsLive(s, handle)
    ensures var event := Settle(handle, Fulfilled(job), [], throws);
            match job.status
            case Success | PartialSuccess | Failed =>
              Finishes(s, Step(s, event), handle, job) && ReportOf(s, event) == Some(job)
            case Pending | Syncing =>
              Waits(s, Step(s, event), handle, job) && ReportOf(s, event) == None
            case Unknown(_) =>
              Fails(s, Step(s, event), handle, InvalidStatus) && ReportOf(s, event) == None
  {
    hide Finishes, Waits, Fails, Step;
    match job.status
    case Success | PartialSuccess | Failed => FinishedJob(s, handle, job, throws); return;
    case Pending | Syncing => UnfinishedJob(s, handle, job, throws); return;
    case Unknown(_) => UnknownJob(s, handle, job, throws); return;
  }

  lemma FinishedJob(s: State, handle: nat, job: Job, throws: bool)
    requires Reachable(s) && IsLive(s, handle)
    requires job.status.Success? || job.status.PartialSuccess? || job.status.Failed?
    ensures Finishes(s, Step(s, Settle(handle, Fulfilled(job), [], throws)), handle, job)
  {
    ReachableInv(s);
    DetachRequest(s, handle);
    var r := Released(s.(pending := s.pending - {handle}), handle);
    SilentReport(r, job, throws, handle);
    assert CurrentHandles(TerminalState(r, job, s.generation, s.active.value)) == {};
    hide Inv, CatchResult, Reachable, CurrentHandles, FulfilledResult, Detached;
  }

  lemma UnfinishedJob(s: State, handle: nat, job: Job, throws: bool)
    requires Reachable(s) && IsLive(s, handle) && (job.status.Pending? || job.status.Syncing?)
    ensures Waits(s, Step(s, Settle(handle, Fulfilled(job), [], throws)), handle, job)
  {
    ReachableInv(s);
    DetachRequest(s, handle);
    hide Inv, Reachable;
  }

  lemma UnknownJob(s: State, handle: nat, job: Job, throws: bool)
    requires Reachable(s) && IsLive(s, handle) && job.status.Unknown?
    ensures Fails(s, Step(s, Settle(handle, Fulfilled(job), [], throws)), handle, InvalidStatus)
  {
    ReachableInv(s);
    DetachRequest(s, handle);
    hide Reachable;
  }

  /** A live request that is rejected is one more failure; the fifth in a row fails the session, and before it the next
    * poll comes four seconds later. */
  lemma Rejects(s: State, handle: nat, calls: seq<Call>, throws: bool)
    requires Reachable(s) && IsLive(s, handle)
    ensures var t := Step(s, Settle(handle, Rejected, calls, throws));
            var e := s.(errorCount := s.errorCount + 1, log := s.log + [Errored(s.generation)]);
            if s.errorCount + 1 == 5 then Fails(e, t, handle, RequestFailed)
            else
              && s.errorCount + 1 < 5 && s.active.Some? && CurrentHandles(t) == {s.nextHandle}
              && t == e.(timeout := Some(s.nextHandle), controller := None, nextHandle := s.nextHandle + 1,
                         pending := (s.pending - {handle})
                         [s.nextHandle := Timer(s.generation, s.active.value, s.clock + 4000)])
  {
    ReachableInv(s);
    DetachRequest(s, handle);
    hide Reachable;
  }

  /** What a terminal callback calls runs after all that, as the events of these names would; nothing else that an
    * answer does depends on it. */
  lemma CallbackRunsLast(s: State, handle: nat, job: Job, calls: seq<Call>, throws: bool)
    requires Reachable(s) && IsLive(s, handle)
    ensures var t := Step(s, Settle(handle, Fulfilled(job), [], false));
            Step(s, Settle(handle, Fulfilled(job), calls, throws)) ==
            match job.status
            case Success | PartialSuccess | Failed => Run(t, EventsOf(calls))
            case _ => t
  {
    if job.status.Success? || job.status.PartialSuccess? || job.status.Failed? {
      FinishedCalls(s, handle, job, calls, throws);
      CallsAreEvents(Step(s, Settle(handle, Fulfilled(job), [], false)), calls);
      hide Step, Reachable, EventsOf, CallsResult, Run;
    } else {
      hide Reachable, CatchResult, EventsOf, CallsResult, Run;
    }
  }

  lemma FinishedCalls(s: State, handle: nat, job: Job, calls: seq<Call>, throws: bool)
    requires Reachable(s) && IsLive(s, handle)
    requires job.status.Success? || job.status.PartialSuccess? || job.status.Failed?
    ensures Step(s, Settle(handle, Fulfilled(job), calls, throws)) ==
            CallsResult(Step(s, Settle(handle, Fulfilled(job), [], false)), calls)
  {
    ReachableInv(s);
    DetachRequest(s, handle);
    var r := Released(s.(pending := s.pending - {handle}), handle);
    var t := TerminalState(r, job, s.generation, s.active.value);
    TerminalKeeps(r, job);
    CallbackKeeps(t, calls, throws, handle, s.generation, s.active.value);
    assert CallsResult(t, []) == t;
    hide Inv, Reachable, Detached, CatchResult, TerminalState, CallsResult;
  }

  function EventOf(call: Call): Event {
    match call
    case CallStart(target) => Start(target)
    case CallStop => Stop
    case CallRetry => Retry
  }

  function EventsOf(calls: seq<Call>): seq<Event> {
    seq(|calls|, i requires 0 <= i < |calls| => EventOf(calls[i]))
  }

  lemma {:induction false} CallsAreEvents(s: State, calls: seq<Call>)
    ensures CallsResult(s, calls) == Run(s, EventsOf(calls))
  {
    if calls != [] {
      CallsAreEvents(s, calls[..|calls| - 1]);
      assert EventsOf(calls)[..|calls| - 1] == EventsOf(calls[..|calls| - 1]);
    }
  }

  // ---------------------------------------------------------------- timers

  /** A timer that is due asks again, or fails the session once half an hour has passed since its start; no other timer
    * does anything. */
  lemma TimerFires(s: State, handle: nat)
    requires Reachable(s) && handle in s.pending && s.pending[handle].Timer?
    ensures var t := Step(s, FireTimer(handle));
            if s.pending[handle].due > s.clock then t == s
            else if s.clock - s.startedAt >= 1800000 then Fails(s, t, handle, TimedOut)
            else
              && s.active.Some? && CurrentHandles(t) == {s.nextHandle}
              && t == s.(timeout := None, controller := Some(s.nextHandle), nextHandle := s.nextHandle + 1,
                         pending := (s.pending - {handle})[s.nextHandle := Request(s.generation, s.active.value)],
                         log := s.log + [Requested(s.generation)])
  {
    ReachableInv(s);
    hide Reachable;
  }

  // ---------------------------------------------------------------- starts and stops

  /** `startPolling` of a target that is neither polled nor done, on a mounted hook, replaces the session by one that
    * has just sent its first request; any other start does nothing. */
  lemma Starts(s: State, target: Target)
    requires Reachable(s)
    ensures var t := Step(s, Start(target));
            if s.mounted && s.active != Some(target) && s.terminal != Some(target) then
              && CurrentHandles(t) == {s.nextHandle}
              && t == s.(generation := s.generation + 1, active := Some(target), retry := Some(target),
                         terminal := None, errorCount := 0, startedAt := s.clock, timeout := None,
                         controller := Some(s.nextHandle), isPolling := true, pollingError := None,
                         jobStatus := if s.retry == Some(target) then s.jobStatus else None,
                         nextHandle := s.nextHandle + 1,
                         pending := Untimed(s)[s.nextHandle := Request(s.generation + 1, target)],
                         log := s.log + [Started(s.generation + 1, target), Requested(s.generation + 1)])
            else t == s
  {
    ReachableInv(s);
    if StartTakesEffect(s, target) {
      CancelledUntimed(s);
    }
    hide Reachable, Inv;
  }

  lemma CancelledUntimed(s: State)
    requires Inv(s)
    ensures Cancelled(s).pending == Untimed(s)
    ensures forall h :: h in s.pending ==> s.pending[h].generation <= s.generation && h < s.nextHandle
  {
  }

  /** Retry is a start of the retry target. */
  lemma Retries(s: State)
    ensures Step(s, Retry) == if s.retry.Some? then Step(s, Start(s.retry.value)) else s
  {
  }

  /** A mount and the passing of time change nothing else. */
  lemma MountsAndWaits(s: State, ms: nat)
    ensures Step(s, Remount) == s.(mounted := true) && Step(s, Advance(ms)) == s.(clock := s.clock + ms)
  {
  }

  /** What the event loop still holds once the named timer is cleared: the requests. */
  function Untimed(s: State): map<nat, Continuation> {
    map h | h in s.pending && s.pending[h].Request? :: s.pending[h]
  }

  /** A stop forgets everything that is shown or polled; an unmount ends the session and shows what was shown. */
  lemma Stops(s: State)
    requires Reachable(s)
    ensures var t := Step(s, Stop);
            && CurrentHandles(t) == {}
            && t == s.(generation := s.generation + 1, active := None, retry := None, terminal := None, errorCount := 0,
                       timeout := None, controller := None, jobStatus := None, isPolling := false, pollingError := None,
                       pending := Untimed(s), log := s.log + [Stopped])
    ensures var t := Step(s, Unmount);
            && CurrentHandles(t) == {}
            && t == s.(generation := s.generation + 1, active := None, timeout := None, controller := None,
                       mounted := false, pending := Untimed(s))
  {
    ReachableInv(s);
    CancelledUntimed(s);
    hide Reachable, Inv;
  }

  // ---------------------------------------------------------------- reports

  /** The targets reported in a log. */
  function Reports(log: seq<Output>): seq<Target> {
    if log == [] then []
    else
      var last := log[|log| - 1];
      Reports(log[..|log| - 1]) + if last.Reported? then [last.target] else []
  }

  lemma OneMore(log: seq<Output>, next: Output)
    ensures Reports(log + [next]) == Reports(log) + if next.Reported? then [next.target] else []
  {
    assert (log + [next])[..|log|] == log;
  }

  lemma StartReports(s: State, target: Target)
    ensures Reports(StartResult(s, target).log) == Reports(s.log)
  {
    OneMore(s.log, Started(s.generation + 1, target));
    OneMore(s.log + [Started(s.generation + 1, target)], Requested(s.generation + 1));
    hide Reports;
  }

  lemma {:induction false} CallsReport(s: State, calls: seq<Call>)
    ensures Reports(CallsResult(s, calls).log) == Reports(s.log)
  {
    if calls != [] {
      var before := CallsResult(s, calls[..|calls| - 1]);
      CallsReport(s, calls[..|calls| - 1]);
      OneMore(before.log, Stopped);
      StartReports(before, match calls[|calls| - 1]
                           case CallStart(target) => target
                           case _ => if before.retry.Some? then before.retry.value else Target("", ""));
      hide Reports, StartResult;
    }
  }

  /** The terminal callback is called just when the log gets one more report, which is of the target polled until
    * then. */
  lemma CalledWhenReported(s: State, event: Event)
    requires Reachable(s)
    ensures ReportOf(s, event).Some? ==> s.active.Some?
    ensures Reports(Step(s, event).log) ==
            Reports(s.log) + if ReportOf(s, event).Some? then [s.active.value] else []
  {
    match event
    case Settle(handle, answer, calls, throws) =>
      if handle in s.pending && s.pending[handle].Request? {
        SettleReports(s, event);
      }
      return;
    case Start(target) => StartReports(s, target); hide Reports, StartResult; return;
    case Retry => if s.retry.Some? { StartReports(s, s.retry.value); } hide Reports, StartResult; return;
    case Stop => OneMore(s.log, Stopped); hide Reports; return;
    case FireTimer(handle) =>
      if handle in s.pending {
        OneMore(s.log, Requested(s.pending[handle].generation));
      }
      hide Reports;
      return;
    case _ => return;
  }

  lemma SettleReports(s: State, event: Event)
    requires Reachable(s) && event.Settle? && event.handle in s.pending && s.pending[event.handle].Request?
    ensures ReportOf(s, event).Some? ==> s.active.Some?
    ensures Reports(Step(s, event).log) ==
            Reports(s.log) + if ReportOf(s, event).Some? then [s.active.value] else []
  {
    if !IsLive(s, event.handle) {
      ReachableInv(s);
      StaleSettle(s, event.handle, event.answer, event.calls, event.throws);
      hide Reports, Inv, Reachable;
    } else if event.answer.Rejected? {
      OneMore(s.log, Errored(s.generation));
      Rejects(s, event.handle, event.calls, event.throws);
      hide Step, Reports, CurrentHandles, Reachable;
    } else {
      AnswerReports(s, event.handle, event.answer.job);
      CallbackReports(s, event.handle, event.answer.job, event.calls, event.throws);
      hide Step, Reports, Reachable;
    }
  }

  lemma AnswerReports(s: State, handle: nat, job: Job)
    requires Reachable(s) && IsLive(s, handle)
    ensures var event := Settle(handle, Fulfilled(job), [], false);
            && (ReportOf(s, event).Some? ==> s.active.Some?)
            && Reports(Step(s, event).log) ==
               Reports(s.log) + if ReportOf(s, event).Some? then [s.active.value] else []
  {
    AnsweredWithJob(s, handle, job, false);
    OneMore(s.log, Answered(s.generation));
    if s.active.Some? {
      OneMore(s.log + [Answered(s.generation)], Reported(s.active.value));
      assert s.log + [Answered(s.generation), Reported(s.active.value)] ==
          s.log + [Answered(s.generation)] + [Reported(s.active.value)];
    }
    hide Step, Reports, ReportOf, CurrentHandles, Reachable;
  }

  lemma CallbackReports(s: State, handle: nat, job: Job, calls: seq<Call>, throws: bool)
    requires Reachable(s) && IsLive(s, handle)
    ensures Reports(Step(s, Settle(handle, Fulfilled(job), calls, throws)).log) ==
            Reports(Step(s, Settle(handle, Fulfilled(job), [], false)).log)
  {
    CallbackRunsLast(s, handle, job, calls, throws);
    CallsAreEvents(Step(s, Settle(handle, Fulfilled(job), [], false)), calls);
    CallsReport(Step(s, Settle(handle, Fulfilled(job), [], false)), calls);
    hide *;
  }
}
