/** The polling hook of the frontend: refs, timers, in-flight requests and generations.
  *
  * `State` holds every ref and React state of the hook, the bag of continuations the JavaScript
  * event loop still owes it (`pending`), the clock, and a log of what the hook did to the outside
  * world.  Each handler between two awaits is one function on `State`. */
module SyncPolling {
  import opened Options

  const POLL_INTERVAL_MS := 4000
  const MAX_CONSECUTIVE_ERRORS := 5
  const MAX_POLL_DURATION_MS := 30 * 60 * 1000
  const MAX_REQUESTS := 450

  datatype Target = Target(federationId: string, jobId: string)

  datatype PollingError = RequestFailed | TimedOut | InvalidStatus

  datatype JobState = Pending | Syncing | Success | PartialSuccess | Failed | Unknown(text: string)

  datatype Job = Job(federationId: string, status: JobState, phase: Option<string>, error: string)

  /** A callback the event loop holds: both kinds close over the generation and the target of the
    * `startPolling` call that created them. */
  datatype Continuation =
    | Timer(generation: nat, target: Target, due: int)
    | Request(generation: nat, target: Target)

  /** What a poll request settles to. */
  datatype Answer = Fulfilled(job: Job) | Rejected

  /** What the terminal callback may do to the hook before it returns or throws. */
  datatype Call = CallStart(target: Target) | CallStop | CallRetry

  /** Observable effects, oldest first. */
  datatype Output =
    | Started(generation: nat, target: Target)
    | Requested(generation: nat)
    | Answered(generation: nat)
    | Errored(generation: nat)
    | Reported(target: Target)
    | Stopped

  datatype State = State(
    generation: nat,
    active: Option<Target>,
    retry: Option<Target>,
    terminal: Option<Target>,
    errorCount: nat,
    startedAt: int,
    timeout: Option<nat>,
    controller: Option<nat>,
    mounted: bool,
    jobStatus: Option<Job>,
    isPolling: bool,
    pollingError: Option<PollingError>,
    pending: map<nat, Continuation>,
    nextHandle: nat,
    clock: int,
    log: seq<Output>)

  function Initial(clock: int): State {
    State(0, None, None, None, 0, 0, None, None, true, None, false, None, map[], 0, clock, [])
  }

  predicate IsTerminal(status: JobState) {
    status.Success? || status.PartialSuccess? || status.Failed?
  }

  // ---------------------------------------------------------------- handlers as functions

  /** Aborting a request does not remove its continuation: the promise still rejects later. */
  function Cancelled(s: State): State {
    s.(generation := s.generation + 1, active := None, timeout := None, controller := None,
       pending := if s.timeout.Some? then s.pending - {s.timeout.value} else s.pending)
  }

  function StopResult(s: State): State {
    var c := Cancelled(s);
    c.(retry := None, terminal := None, errorCount := 0, jobStatus := None, isPolling := false,
       pollingError := None, log := c.log + [Stopped])
  }

  function FailResult(s: State, error: PollingError): State {
    Cancelled(s).(isPolling := false, pollingError := Some(error))
  }

  function PollResult(s: State, generation: nat, target: Target): State {
    if generation != s.generation then s
    else if s.clock - s.startedAt >= MAX_POLL_DURATION_MS then FailResult(s, TimedOut)
    else s.(controller := Some(s.nextHandle), nextHandle := s.nextHandle + 1,
            pending := s.pending[s.nextHandle := Request(generation, target)],
            log := s.log + [Requested(generation)])
  }

  /** `startPolling` changes anything only when mounted and the target is neither polled nor done. */
  predicate StartTakesEffect(s: State, target: Target) {
    s.mounted && s.active != Some(target) && s.terminal != Some(target)
  }

  /** Everything `startPolling` writes before the first `poll()`. */
  function Armed(s: State, target: Target): State {
    var c := Cancelled(s);
    c.(active := Some(target), retry := Some(target), terminal := None, errorCount := 0,
       startedAt := c.clock, jobStatus := if s.retry == Some(target) then c.jobStatus else None,
       isPolling := true, pollingError := None, log := c.log + [Started(c.generation, target)])
  }

  function StartResult(s: State, target: Target): State {
    if StartTakesEffect(s, target)
    then PollResult(Armed(s, target), Armed(s, target).generation, target)
    else s
  }

  function RetryResult(s: State): State {
    if s.retry.Some? then StartResult(s, s.retry.value) else s
  }

  function Scheduled(s: State, generation: nat, target: Target): State {
    s.(timeout := Some(s.nextHandle), nextHandle := s.nextHandle + 1,
       pending := s.pending[s.nextHandle := Timer(generation, target, s.clock + POLL_INTERVAL_MS)])
  }

  function TimerResult(s: State, handle: nat): State
    requires handle in s.pending
  {
    var c := s.pending[handle];
    PollResult(s.(timeout := None, pending := s.pending - {handle}), c.generation, c.target)
  }

  function Released(s: State, handle: nat): State {
    if s.controller == Some(handle) then s.(controller := None) else s
  }

  /** The catch block of `poll`. */
  function CatchResult(s: State, handle: nat, generation: nat, target: Target): State {
    var r := Released(s, handle);
    if generation != r.generation then r
    else
      var e := r.(errorCount := r.errorCount + 1, log := r.log + [Errored(generation)]);
      if e.errorCount >= MAX_CONSECUTIVE_ERRORS then FailResult(e, RequestFailed)
      else Scheduled(e, generation, target)
  }

  function CallResult(s: State, call: Call): State {
    match call
    case CallStart(target) => StartResult(s, target)
    case CallStop => StopResult(s)
    case CallRetry => RetryResult(s)
  }

  function CallsResult(s: State, calls: seq<Call>): State {
    if calls == [] then s
    else CallResult(CallsResult(s, calls[..|calls| - 1]), calls[|calls| - 1])
  }

  /** The state in which the terminal callback is entered. */
  function TerminalState(s: State, job: Job, generation: nat, target: Target): State {
    var a := s.(errorCount := 0, jobStatus := Some(job), log := s.log + [Answered(generation)]);
    var c := Cancelled(a);
    c.(retry := None, terminal := Some(target), isPolling := false, pollingError := None,
       log := c.log + [Reported(target)])
  }

  /** The try block of `poll` after its await, for an answer of the live session. */
  function FulfilledResult(s: State, handle: nat, generation: nat, target: Target, job: Job, calls: seq<Call>,
                           throws: bool): State
  {
    if job.status.Unknown? then FailResult(s, InvalidStatus)
    else if IsTerminal(job.status) then
      var done := CallsResult(TerminalState(s, job, generation, target), calls);
      if throws then CatchResult(done, handle, generation, target) else done
    else
      var a := s.(errorCount := 0, jobStatus := Some(job), log := s.log + [Answered(generation)]);
      Scheduled(a, generation, target)
  }

  /** A poll request settles; `calls` and `throws` say what a terminal callback does, if one runs. */
  function SettleResult(s: State, handle: nat, answer: Answer, calls: seq<Call>, throws: bool): State
    requires handle in s.pending
  {
    var c := s.pending[handle];
    var popped := s.(pending := s.pending - {handle});
    match answer
    case Rejected => CatchResult(popped, handle, c.generation, c.target)
    case Fulfilled(job) =>
      var r := Released(popped, handle);
      if c.generation != r.generation then r
      else FulfilledResult(r, handle, c.generation, c.target, job, calls, throws)
  }

  /** The job with which an event makes the hook call its terminal callback, if it does. */
  function ReportOf(s: State, event: Event): Option<Job> {
    if event.Settle? && event.handle in s.pending && s.pending[event.handle].Request? &&
       s.pending[event.handle].generation == s.generation && event.answer.Fulfilled? &&
           IsTerminal(event.answer.job.status)
    then Some(event.answer.job)
    else None
  }

  function UnmountResult(s: State): State {
    Cancelled(s.(mounted := false))
  }

  // ---------------------------------------------------------------- runs

  datatype Event =
    | Start(target: Target)
    | Stop
    | Retry
    | FireTimer(handle: nat)
    | Settle(handle: nat, answer: Answer, calls: seq<Call>, throws: bool)
    | Unmount
    | Remount
    | Advance(ms: nat)

  /** One event; an event the event loop cannot deliver in `s` changes nothing. */
  function Step(s: State, event: Event): State {
    match event
    case Start(target) => StartResult(s, target)
    case Stop => StopResult(s)
    case Retry => RetryResult(s)
    case FireTimer(handle) =>
      if handle in s.pending && s.pending[handle].Timer? && s.pending[handle].due <= s.clock
      then TimerResult(s, handle) else s
    case Settle(handle, answer, calls, throws) =>
      if handle in s.pending && s.pending[handle].Request?
      then SettleResult(s, handle, answer, calls, throws) else s
    case Unmount => UnmountResult(s)
    case Remount => s.(mounted := true)
    case Advance(ms) => s.(clock := s.clock + ms)
  }

  function Run(s: State, events: seq<Event>): State {
    if events == [] then s
    else Step(Run(s, events[..|events| - 1]), events[|events| - 1])
  }

  // ---------------------------------------------------------------- readings of the log

  /** Requests issued on behalf of one generation, that is of one effective `startPolling`. */
  function Issued(log: seq<Output>, generation: nat): nat {
    if log == [] then 0
    else Issued(log[..|log| - 1], generation) + if log[|log| - 1] == Requested(generation) then 1 else 0
  }

  /** Length of the run of consecutive request failures that ends the session `generation`. */
  function FailureRun(log: seq<Output>, generation: nat): nat {
    if log == [] then 0
    else
      var last := log[|log| - 1];
      if last == Errored(generation) then FailureRun(log[..|log| - 1], generation) + 1
      else if last == Answered(generation) then 0
      else FailureRun(log[..|log| - 1], generation)
  }

  /** The target reported since the last stop or effective start, if any. */
  function LastReport(log: seq<Output>): Option<Target> {
    if log == [] then None
    else
      match log[|log| - 1]
      case Reported(target) => Some(target)
      case Stopped => None
      case Started(_, _) => None
      case _ => LastReport(log[..|log| - 1])
  }

  /** A report needs a clean slate, and a start never names the target just reported. */
  predicate Allowed(log: seq<Output>, next: Output) {
    match next
    case Reported(_) => LastReport(log) == None
    case Started(_, target) => LastReport(log) != Some(target)
    case _ => true
  }

  predicate WellSeparated(log: seq<Output>) {
    log == [] || (WellSeparated(log[..|log| - 1]) && Allowed(log[..|log| - 1], log[|log| - 1]))
  }

  /** No generation has issued more requests than the budget allows. */
  predicate WithinBudget(log: seq<Output>) {
    log == [] ||
    (WithinBudget(log[..|log| - 1]) &&
     (log[|log| - 1].Requested? ==> Issued(log[..|log| - 1], log[|log| - 1].generation) < MAX_REQUESTS))
  }

  /** The log speaks of no generation above `generation`. */
  predicate UpTo(log: seq<Output>, generation: nat) {
    forall o :: o in log && (o.Started? || o.Requested? || o.Answered? || o.Errored?) ==> o.generation <= generation
  }

  function CurrentHandles(s: State): set<nat> {
    set h | h in s.pending && s.pending[h].generation == s.generation
  }
}
