/** The response interceptor of the HTTP service: one shared token refresh, one retry a request.
  *
  * `calls` are the logical requests of the application, `refreshes` the refresh exchanges ever
  * started (each with its logout tail), `current` the module-level refresh promise.  A step is one
  * callback of the event loop. */
module TokenRefresh {
  import opened Options

  /** The flags of a request configuration the interceptor looks at. */
  datatype Config = Config(isRetry: bool, isRefresh: bool, skipAuthRecovery: bool)

  /** The configuration of the refresh and logout posts. */
  const RECOVERY_CONFIG := Config(false, true, false)

  datatype Reply = Succeeded | Cancelled | Unauthorized | OtherError

  /** `RefreshLost(trigger)` rejects with the response data of the call that triggered the refresh. */
  datatype Outcome = Delivered | CancelNotice | ErrorReply | RefreshLost(trigger: nat)

  datatype Phase = AtBarrier | OnWire | Waiting(refresh: nat) | Done(outcome: Outcome)

  datatype Call = Call(config: Config, phase: Phase, sends: nat, recovered: bool)

  /** `Closing` is the gap between the exchange being decided and its `finally` callback; `Stuck` is a post
    * whose own 401 made it wait for the promise it is part of. */
  datatype RefreshPhase = Posting | LoggingOut | Closing(ok: bool) | Settled(ok: bool) | Stuck

  /** `config` is the configuration of its posts. */
  datatype Refresh = Refresh(phase: RefreshPhase, trigger: nat, config: Config)

  /** `logouts` counts the logout posts, `redirects` the navigations to the login page. */
  datatype State = State(calls: seq<Call>, refreshes: seq<Refresh>, current: Option<nat>, logouts: nat, redirects: nat)

  const INITIAL := State([], [], None, 0, 0)

  /** Whether the interceptor answers this reply by refreshing the token. */
  predicate Recovers(config: Config, reply: Reply) {
    reply.Unauthorized? && !config.isRetry && !config.isRefresh && !config.skipAuthRecovery
  }

  datatype Event =
    | Issue(config: Config)
    | PassBarrier(call: nat)
    | BarrierRejects(call: nat)
    | Respond(call: nat, reply: Reply)
    | RefreshReply(reply: Reply, onLoginPage: bool)
    | LogoutReply(reply: Reply)
    | Finally
    | Resume(call: nat)

  /** The events the event loop can deliver in `s`. */
  predicate Enabled(s: State, event: Event) {
    match event
    case Issue(_) => true
    case PassBarrier(i) => i < |s.calls| && s.calls[i].phase.AtBarrier?
    case BarrierRejects(i) => i < |s.calls| && s.calls[i].phase.AtBarrier?
    case Respond(i, _) => i < |s.calls| && s.calls[i].phase.OnWire?
    case RefreshReply(_, _) => CurrentIs(s, Posting)
    case LogoutReply(_) => CurrentIs(s, LoggingOut)
    case Finally => CurrentIs(s, Closing(true)) || CurrentIs(s, Closing(false))
    case Resume(i) =>
      && i < |s.calls| && s.calls[i].phase.Waiting? && s.calls[i].phase.refresh < |s.refreshes|
      && s.refreshes[s.calls[i].phase.refresh].phase.Settled?
  }

  predicate CurrentIs(s: State, phase: RefreshPhase) {
    s.current.Some? && s.current.value < |s.refreshes| && s.refreshes[s.current.value].phase == phase
  }

  function SetPhase(s: State, i: nat, phase: Phase): State
    requires i < |s.calls|
  {
    s.(calls := s.calls[i := s.calls[i].(phase := phase)])
  }

  function SetCurrent(s: State, phase: RefreshPhase): State
    requires s.current.Some? && s.current.value < |s.refreshes|
  {
    s.(refreshes := s.refreshes[s.current.value := s.refreshes[s.current.value].(phase := phase)])
  }

  /** The error handler of the response interceptor. */
  function Intercepted(s: State, i: nat, reply: Reply): State
    requires i < |s.calls|
  {
    if Recovers(s.calls[i].config, reply) then
      var primed := if s.current.None?
                    then s.(refreshes := s.refreshes + [Refresh(Posting, i, RECOVERY_CONFIG)],
                        current := Some(|s.refreshes|))
                    else s;
      var call := s.calls[i];
      primed.(calls := s.calls[i := call.(phase := Waiting(primed.current.value), recovered := true)])
    else
      SetPhase(s, i, Done(match reply
                          case Succeeded => Delivered
                          case Cancelled => CancelNotice
                          case _ => ErrorReply))
  }

  /** The refresh post was answered, through the same interceptor: any failure, a 401 included, logs out
    * unless on the login page. */
  function RefreshAnswered(s: State, reply: Reply, onLoginPage: bool): State
    requires CurrentIs(s, Posting)
  {
    if Recovers(s.refreshes[s.current.value].config, reply) then SetCurrent(s, Stuck)
    else if reply.Succeeded? || reply.Cancelled? then SetCurrent(s, Closing(true))
    else if onLoginPage then SetCurrent(s, Closing(false))
    else SetCurrent(s, LoggingOut).(logouts := s.logouts + 1)
  }

  /** The logout post was answered, through the same interceptor: its failure is ignored, and the login
    * page is opened. */
  function LogoutAnswered(s: State, reply: Reply): State
    requires CurrentIs(s, LoggingOut)
  {
    if Recovers(s.refreshes[s.current.value].config, reply) then SetCurrent(s, Stuck)
    else SetCurrent(s, Closing(false)).(redirects := s.redirects + 1)
  }

  function FinallyRun(s: State): State
    requires s.current.Some? && s.current.value < |s.refreshes| && s.refreshes[s.current.value].phase.Closing?
  {
    SetCurrent(s, Settled(s.refreshes[s.current.value].phase.ok)).(current := None)
  }

  /** A waiter's continuation: resend once with the retry flag, or reject. */
  function Resumed(s: State, i: nat): State
    requires Enabled(s, Resume(i))
  {
    var call := s.calls[i];
    var refresh := s.refreshes[call.phase.refresh];
    if refresh.phase.ok
    then s.(calls := s.calls[i := call.(config := call.config.(isRetry := true), phase := AtBarrier)])
    else SetPhase(s, i, Done(RefreshLost(refresh.trigger)))
  }

  function Step(s: State, event: Event): State
    requires Enabled(s, event)
  {
    match event
    case Issue(config) => s.(calls := s.calls + [Call(config, AtBarrier, 0, false)])
    case PassBarrier(i) => s.(calls := s.calls[i := s.calls[i].(phase := OnWire, sends := s.calls[i].sends + 1)])
    case BarrierRejects(i) => SetPhase(s, i, Done(ErrorReply))
    case Respond(i, reply) => Intercepted(s, i, reply)
    case RefreshReply(reply, onLoginPage) => RefreshAnswered(s, reply, onLoginPage)
    case LogoutReply(reply) => LogoutAnswered(s, reply)
    case Finally => FinallyRun(s)
    case Resume(i) => Resumed(s, i)
  }

  predicate ValidRun(events: seq<Event>)
    decreases events, 0
  {
    events == [] ||
    (ValidRun(events[..|events| - 1]) && Enabled(Run(events[..|events| - 1]), events[|events| - 1]))
  }

  function Run(events: seq<Event>): State
    requires ValidRun(events)
    decreases events, 1
  {
    if events == [] then INITIAL
    else Step(Run(events[..|events| - 1]), events[|events| - 1])
  }
}
