/** The provider hook composed with the polling hook.
  *
  * A render stores the new properties at once (`providerId` is the ref assigned during render) and
  * leaves the two effects due; they run later, before the next render.  Handlers that settle between
  * a render and its effects therefore see the new provider with the old generations. */
module ProviderSync {
  import opened Options
  import P = SyncPolling
  import V = SyncView

  datatype Props = Props(
    providerId: Option<string>,
    serverJobId: Option<string>,
    serverStatus: Option<V.ServerStatus>,
    syncMessage: string,
    isGithub: bool,
    canEdit: bool)

  datatype StartRequest = StartRequest(generation: nat, providerId: string)

  datatype StartAnswer = JobStarted(jobId: string) | NeedsAuthorization | StartFailed

  /** `notices` are the terminal jobs announced, `settled` counts the calls of `onSettled`. */
  datatype State = State(
    props: Props,
    requestPending: bool,
    requestGeneration: nat,
    isStarting: bool,
    inFlight: map<nat, StartRequest>,
    nextRequest: nat,
    requestEffectDue: bool,
    pollEffectDue: bool,
    polling: P.State,
    notices: seq<P.Job>,
    settled: nat)

  function Initial(props: Props, clock: int): State {
    State(props, false, 0, false, map[], 0, true, true, P.Initial(clock), [], 0)
  }

  /** JavaScript truthiness of an optional string. */
  predicate Truthy(text: Option<string>) {
    text.Some? && text.value != ""
  }

  // ---------------------------------------------------------------- handlers as functions

  /** The effect that invalidates start requests of a previous provider. */
  function RequestEffect(s: State): State {
    s.(requestGeneration := s.requestGeneration + 1, requestPending := false, isStarting := false)
  }

  function ResumesServerJob(props: Props): bool {
    Truthy(props.providerId) && Truthy(props.serverJobId) && V.ServerInProgress(props.serverStatus)
  }

  /** The effect that resumes the job the server reports, or stops polling. */
  function PollEffect(s: State): State {
    if ResumesServerJob(s.props)
    then s.(polling := P.StartResult(s.polling, P.Target(s.props.providerId.value, s.props.serverJobId.value)))
    else s.(polling := P.StopResult(s.polling))
  }

  function Flushed(s: State): State {
    var a := if s.requestEffectDue then RequestEffect(s) else s;
    var b := if a.pollEffectDue then PollEffect(a) else a;
    b.(requestEffectDue := false, pollEffectDue := false)
  }

  function Rendered(s: State, props: Props): State {
    var f := Flushed(s);
    f.(props := props,
       requestEffectDue := props.providerId != f.props.providerId,
       pollEffectDue := props.providerId != f.props.providerId || props.serverJobId != f.props.serverJobId ||
                        V.ServerInProgress(props.serverStatus) != V.ServerInProgress(f.props.serverStatus) ||
                        props.isGithub != f.props.isGithub)
  }

  /** `startSync` as created by a render with the given provider and polling flag. */
  predicate StartSyncSends(s: State, providerId: Option<string>, isPolling: bool) {
    Truthy(providerId) && !s.requestPending && !isPolling
  }

  function StartSyncResult(s: State, providerId: Option<string>, isPolling: bool): State {
    if StartSyncSends(s, providerId, isPolling) then
      s.(requestPending := true, requestGeneration := s.requestGeneration + 1, isStarting := true,
         inFlight := s.inFlight[s.nextRequest := StartRequest(s.requestGeneration + 1, providerId.value)],
         nextRequest := s.nextRequest + 1)
    else s
  }

  /** The continuation of `startSync`, its catch and finally blocks included. */
  function StartSettled(s: State, id: nat, answer: StartAnswer): State
    requires id in s.inFlight
  {
    var r := s.inFlight[id];
    var taken := s.(inFlight := s.inFlight - {id});
    if r.generation != s.requestGeneration then taken
    else
      var polled := if answer.JobStarted?
                    then taken.(polling := P.StartResult(s.polling, P.Target(r.providerId, answer.jobId)))
                    else taken;
      polled.(requestPending := false, isStarting := false)
  }

  /** `handleTerminal`: only a job of the provider shown now is announced and reloads its data. */
  function TerminalHandled(s: State, job: P.Job): State {
    if s.props.providerId == Some(job.federationId)
    then s.(notices := s.notices + [job], settled := s.settled + 1)
    else s
  }

  /** Events of the polling hook that reach it without a call of this hook's effects or `startSync`; the terminal
    * callback of this hook calls none of the polling functions, but may throw. */
  predicate Drives(event: P.Event) {
    !event.Start? && !event.Remount? && (event.Settle? ==> event.calls == [])
  }

  function PollingHandled(s: State, event: P.Event): State {
    var polled := s.(polling := P.Step(s.polling, event));
    match P.ReportOf(s.polling, event)
    case Some(job) => TerminalHandled(polled, job)
    case None => polled
  }

  function Remounted(s: State): State {
    var mounted := s.(polling := s.polling.(mounted := true));
    PollEffect(RequestEffect(mounted)).(requestEffectDue := false, pollEffectDue := false)
  }

  function ViewInput(s: State): V.Input {
    V.Input(s.props.serverStatus, s.props.syncMessage, Truthy(s.props.serverJobId), s.isStarting,
            s.polling.isPolling, s.polling.pollingError, s.polling.jobStatus)
  }

  /** `runSyncAction` of the view shown now. */
  function ActionResult(s: State): State {
    if !s.props.canEdit then s
    else
      match V.Show(ViewInput(s)).action
      case ActRetry => s.(polling := P.RetryResult(s.polling))
      case ActStart => StartSyncResult(s, s.props.providerId, s.polling.isPolling)
      case ActRefresh => s.(settled := s.settled + 1)
      case ActNone => s
  }

  // ---------------------------------------------------------------- runs

  datatype Event =
    | Render(props: Props)
    | Flush
    | StartSync(providerId: Option<string>, isPolling: bool)
    | SettleStart(id: nat, outcome: StartAnswer)
    | RunAction
    | Polling(event: P.Event)
    | Remount

  function Step(s: State, event: Event): State {
    match event
    case Render(props) => if s.polling.mounted then Rendered(s, props) else s
    case Flush => if s.polling.mounted then Flushed(s) else s
    case StartSync(providerId, isPolling) => StartSyncResult(s, providerId, isPolling)
    case SettleStart(id, outcome) => if id in s.inFlight then StartSettled(s, id, outcome) else s
    case RunAction => ActionResult(s)
    case Polling(event) => if Drives(event) then PollingHandled(s, event) else s
    case Remount => if s.polling.mounted then s else Remounted(s)
  }

  function Run(s: State, events: seq<Event>): State {
    if events == [] then s
    else Step(Run(s, events[..|events| - 1]), events[|events| - 1])
  }

  /** Callers only ever invoke a `startSync` created by a render of the provider shown now. */
  predicate Fresh(s: State, events: seq<Event>) {
    events == [] ||
    var init := events[..|events| - 1];
    var last := events[|events| - 1];
    Fresh(s, init) && (last.StartSync? ==> last.providerId == Run(s, init).props.providerId)
  }

  /** Callers only ever invoke a `startSync` that some render up to then created: one with that provider shown and
    * that polling flag. */
  ghost predicate Kept(s: State, events: seq<Event>) {
    forall k :: 0 <= k < |events| && events[k].StartSync? ==>
      exists m :: 0 <= m <= k && Run(s, events[..m]).props.providerId == events[k].providerId &&
                  Run(s, events[..m]).polling.isPolling == events[k].isPolling
  }

  /** A start request that settles with a job of a provider not shown, after that provider's effects have run, and
    * is polled all the same. */
  predicate ForeignStart(s: State, event: Event) {
    && event.SettleStart? && event.outcome.JobStarted? && !s.requestEffectDue
    && event.id in s.inFlight && s.inFlight[event.id].generation == s.requestGeneration
    && s.props.providerId != Some(s.inFlight[event.id].providerId)
    && P.StartTakesEffect(s.polling, P.Target(s.inFlight[event.id].providerId, event.outcome.jobId))
  }

  function CurrentRequests(s: State): set<nat> {
    set id | id in s.inFlight && s.inFlight[id].generation == s.requestGeneration
  }

  predicate Owns(providerId: Option<string>, target: Option<P.Target>) {
    target.None? || providerId == Some(target.value.federationId)
  }
}
