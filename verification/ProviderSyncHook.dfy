/** The provider hook in its own imperative shape, driving a polling hook object. */
module ProviderSyncHook {
  import opened Options
  import opened ProviderSync
  import opened ProviderSyncSafety
  import P = SyncPolling
  import V = SyncView
  import H = SyncPollingHook

  class ExternalProviderSync {
    const polling: H.PollingHook
    var props: Props
    var requestPending: bool
    var requestGeneration: nat
    var isStarting: bool
    var inFlight: map<nat, StartRequest>
    var nextRequest: nat
    var requestEffectDue: bool
    var pollEffectDue: bool
    var notices: seq<P.Job>
    var settled: nat

    ghost function View(): State
      reads this, polling
    {
      State(props, requestPending, requestGeneration, isStarting, inFlight, nextRequest,
            requestEffectDue, pollEffectDue, polling.View(), notices, settled)
    }

    constructor (props: Props, clock: int)
      ensures View() == Initial(props, clock) && fresh(polling)
    {
      polling := new H.PollingHook(clock);
      this.props := props;
      requestPending, requestGeneration, isStarting := false, 0, false;
      inFlight, nextRequest, notices, settled := map[], 0, [], 0;
      requestEffectDue, pollEffectDue := true, true;
    }

    method RunRequestEffect()
      modifies this
      ensures View() == RequestEffect(old(View()))
    {
      requestGeneration := requestGeneration + 1;
      requestPending := false;
      isStarting := false;
    }

    method RunPollEffect()
      modifies polling
      ensures View() == PollEffect(old(View()))
    {
      if Truthy(props.providerId) && Truthy(props.serverJobId) && V.ServerInProgress(props.serverStatus) {
        polling.StartPolling(P.Target(props.providerId.value, props.serverJobId.value));
        return;
      }
      polling.StopPolling();
    }

    method FlushEffects()
      modifies this, polling
      ensures View() == Flushed(old(View()))
    {
      if requestEffectDue {
        RunRequestEffect();
      }
      if pollEffectDue {
        RunPollEffect();
      }
      requestEffectDue, pollEffectDue := false, false;
    }

    method Render(next: Props)
      modifies this, polling
      ensures View() == Rendered(old(View()), next)
    {
      FlushEffects();
      requestEffectDue := next.providerId != props.providerId;
      pollEffectDue := requestEffectDue || next.serverJobId != props.serverJobId ||
                       V.ServerInProgress(next.serverStatus) != V.ServerInProgress(props.serverStatus) ||
                       next.isGithub != props.isGithub;
      props := next;
    }

    /** `providerId` and `isPolling` are what the render that created this `startSync` saw. */
    method StartSync(providerId: Option<string>, isPolling: bool) returns (request: Option<nat>)
      modifies this
      ensures View() == StartSyncResult(old(View()), providerId, isPolling)
      ensures request == if StartSyncSends(old(View()), providerId, isPolling) then Some(old(nextRequest)) else None
    {
      if !Truthy(providerId) || requestPending || isPolling {
        return None;
      }
      requestPending := true;
      requestGeneration := requestGeneration + 1;
      isStarting := true;
      inFlight := inFlight[nextRequest := StartRequest(requestGeneration, providerId.value)];
      request := Some(nextRequest);
      nextRequest := nextRequest + 1;
    }

    method SettleStartRequest(id: nat, outcome: StartAnswer) returns (started: bool)
      requires id in inFlight
      modifies this, polling
      ensures View() == StartSettled(old(View()), id, outcome)
      ensures started == (outcome.JobStarted? && old(inFlight[id].generation == requestGeneration))
    {
      var r := inFlight[id];
      inFlight := inFlight - {id};
      started := false;
      if r.generation == requestGeneration && outcome.JobStarted? {
        polling.StartPolling(P.Target(r.providerId, outcome.jobId));
        started := true;
      }
      if r.generation == requestGeneration {
        requestPending := false;
        isStarting := false;
      }
    }

    method HandleTerminal(job: P.Job)
      modifies this
      ensures View() == TerminalHandled(old(View()), job)
    {
      if Some(job.federationId) != props.providerId {
        return;
      }
      notices := notices + [job];
      settled := settled + 1;
    }

    method RunSyncAction()
      modifies this, polling
      ensures View() == ActionResult(old(View()))
    {
      if !props.canEdit {
        return;
      }
      var view := V.Show(V.Input(props.serverStatus, props.syncMessage, Truthy(props.serverJobId), isStarting,
                                 polling.isPolling, polling.pollingError, polling.jobStatus));
      if view.action.ActRetry? {
        polling.RetryPolling();
      } else if view.action.ActRefresh? {
        settled := settled + 1;
      } else if view.action.ActStart? {
        var _ := StartSync(props.providerId, polling.isPolling);
      }
    }

    /** An event of the polling hook, whose terminal callback is `HandleTerminal`. */
    method PassToPolling(event: P.Event)
      requires Drives(event)
      modifies this, polling
      ensures View() == PollingHandled(old(View()), event)
    {
      var reported := polling.Dispatch(event);
      if reported.Some? {
        HandleTerminal(reported.value);
      }
    }

    method Remount()
      requires !polling.mounted
      modifies this, polling
      ensures View() == Remounted(old(View()))
    {
      polling.Remount();
      RunRequestEffect();
      RunPollEffect();
      requestEffectDue, pollEffectDue := false, false;
    }

    /** One event of the page; effects and renders reach only a mounted hook. */
    method Dispatch(event: Event)
      modifies this, polling
      ensures View() == Step(old(View()), event)
    {
      match event
      case Render(props) => if polling.mounted { Render(props); }
      case Flush => if polling.mounted { FlushEffects(); }
      case StartSync(providerId, isPolling) => var _ := StartSync(providerId, isPolling);
      case SettleStart(id, outcome) => if id in inFlight { var _ := SettleStartRequest(id, outcome); }
      case RunAction => RunSyncAction();
      case Polling(event) => if Drives(event) { PassToPolling(event); }
      case Remount => if !polling.mounted { Remount(); }
    }
  }

  /** A whole life of a provider card: it ends in the state of the run, one request pending exactly while the card
    * says so, a running poll driven, and, when callers use current `startSync`s, the targets of the provider shown. */
  method Live(props: Props, clock: int, events: seq<Event>) returns (card: ExternalProviderSync)
    ensures card.View() == Run(Initial(props, clock), events)
    ensures |CurrentRequests(card.View())| == if card.requestPending then 1 else 0
    ensures card.polling.mounted ==> (card.polling.isPolling <==> card.polling.active.Some?)
    ensures Fresh(Initial(props, clock), events) && !card.requestEffectDue ==>
              TargetsOf(card.props.providerId, card.polling.View())
  {
    card := new ExternalProviderSync(props, clock);
    for n := 0 to |events|
      invariant fresh(card) && fresh(card.polling) && card.View() == Run(Initial(props, clock), events[..n])
    {
      assert events[..n + 1][..n] == events[..n];
      card.Dispatch(events[n]);
    }
    assert events[..|events|] == events;
    PendingIsOneRequest(props, clock, events);
    RunningIsDriven(props, clock, events);
    if Fresh(Initial(props, clock), events) {
      TargetsBelongToProvider(props, clock, events);
    }
  }
}
