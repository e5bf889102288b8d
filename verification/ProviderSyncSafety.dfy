/** Safety of the composed hooks over every run. */
module ProviderSyncSafety {
  import opened Options
  import opened ProviderSync
  import P = SyncPolling
  import S = SyncPollingSafety
  import V = SyncView

  // ---------------------------------------------------------------- start requests

  /** Request generations are unique, never ahead of the counter, and the current one is in flight
    * exactly while a request is pending. */
  ghost predicate Ledger(inFlight: map<nat, StartRequest>, generation: nat, next: nat, isPending: bool) {
    && (forall id :: id in inFlight ==> id < next && inFlight[id].generation <= generation)
    && (forall i, j :: i in inFlight && j in inFlight && inFlight[i].generation == inFlight[j].generation ==> i == j)
    && (isPending <==> exists id :: id in inFlight && inFlight[id].generation == generation)
  }

  ghost predicate Requests(s: State) {
    Ledger(s.inFlight, s.requestGeneration, s.nextRequest, s.requestPending) && s.isStarting == s.requestPending
  }

  /** Every handler of this hook moves the polling hook by the polling hook's own events. */
  lemma PollingStep(s: State, event: Event)
    requires S.Reachable(s.polling)
    ensures S.Reachable(Step(s, event).polling)
  {
    hide S.Reachable, V.Show, P.ReportOf, P.StartResult, P.RetryResult, Flushed, Remounted;
    match event
    case Render(props) => FlushPolling(s); return;
    case Flush => FlushPolling(s); return;
    case StartSync(_, _) => return;
    case SettleStart(id, outcome) =>
      if id in s.inFlight && outcome.JobStarted? {
        S.ReachableKeeps(s.polling, P.Start(P.Target(s.inFlight[id].providerId, outcome.jobId)));
      }
      return;
    case RunAction => S.ReachableKeeps(s.polling, P.Retry); return;
    case Polling(e) => S.ReachableKeeps(s.polling, e); return;
    case Remount => if !s.polling.mounted { RemountPolling(s); } return;
  }

  lemma RemountPolling(s: State)
    requires S.Reachable(s.polling) && !s.polling.mounted
    ensures S.Reachable(Remounted(s).polling)
  {
    hide S.Reachable;
    S.ReachableKeeps(s.polling, P.Remount);
    PollEffectPolling(RequestEffect(s.(polling := s.polling.(mounted := true))));
  }

  lemma PollEffectPolling(s: State)
    requires S.Reachable(s.polling)
    ensures S.Reachable(PollEffect(s).polling)
  {
    if ResumesServerJob(s.props) {
      S.ReachableKeeps(s.polling, P.Start(P.Target(s.props.providerId.value, s.props.serverJobId.value)));
    } else {
      S.ReachableKeeps(s.polling, P.Stop);
    }
  }

  lemma FlushPolling(s: State)
    requires S.Reachable(s.polling)
    ensures S.Reachable(Flushed(s).polling)
  {
    PollEffectPolling(if s.requestEffectDue then RequestEffect(s) else s);
  }

  predicate SameRequests(s: State, t: State) {
    && t.inFlight == s.inFlight && t.requestGeneration == s.requestGeneration && t.nextRequest == s.nextRequest
    && t.requestPending == s.requestPending && t.isStarting == s.isStarting
  }

  lemma SameKeepsRequests(s: State, t: State)
    requires Requests(s) && SameRequests(s, t)
    ensures Requests(t)
  {
  }

  lemma RequestsStep(s: State, event: Event)
    requires Requests(s)
    ensures Requests(Step(s, event))
  {
    hide Requests, Rendered, Flushed, StartSyncResult, StartSettled, ActionResult, PollingHandled, Remounted;
    match event
    case Render(props) => RenderRequests(s, props); return;
    case Flush => FlushRequests(s); return;
    case StartSync(providerId, isPolling) => SendRequests(s, providerId, isPolling); return;
    case SettleStart(id, outcome) => if id in s.inFlight { SettleRequests(s, id, outcome); } return;
    case RunAction => ActionRequests(s); return;
    case Polling(e) => PollingRequests(s, e); return;
    case Remount => InvalidateRequests(s); return;
  }

  lemma RenderRequests(s: State, props: Props)
    requires Requests(s)
    ensures Requests(Rendered(s, props))
  {
    FlushRequests(s);
    hide Requests, Flushed;
    SameKeepsRequests(Flushed(s), Rendered(s, props));
  }

  lemma ActionRequests(s: State)
    requires Requests(s)
    ensures Requests(ActionResult(s))
  {
    hide Requests, V.Show, P.RetryResult, StartSyncResult;
    SendRequests(s, s.props.providerId, s.polling.isPolling);
    if SameRequests(s, ActionResult(s)) {
      SameKeepsRequests(s, ActionResult(s));
    }
  }

  lemma PollingRequests(s: State, event: P.Event)
    requires Requests(s)
    ensures Requests(PollingHandled(s, event))
  {
    hide Requests, P.Step, P.ReportOf;
    SameKeepsRequests(s, PollingHandled(s, event));
  }

  lemma InvalidateRequests(s: State)
    requires Requests(s)
    ensures Requests(RequestEffect(s)) && CurrentRequests(RequestEffect(s)) == {}
    ensures Requests(Remounted(s))
  {
    assert SameRequests(RequestEffect(s), Remounted(s));
  }

  lemma FlushRequests(s: State)
    requires Requests(s)
    ensures Requests(Flushed(s))
    ensures s.requestEffectDue ==> CurrentRequests(Flushed(s)) == {}
  {
    InvalidateRequests(s);
    assert SameRequests(if s.requestEffectDue then RequestEffect(s) else s, Flushed(s));
  }

  lemma SendRequests(s: State, providerId: Option<string>, isPolling: bool)
    requires Requests(s)
    ensures Requests(StartSyncResult(s, providerId, isPolling))
  {
    if StartSyncSends(s, providerId, isPolling) {
      var t := StartSyncResult(s, providerId, isPolling);
      assert t.inFlight[s.nextRequest].generation == t.requestGeneration;
    }
  }

  lemma SettleRequests(s: State, id: nat, answer: StartAnswer)
    requires Requests(s) && id in s.inFlight
    ensures Requests(StartSettled(s, id, answer))
  {
    var r := s.inFlight[id];
    var t := StartSettled(s, id, answer);
    assert forall i :: i in t.inFlight ==> i in s.inFlight && t.inFlight[i] == s.inFlight[i];
    if r.generation != s.requestGeneration && s.requestPending {
      var k :| k in s.inFlight && s.inFlight[k].generation == s.requestGeneration;
      assert k in t.inFlight && t.inFlight[k].generation == t.requestGeneration;
    }
  }

  lemma {:induction false} RequestsRun(props: Props, clock: int, events: seq<Event>)
    ensures Requests(Run(Initial(props, clock), events))
    ensures S.Reachable(Run(Initial(props, clock), events).polling)
  {
    if events == [] {
      assert P.Run(P.Initial(clock), []) == P.Initial(clock);
    } else {
      RequestsRun(props, clock, events[..|events| - 1]);
      PollingStep(Run(Initial(props, clock), events[..|events| - 1]), events[|events| - 1]);
      RequestsStep(Run(Initial(props, clock), events[..|events| - 1]), events[|events| - 1]);
    }
  }

  /** `requestPendingRef` holds exactly while one in-flight start request carries the current request
    * generation, there is never a second one, and the card shows "starting" just then. */
  lemma PendingIsOneRequest(props: Props, clock: int, events: seq<Event>)
    ensures var s := Run(Initial(props, clock), events);
            && |CurrentRequests(s)| <= 1
            && (s.requestPending <==> |CurrentRequests(s)| == 1)
            && s.isStarting == s.requestPending
  {
    RequestsRun(props, clock, events);
    var s := Run(Initial(props, clock), events);
    if s.requestPending {
      var k :| k in s.inFlight && s.inFlight[k].generation == s.requestGeneration;
      assert CurrentRequests(s) == {k};
    } else {
      assert CurrentRequests(s) == {};
    }
  }

  // ---------------------------------------------------------------- whose targets

  predicate TargetsOf(providerId: Option<string>, p: P.State) {
    Owns(providerId, p.active) && Owns(providerId, p.retry) && Owns(providerId, p.terminal)
  }

  /** Once the effects of the last provider have run, all refs belong to the provider shown. */
  predicate TargetsOk(s: State) {
    s.requestEffectDue || TargetsOf(s.props.providerId, s.polling)
  }

  ghost predicate Composed(s: State) {
    S.Reachable(s.polling) && (s.requestEffectDue ==> s.pollEffectDue)
  }

  predicate RequestsOf(s: State) {
    forall id :: id in CurrentRequests(s) ==> s.props.providerId == Some(s.inFlight[id].providerId)
  }

  lemma StartOwned(p: P.State, target: P.Target)
    requires S.Reachable(p) && p.mounted
    ensures TargetsOf(Some(target.federationId), P.StartResult(p, target))
  {
    S.ReachableInv(p);
    S.StartKeeps(p, target);
  }

  lemma StartStaysOwned(p: P.State, target: P.Target)
    requires S.Reachable(p) && TargetsOf(Some(target.federationId), p)
    ensures TargetsOf(Some(target.federationId), P.StartResult(p, target))
  {
    S.ReachableInv(p);
    S.StartKeeps(p, target);
  }

  lemma LiveRequestIsActive(p: P.State, handle: nat)
    requires S.Reachable(p) && handle in p.pending && p.pending[handle].generation == p.generation
    ensures p.active == Some(p.pending[handle].target)
  {
    S.ReachableInv(p);
  }

  lemma CatchStaysOwned(p: P.State, handle: nat, generation: nat, target: P.Target, providerId: Option<string>)
    requires TargetsOf(providerId, p)
    ensures TargetsOf(providerId, P.CatchResult(p, handle, generation, target))
  {
    CatchRefs(p, handle, generation, target);
    hide P.CatchResult;
  }

  lemma CatchRefs(p: P.State, handle: nat, generation: nat, target: P.Target)
    ensures var c := P.CatchResult(p, handle, generation, target);
            (c.active == p.active || c.active == None) && c.retry == p.retry && c.terminal == p.terminal
  {
    var r := P.Released(p, handle);
    var e := r.(errorCount := r.errorCount + 1, log := r.log + [P.Errored(generation)]);
    FailRefs(e, P.RequestFailed);
    hide P.FailResult;
  }

  lemma FailRefs(p: P.State, error: P.PollingError)
    ensures var f := P.FailResult(p, error); f.active == None && f.retry == p.retry && f.terminal == p.terminal
  {
  }

  lemma FulfilledStaysOwned(p: P.State, handle: nat, generation: nat, target: P.Target, job: P.Job, throws: bool,
                            providerId: Option<string>)
    requires TargetsOf(providerId, p) && p.active == Some(target)
    ensures TargetsOf(providerId, P.FulfilledResult(p, handle, generation, target, job, [], throws))
  {
    var terminal := P.TerminalState(p, job, generation, target);
    assert P.CallsResult(terminal, []) == terminal;
    hide P.CallsResult, P.CatchResult;
    CatchStaysOwned(terminal, handle, generation, target, providerId);
  }

  lemma SettleStaysOwned(p: P.State, event: P.Event, providerId: Option<string>)
    requires S.Reachable(p) && TargetsOf(providerId, p) && event.Settle? && event.calls == []
    ensures TargetsOf(providerId, P.Step(p, event))
  {
    hide S.Reachable, P.FulfilledResult, P.CatchResult;
    if event.handle in p.pending {
      var c := p.pending[event.handle];
      var popped := p.(pending := p.pending - {event.handle});
      CatchStaysOwned(popped, event.handle, c.generation, c.target, providerId);
      if c.generation == p.generation && event.answer.Fulfilled? {
        LiveRequestIsActive(p, event.handle);
        FulfilledStaysOwned(P.Released(popped, event.handle), event.handle, c.generation, c.target, event.answer.job,
                            event.throws, providerId);
      }
    }
  }

  lemma PollStepOwned(p: P.State, event: P.Event, providerId: Option<string>)
    requires S.Reachable(p) && TargetsOf(providerId, p) && Drives(event)
    ensures TargetsOf(providerId, P.Step(p, event))
  {
    hide S.Reachable, P.StartResult, P.SettleResult;
    if event.Retry? {
      if p.retry.Some? {
        StartStaysOwned(p, p.retry.value);
      }
    } else if event.Settle? {
      SettleStaysOwned(p, event, providerId);
    }
  }

  lemma FlushTargets(s: State)
    requires S.Reachable(s.polling) && s.polling.mounted && (s.requestEffectDue ==> s.pollEffectDue) && TargetsOk(s)
    ensures Composed(Flushed(s)) && TargetsOf(s.props.providerId, Flushed(s).polling)
  {
    FlushPolling(s);
    if s.pollEffectDue && ResumesServerJob(s.props) {
      StartOwned(s.polling, P.Target(s.props.providerId.value, s.props.serverJobId.value));
    }
  }

  lemma RemountTargets(s: State)
    requires Composed(s) && !s.polling.mounted
    ensures Composed(Remounted(s)) && TargetsOk(Remounted(s))
  {
    S.ReachableKeeps(s.polling, P.Remount);
    var m := s.(polling := s.polling.(mounted := true), requestEffectDue := true, pollEffectDue := true);
    FlushTargets(m);
    assert Remounted(s) == Flushed(m);
  }

  lemma SettleTargetsIff(s: State, id: nat, outcome: StartAnswer)
    requires Composed(s) && TargetsOk(s) && id in s.inFlight
    ensures TargetsOk(StartSettled(s, id, outcome)) <==> !ForeignStart(s, SettleStart(id, outcome))
  {
    var r := s.inFlight[id];
    if r.generation == s.requestGeneration && outcome.JobStarted? && !s.requestEffectDue {
      var target := P.Target(r.providerId, outcome.jobId);
      if s.props.providerId == Some(r.providerId) {
        StartStaysOwned(s.polling, target);
      } else if P.StartTakesEffect(s.polling, target) {
        S.ReachableInv(s.polling);
        S.StartKeeps(s.polling, target);
      }
    }
  }

  lemma PollingTargets(s: State, event: P.Event)
    requires Composed(s) && TargetsOk(s) && Drives(event)
    ensures TargetsOk(s.(polling := P.Step(s.polling, event)))
  {
    if !s.requestEffectDue {
      PollStepOwned(s.polling, event, s.props.providerId);
    }
  }

  lemma RetryTargets(s: State)
    requires Composed(s) && TargetsOk(s)
    ensures TargetsOk(s.(polling := P.RetryResult(s.polling)))
  {
    PollingTargets(s, P.Retry);
  }

  /** A step takes foreign targets in exactly when it is a foreign start. */
  lemma StepTargetsIff(s: State, event: Event)
    requires Composed(s) && TargetsOk(s)
    ensures TargetsOk(Step(s, event)) <==> !ForeignStart(s, event)
  {
    hide S.Reachable, V.Show, Flushed, Remounted, StartSettled, P.Step, P.RetryResult;
    match event
    case Render(props) => if s.polling.mounted { FlushTargets(s); FlushKeepsProps(s); } return;
    case Flush => if s.polling.mounted { FlushTargets(s); FlushKeepsProps(s); } return;
    case StartSync(providerId, isPolling) => return;
    case SettleStart(id, outcome) => if id in s.inFlight { SettleTargetsIff(s, id, outcome); } return;
    case RunAction => RetryTargets(s); return;
    case Polling(e) => if Drives(e) { PollingTargets(s, e); } return;
    case Remount => if !s.polling.mounted { RemountTargets(s); } return;
  }

  lemma FlushKeepsProps(s: State)
    ensures Flushed(s).props == s.props && !Flushed(s).requestEffectDue
  {
  }

  /** A provider change makes both effects due. */
  lemma DueStep(s: State, event: Event)
    requires s.requestEffectDue ==> s.pollEffectDue
    ensures Step(s, event).requestEffectDue ==> Step(s, event).pollEffectDue
  {
    hide V.Show, P.Step, P.StartResult, P.StopResult, P.RetryResult, P.ReportOf;
    match event
    case Render(_) => return;
    case Flush => return;
    case StartSync(_, _) => return;
    case SettleStart(_, _) => return;
    case RunAction => return;
    case Polling(_) => return;
    case Remount => return;
  }

  lemma {:induction false} ComposedRun(props: Props, clock: int, events: seq<Event>)
    ensures Composed(Run(Initial(props, clock), events))
  {
    RequestsRun(props, clock, events);
    if events != [] {
      ComposedRun(props, clock, events[..|events| - 1]);
      hide S.Reachable;
      DueStep(Run(Initial(props, clock), events[..|events| - 1]), events[|events| - 1]);
    }
  }

  // ---------------------------------------------------------------- whose requests

  /** The current start request is for the provider shown, once that provider's effect has run. */
  ghost predicate RequestsOwned(s: State) {
    Requests(s) && (!s.requestEffectDue ==> RequestsOf(s))
  }

  lemma SendOwned(s: State, providerId: Option<string>, isPolling: bool)
    requires RequestsOwned(s) && providerId == s.props.providerId
    ensures RequestsOwned(StartSyncResult(s, providerId, isPolling))
  {
    SendRequests(s, providerId, isPolling);
    if StartSyncSends(s, providerId, isPolling) {
      SentIsCurrent(s, providerId, isPolling);
    }
  }

  lemma FlushRequestsOwned(s: State)
    requires RequestsOwned(s)
    ensures RequestsOwned(Flushed(s)) && RequestsOf(Flushed(s))
  {
    FlushRequests(s);
    assert !s.requestEffectDue ==> CurrentRequests(Flushed(s)) == CurrentRequests(s);
  }

  lemma RenderRequestsOwned(s: State, props: Props)
    requires RequestsOwned(s)
    ensures RequestsOwned(Rendered(s, props))
  {
    FlushRequestsOwned(s);
    hide Flushed;
    assert CurrentRequests(Rendered(s, props)) == CurrentRequests(Flushed(s));
  }

  lemma SettleRequestsOwned(s: State, id: nat, outcome: StartAnswer)
    requires RequestsOwned(s) && id in s.inFlight
    ensures RequestsOwned(StartSettled(s, id, outcome))
  {
    SettleRequests(s, id, outcome);
    hide Requests, P.StartResult;
    assert forall i :: i in CurrentRequests(StartSettled(s, id, outcome)) ==> i in CurrentRequests(s);
  }

  /** What touches neither the requests nor the provider shown keeps them. */
  lemma SameRequestsOwned(s: State, t: State)
    requires RequestsOwned(s) && SameRequests(s, t) && t.props == s.props && t.requestEffectDue == s.requestEffectDue
    ensures RequestsOwned(t)
  {
    assert CurrentRequests(t) == CurrentRequests(s);
  }

  lemma RequestsOwnedStep(s: State, event: Event)
    requires RequestsOwned(s)
    requires event.StartSync? ==> event.providerId == s.props.providerId
    ensures RequestsOwned(Step(s, event))
  {
    hide RequestsOwned, V.Show, P.StartResult, P.StopResult, P.RetryResult, P.Step, Flushed, Remounted, StartSettled,
         StartSyncResult, Rendered, P.ReportOf;
    match event
    case Render(props) => RenderRequestsOwned(s, props); return;
    case Flush => FlushRequestsOwned(s); return;
    case StartSync(providerId, isPolling) => SendOwned(s, providerId, isPolling); return;
    case SettleStart(id, outcome) => if id in s.inFlight { SettleRequestsOwned(s, id, outcome); } return;
    case RunAction =>
      SendOwned(s, s.props.providerId, s.polling.isPolling);
      SameRequestsOwned(s, s.(polling := P.RetryResult(s.polling)));
      SameRequestsOwned(s, s.(settled := s.settled + 1));
      return;
    case Polling(e) => SameRequestsOwned(s, Step(s, event)); return;
    case Remount => RemountRequestsOwned(s); return;
  }

  lemma RemountRequestsOwned(s: State)
    requires RequestsOwned(s)
    ensures RequestsOwned(Remounted(s))
  {
    InvalidateRequests(s);
    RemountRequests(s);
  }

  lemma RemountRequests(s: State)
    requires Requests(s)
    ensures CurrentRequests(Remounted(s)) == {}
  {
    InvalidateRequests(s);
    assert SameRequests(RequestEffect(s), Remounted(s));
    assert CurrentRequests(Remounted(s)) == CurrentRequests(RequestEffect(s));
  }

  lemma {:induction false} RequestsOwnedRun(props: Props, clock: int, events: seq<Event>)
    requires Fresh(Initial(props, clock), events)
    ensures RequestsOwned(Run(Initial(props, clock), events))
  {
    if events != [] {
      RequestsOwnedRun(props, clock, events[..|events| - 1]);
      RequestsOwnedStep(Run(Initial(props, clock), events[..|events| - 1]), events[|events| - 1]);
    }
  }

  // ---------------------------------------------------------------- main results on targets

  ghost predicate AlwaysOwned(s: State, events: seq<Event>) {
    forall k :: 0 <= k <= |events| ==> TargetsOk(Run(s, events[..k]))
  }

  ghost predicate NoForeignStart(s: State, events: seq<Event>) {
    forall k :: 0 <= k < |events| ==> !ForeignStart(Run(s, events[..k]), events[k])
  }

  lemma PrefixesOf(s: State, events: seq<Event>)
    requires events != []
    ensures var init := events[..|events| - 1];
            && (AlwaysOwned(s, events) <==> AlwaysOwned(s, init) && TargetsOk(Run(s, events)))
            && (NoForeignStart(s, events) <==>
                  NoForeignStart(s, init) && !ForeignStart(Run(s, init), events[|events| - 1]))
  {
    hide TargetsOk, ForeignStart, Run;
    var init := events[..|events| - 1];
    assert events[..|events|] == events;
    forall k | 0 <= k < |events| ensures init[..k] == events[..k] { }
    assert AlwaysOwned(s, events) ==> TargetsOk(Run(s, events[..|events|]));
    forall k | 0 <= k <= |init| && AlwaysOwned(s, events) ensures TargetsOk(Run(s, init[..k])) {
      assert TargetsOk(Run(s, events[..k]));
    }
    forall k | 0 <= k <= |events| && AlwaysOwned(s, init) && TargetsOk(Run(s, events))
      ensures TargetsOk(Run(s, events[..k]))
    {
      if k < |events| {
        assert TargetsOk(Run(s, init[..k]));
      }
    }
  }

  /** In every run, whatever `startSync` callers kept: once the effects of the last render have run the active, retry
    * and terminal targets belong to the provider shown, at every moment of the run, exactly when no foreign start
    * occurs in it. */
  lemma {:induction false} TargetsBelongIff(props: Props, clock: int, events: seq<Event>)
    ensures AlwaysOwned(Initial(props, clock), events) <==> NoForeignStart(Initial(props, clock), events)
  {
    var s := Initial(props, clock);
    if events != [] {
      var init := events[..|events| - 1];
      TargetsBelongIff(props, clock, init);
      PrefixesOf(s, events);
      if AlwaysOwned(s, init) {
        assert init[..|init|] == init;
        assert TargetsOk(Run(s, init));
        ComposedRun(props, clock, init);
        StepTargetsIff(Run(s, init), events[|events| - 1]);
      }
    }
  }

  /** So in every run whose callers use the current `startSync`, targets belong to the provider shown once the
    * effects of the last render have run. */
  lemma {:induction false} TargetsBelongToProvider(props: Props, clock: int, events: seq<Event>)
    requires Fresh(Initial(props, clock), events)
    ensures AlwaysOwned(Initial(props, clock), events) && NoForeignStart(Initial(props, clock), events)
    ensures var s := Run(Initial(props, clock), events);
            !s.requestEffectDue ==> TargetsOf(s.props.providerId, s.polling)
  {
    var s := Initial(props, clock);
    if events != [] {
      var init := events[..|events| - 1];
      TargetsBelongToProvider(props, clock, init);
      RequestsOwnedRun(props, clock, init);
      PrefixesOf(s, events);
      var last := events[|events| - 1];
      if last.SettleStart? && last.id in Run(s, init).inFlight &&
         Run(s, init).inFlight[last.id].generation == Run(s, init).requestGeneration {
        assert last.id in CurrentRequests(Run(s, init));
      }
      TargetsBelongIff(props, clock, events);
    }
    assert events[..|events|] == events;
  }

  /** A `startSync` of provider `providerId`, kept by its caller, whose request settles with a job makes the hook keep
    * targets of a provider not shown exactly when it sent a request, for another provider, and the start takes
    * effect. */
  lemma StaleStartSyncIff(props: Props, clock: int, events: seq<Event>, providerId: Option<string>, isPolling: bool,
                          jobId: string)
    requires var s := Run(Initial(props, clock), events);
             !s.requestEffectDue && TargetsOf(s.props.providerId, s.polling)
    ensures var s := Run(Initial(props, clock), events);
            var t := Step(Step(s, StartSync(providerId, isPolling)), SettleStart(s.nextRequest, JobStarted(jobId)));
            !TargetsOf(t.props.providerId, t.polling) <==>
              && StartSyncSends(s, providerId, isPolling)
              && providerId != s.props.providerId
              && P.StartTakesEffect(s.polling, P.Target(providerId.value, jobId))
  {
    ComposedRun(props, clock, events);
    RequestsRun(props, clock, events);
    var s := Run(Initial(props, clock), events);
    var sent := Step(s, StartSync(providerId, isPolling));
    var settle := SettleStart(s.nextRequest, JobStarted(jobId));
    StepTargetsIff(sent, settle);
    hide V.Show, P.StartResult, S.Reachable;
    assert !Step(sent, settle).requestEffectDue;
  }

  /** A job id obtained for a provider that has since changed reaches `startPolling` exactly when its
    * request is still current, and with current `startSync`s that is only possible before the provider effect has
    * run. */
  lemma ForeignJobIsDropped(props: Props, clock: int, events: seq<Event>, id: nat, jobId: string)
    requires Fresh(Initial(props, clock), events)
    requires var s := Run(Initial(props, clock), events);
             id in s.inFlight && s.props.providerId != Some(s.inFlight[id].providerId)
    ensures var s := Run(Initial(props, clock), events);
            var r := s.inFlight[id];
            var s' := Step(s, SettleStart(id, JobStarted(jobId)));
            && (r.generation == s.requestGeneration ==> s.requestEffectDue)
            && (!s.requestEffectDue ==> s' == s.(inFlight := s.inFlight - {id}))
            && (r.generation == s.requestGeneration ==>
                  s'.polling == P.StartResult(s.polling, P.Target(r.providerId, jobId)))
            && (r.generation != s.requestGeneration ==> s'.polling == s.polling)
  {
    RequestsOwnedRun(props, clock, events);
    var s := Run(Initial(props, clock), events);
    if s.inFlight[id].generation == s.requestGeneration {
      assert id in CurrentRequests(s);
    }
  }

  lemma RunOnce(s: State, events: seq<Event>, event: Event)
    ensures Run(s, events + [event]) == Step(Run(s, events), event)
    ensures Fresh(s, events + [event]) <==>
            Fresh(s, events) && (event.StartSync? ==> event.providerId == Run(s, events).props.providerId)
  {
    var longer := events + [event];
    assert longer[..|longer| - 1] == events;
  }

  /** The window is real: a start request of provider "a" that settles after a render of "b" and
    * before its effects makes the hook poll "a" while "b" is shown. */
  lemma RenderWindowPollsOldProvider() returns (props: Props, events: seq<Event>)
    ensures Fresh(Initial(props, 0), events)
    ensures var s := Run(Initial(props, 0), events);
            s.requestEffectDue && s.polling.active.Some? && !Owns(s.props.providerId, s.polling.active)
  {
    props := Props(Some("a"), None, None, "", false, true);
    var s0 := Initial(props, 0);
    var settle := SettleStart(0, JobStarted("j"));
    RunOnce(s0, [], Flush);
    RunOnce(s0, [] + [Flush], StartSync(Some("a"), false));
    var e2 := [] + [Flush] + [StartSync(Some("a"), false)];
    var s2 := Run(s0, e2);
    assert s2.inFlight == map[0 := StartRequest(2, "a")] && s2.requestGeneration == 2;
    RunOnce(s0, e2, Render(props.(providerId := Some("b"))));
    RunOnce(s0, e2 + [Render(props.(providerId := Some("b")))], settle);
    events := e2 + [Render(props.(providerId := Some("b")))] + [settle];
    assert Run(s0, events).polling.active == Some(P.Target("a", "j"));
  }

  /** A caller that kept the `startSync` of an earlier render can do so: with provider "a" shown, then "b" and its
    * effects, the `startSync` of "a" makes the hook poll "a" although no effect is due. */
  lemma StaleStartSyncPollsOldProvider() returns (props: Props, events: seq<Event>)
    ensures Kept(Initial(props, 0), events)
    ensures var s := Run(Initial(props, 0), events);
            !s.requestEffectDue && !s.pollEffectDue && !TargetsOf(s.props.providerId, s.polling)
  {
    props := Props(Some("a"), None, None, "", false, true);
    var s0 := Initial(props, 0);
    var b := props.(providerId := Some("b"));
    RunOnce(s0, [], Flush);
    var e1 := [] + [Flush];
    RunOnce(s0, e1, Render(b));
    var e2 := e1 + [Render(b)];
    RunOnce(s0, e2, Flush);
    var e3 := e2 + [Flush];
    RunOnce(s0, e3, StartSync(Some("a"), false));
    var e4 := e3 + [StartSync(Some("a"), false)];
    var s4 := Run(s0, e4);
    assert s4.inFlight == map[0 := StartRequest(3, "a")] && s4.requestGeneration == 3;
    RunOnce(s0, e4, SettleStart(0, JobStarted("j")));
    events := e4 + [SettleStart(0, JobStarted("j"))];
    assert Run(s0, events).polling.active == Some(P.Target("a", "j"));
    assert events[..0] == [] && Run(s0, events[..0]) == s0;
    assert forall k :: 0 <= k < |events| && events[k].StartSync? ==> k == 3;
  }

  // ---------------------------------------------------------------- running is driven

  lemma {:induction false} DrivenRun(props: Props, clock: int, events: seq<Event>)
    ensures S.Driven(Run(Initial(props, clock), events).polling)
  {
    if events != [] {
      DrivenRun(props, clock, events[..|events| - 1]);
      RequestsRun(props, clock, events[..|events| - 1]);
      DrivenStep(Run(Initial(props, clock), events[..|events| - 1]), events[|events| - 1]);
    }
  }

  lemma PollEffectDrives(s: State)
    requires S.Reachable(s.polling) && (S.Driven(s.polling) || s.polling.mounted)
    ensures S.Driven(PollEffect(s).polling)
  {
    S.ReachableInv(s.polling);
    if ResumesServerJob(s.props) {
      S.StartDrives(s.polling, P.Target(s.props.providerId.value, s.props.serverJobId.value));
    }
  }

  lemma DrivenStep(s: State, event: Event)
    requires S.Reachable(s.polling) && S.Driven(s.polling)
    ensures S.Driven(Step(s, event).polling)
  {
    hide V.Show, S.Reachable, S.Driven, P.ReportOf, P.StartResult, P.StopResult, P.RetryResult, Flushed, Remounted;
    match event
    case Render(_) => FlushDrives(s); return;
    case Flush => FlushDrives(s); return;
    case StartSync(_, _) => return;
    case SettleStart(id, outcome) =>
      if id in s.inFlight && outcome.JobStarted? {
        PollDrives(s.polling, P.Start(P.Target(s.inFlight[id].providerId, outcome.jobId)));
      }
      return;
    case RunAction => PollDrives(s.polling, P.Retry); return;
    case Polling(e) => if !e.Remount? { PollDrives(s.polling, e); } return;
    case Remount => if !s.polling.mounted { RemountDrives(s); } return;
  }

  lemma FlushDrives(s: State)
    requires S.Reachable(s.polling) && S.Driven(s.polling)
    ensures S.Driven(Flushed(s).polling)
  {
    PollEffectDrives(if s.requestEffectDue then RequestEffect(s) else s);
    hide S.Reachable, S.Driven;
  }

  lemma RemountDrives(s: State)
    requires S.Reachable(s.polling) && !s.polling.mounted
    ensures S.Driven(Remounted(s).polling)
  {
    S.ReachableKeeps(s.polling, P.Remount);
    PollEffectDrives(RequestEffect(s.(polling := s.polling.(mounted := true))));
    hide S.Reachable, S.Driven;
  }

  lemma PollDrives(p: P.State, event: P.Event)
    requires S.Reachable(p) && S.Driven(p) && !event.Remount?
    ensures S.Driven(P.Step(p, event))
  {
    S.ReachableInv(p);
    S.StepDrivenIff(p, event);
  }

  /** In every run of the composed hooks, remounts included, a mounted hook reports a running poll exactly when a
    * target is active, and then exactly one continuation drives it. */
  lemma RunningIsDriven(props: Props, clock: int, events: seq<Event>)
    ensures var p := Run(Initial(props, clock), events).polling;
            p.mounted ==> (p.isPolling <==> p.active.Some?) && (p.isPolling <==> |P.CurrentHandles(p)| == 1)
  {
    DrivenRun(props, clock, events);
    RequestsRun(props, clock, events);
    var p := Run(Initial(props, clock), events).polling;
    S.ReachableInv(p);
    S.OneHandle(p);
  }

  // ---------------------------------------------------------------- what the card offers

  /** Which polling and request states each offer can appear in. */
  lemma OfferMeaning(s: State)
    requires S.Reachable(s.polling)
    ensures var offer := V.Show(ViewInput(s));
            && (offer.isBusy <==> offer.action.ActNone?)
            && (offer.action.ActRetry? <==> s.polling.pollingError.Some?)
            && (s.polling.active.Some? ==> offer.isBusy)
            && (offer.action.ActStart? ==> !s.isStarting && !s.polling.isPolling && s.polling.active.None?)
  {
    S.ReachableInv(s.polling);
  }

  /** Start, when offered, sends a request for the provider shown, which becomes the pending one. */
  lemma StartOfferSends(props: Props, clock: int, events: seq<Event>)
    requires var s := Run(Initial(props, clock), events);
             V.Show(ViewInput(s)).action.ActStart? && Truthy(s.props.providerId) && s.props.canEdit
    ensures var s := Run(Initial(props, clock), events);
            var s' := Step(s, RunAction);
            && !s.requestPending && s'.requestPending
            && CurrentRequests(s') == {s.nextRequest}
            && Some(s'.inFlight[s.nextRequest].providerId) == s.props.providerId
  {
    RequestsRun(props, clock, events);
    var s := Run(Initial(props, clock), events);
    OfferMeaning(s);
    SentIsCurrent(s, s.props.providerId, s.polling.isPolling);
    hide S.Reachable, V.Show, Run, CurrentRequests, Rendered, Flushed, StartSettled, PollingHandled, Remounted;
  }

  /** A request that is sent becomes the only current one. */
  lemma SentIsCurrent(s: State, providerId: Option<string>, isPolling: bool)
    requires Requests(s) && StartSyncSends(s, providerId, isPolling)
    ensures var s' := StartSyncResult(s, providerId, isPolling);
            CurrentRequests(s') == {s.nextRequest} && s.nextRequest in s'.inFlight
  {
  }

  /** Retry, when offered to a mounted hook, restarts the target that failed and keeps its job; while
    * a poll is active the card is busy and running its action changes nothing. */
  lemma RetryOfferRestarts(props: Props, clock: int, events: seq<Event>)
    ensures var s := Run(Initial(props, clock), events);
            var offer := V.Show(ViewInput(s));
            var s' := Step(s, RunAction);
            && (s.polling.active.Some? ==> offer.isBusy && s' == s)
            && (offer.action.ActRetry? && s.polling.mounted && s.props.canEdit ==>
                  && s.polling.retry.Some? && s.polling.active.None? && s'.polling.active == s.polling.retry
                  && s'.polling.jobStatus == s.polling.jobStatus && s'.polling.isPolling)
  {
    hide S.Reachable, V.Show, Requests, Run, Rendered, Flushed, StartSettled, PollingHandled, Remounted;
    RequestsRun(props, clock, events);
    var s := Run(Initial(props, clock), events);
    OfferMeaning(s);
    S.ReachableInv(s.polling);
    if s.polling.retry.Some? {
      S.StartKeeps(s.polling, s.polling.retry.value);
    }
  }

  lemma PendingIsOld(p: P.State, handle: nat)
    requires S.Reachable(p) && handle in p.pending
    ensures handle < p.nextHandle
  {
    S.ReachableInv(p);
  }

  /** Every announcement is for the provider shown at that moment, and comes with exactly one report
    * of the polling hook. */
  lemma NoticeMatchesProvider(s: State, event: P.Event)
    requires S.Reachable(s.polling) && Drives(event) && PollingHandled(s, event).notices != s.notices
    ensures var s' := PollingHandled(s, event);
            && event.Settle? && event.answer.Fulfilled?
            && s'.notices == s.notices + [event.answer.job] && s'.settled == s.settled + 1
            && s.props.providerId == Some(event.answer.job.federationId)
            && s.polling.active.Some? && s'.polling.terminal == s.polling.active
            && s'.polling.log == s.polling.log + [P.Answered(s.polling.generation), P.Reported(s.polling.active.value)]
  {
    hide S.Reachable, P.Step;
    ReportStep(s.polling, event);
  }

  /** A report leaves the hook with the target it polled as the terminal one. */
  lemma ReportStep(p: P.State, event: P.Event)
    requires S.Reachable(p) && P.ReportOf(p, event).Some? && event.calls == []
    ensures var p' := P.Step(p, event);
            && p.active.Some? && p'.terminal == p.active
            && p'.log == p.log + [P.Answered(p.generation), P.Reported(p.active.value)]
  {
    var r := P.Released(p.(pending := p.pending - {event.handle}), event.handle);
    PendingIsOld(p, event.handle);
    S.ReachableInv(p);
    S.DetachRequest(p, event.handle);
    S.SilentReport(r, event.answer.job, event.throws, event.handle);
    hide S.Reachable, S.Inv, S.Detached, P.CatchResult, P.FulfilledResult;
  }
}
