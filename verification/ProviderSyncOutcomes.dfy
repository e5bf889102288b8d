/** What the card of a provider does with each property, answer and click, in every run. */
module ProviderSyncOutcomes {
  import opened Options
  import opened ProviderSync
  import opened ProviderSyncSafety
  import P = SyncPolling
  import S = SyncPollingSafety
  import O = SyncPollingOutcomes
  import V = SyncView

  /** The server reports a job of this provider, and reports it as pending or syncing. */
  predicate Reports(props: Props, target: P.Target) {
    && props.providerId == Some(target.federationId) && target.federationId != ""
    && props.serverJobId == Some(target.jobId) && target.jobId != ""
    && (props.serverStatus == Some(V.ServerPending) || props.serverStatus == Some(V.ServerSyncing))
  }

  ghost predicate ReportsNothing(props: Props) {
    forall target :: !Reports(props, target)
  }

  /** The hook follows this target: it polls it, or it has seen its end; in neither case is an error shown. */
  predicate Follows(p: P.State, target: P.Target) {
    && p.pollingError.None?
    && if p.terminal == Some(target) then p.active.None? && p.retry.None? && !p.isPolling
       else p.terminal.None? && p.active == Some(target) && p.retry == Some(target) && p.isPolling
  }

  predicate FollowsNothing(p: P.State) {
    && p.active.None? && p.retry.None? && p.terminal.None? && p.pollingError.None? && p.jobStatus.None?
    && !p.isPolling && P.CurrentHandles(p) == {}
  }

  /** The polling effect, when it is due, follows the job that the server reports, and nothing when it reports none;
    * when it is not due, or the card is gone, it leaves the polling hook alone.  A render runs the effect of the
    * properties before it, a remount that of its own. */
  lemma EffectFollowsServer(props: Props, clock: int, events: seq<Event>, event: Event)
    requires event.Flush? || event.Render? || event.Remount?
    ensures var s := Run(Initial(props, clock), events);
            var p, q := s.polling, Step(s, event).polling;
            if if event.Remount? then !p.mounted else p.mounted && s.pollEffectDue then
              && q.mounted
              && (ReportsNothing(s.props) ==> FollowsNothing(q))
              && forall target :: Reports(s.props, target) ==>
                   && Follows(q, target) && (q.terminal.Some? <==> p.terminal == Some(target))
                   && (p.mounted && p.active == Some(target) ==> q == p)
            else q == p
  {
    RequestsRun(props, clock, events);
    var s := Run(Initial(props, clock), events);
    var before := if event.Remount? then RequestEffect(s.(polling := s.polling.(mounted := true)))
                  else if s.requestEffectDue then RequestEffect(s) else s;
    if event.Remount? {
      S.ReachableKeeps(s.polling, P.Remount);
    }
    if before.polling.mounted {
      DueEffect(before);
    }
    hide S.Reachable, PollEffect, FollowsNothing, Follows, Reports, ReportsNothing, Run, P.Step, StartSyncResult,
         StartSettled, ActionResult, PollingHandled;
  }

  lemma DueEffect(s: State)
    requires S.Reachable(s.polling) && s.polling.mounted
    ensures var p, q := s.polling, PollEffect(s).polling;
            && q.mounted
            && (ReportsNothing(s.props) ==> FollowsNothing(q))
            && forall target :: Reports(s.props, target) ==>
                 && Follows(q, target) && (q.terminal.Some? <==> p.terminal == Some(target))
                 && (p.active == Some(target) ==> q == p)
  {
    if ReportsNothing(s.props) {
      NothingReported(s);
    } else {
      var target :| Reports(s.props, target);
      TargetReported(s, target);
      assert forall other :: Reports(s.props, other) ==> other == target;
    }
    hide S.Reachable, PollEffect, FollowsNothing, Follows;
  }

  lemma NothingReported(s: State)
    requires S.Reachable(s.polling) && s.polling.mounted && ReportsNothing(s.props)
    ensures PollEffect(s).polling.mounted && FollowsNothing(PollEffect(s).polling)
  {
    O.Stops(s.polling);
    ResumesIff(s.props);
    hide S.Reachable, P.CurrentHandles, P.StopResult, ResumesServerJob;
  }

  lemma ResumesIff(props: Props)
    ensures ResumesServerJob(props) <==> !ReportsNothing(props)
  {
    if ResumesServerJob(props) {
      assert Reports(props, P.Target(props.providerId.value, props.serverJobId.value));
    }
  }

  lemma TargetReported(s: State, target: P.Target)
    requires S.Reachable(s.polling) && s.polling.mounted && Reports(s.props, target)
    ensures var p, q := s.polling, PollEffect(s).polling;
            && q.mounted && Follows(q, target) && (q.terminal.Some? <==> p.terminal == Some(target))
            && (p.active == Some(target) ==> q == p)
  {
    AlreadyFollowed(s.polling, target);
    O.Starts(s.polling, target);
    hide S.Reachable, S.Inv, P.StartResult, P.CurrentHandles;
  }

  lemma AlreadyFollowed(p: P.State, target: P.Target)
    requires S.Reachable(p)
    ensures p.active == Some(target) || p.terminal == Some(target) ==> Follows(p, target)
    ensures p.active.Some? ==> p.terminal.None?
  {
    S.ReachableInv(p);
    hide S.Reachable;
  }

  // ---------------------------------------------------------------- renders

  predicate InProgress(status: Option<V.ServerStatus>) {
    match status
    case Some(ServerPending) | Some(ServerSyncing) => true
    case _ => false
  }

  /** A render shows its properties at once, after the effects that were due, and makes due those whose dependencies it
    * changes. */
  lemma RenderShows(s: State, props: Props)
    requires s.polling.mounted
    ensures var t := Step(s, Render(props));
            var provider, job := props.providerId != s.props.providerId, props.serverJobId != s.props.serverJobId;
            var progress := InProgress(props.serverStatus) != InProgress(s.props.serverStatus);
            && t.requestEffectDue == provider
            && t.pollEffectDue == (provider || job || progress || props.isGithub != s.props.isGithub)
            && t == Step(s, Flush).(props := props, requestEffectDue := provider, pollEffectDue := t.pollEffectDue)
  {
    FlushRuns(s);
    hide PollEffect, StartSettled, PollingHandled, Remounted, ActionResult, P.Step;
  }

  /** The effects that are due run: the request effect starts a new generation and forgets the pending request, which
    * stays in flight. */
  lemma FlushRuns(s: State)
    requires s.polling.mounted
    ensures var t := Step(s, Flush);
            t == if s.requestEffectDue
                 then s.(requestGeneration := s.requestGeneration + 1, requestPending := false, isStarting := false,
                         requestEffectDue := false, pollEffectDue := false, polling := t.polling)
                 else s.(requestEffectDue := false, pollEffectDue := false, polling := t.polling)
  {
    hide P.StartResult, P.StopResult, StartSettled, PollingHandled, Remounted, ActionResult, Rendered;
  }

  /** An unmounted card does not render, and a remount runs both effects. */
  lemma RemountRunsEffects(s: State, props: Props)
    requires !s.polling.mounted
    ensures Step(s, Render(props)) == s == Step(s, Flush)
    ensures var t := Step(s, Remount);
            t == s.(requestGeneration := s.requestGeneration + 1, requestPending := false, isStarting := false,
                    requestEffectDue := false, pollEffectDue := false, polling := t.polling)
  {
    hide P.StartResult, P.StopResult;
  }

  // ---------------------------------------------------------------- start requests

  /** `startSync` sends one request, for the provider of its render, unless there is none, one is pending, or its render
    * showed a running poll. */
  lemma StartSends(s: State, providerId: Option<string>, isPolling: bool)
    ensures Step(s, StartSync(providerId, isPolling)) ==
            if providerId == None || providerId == Some("") || s.requestPending || isPolling then s
            else s.(requestPending := true, requestGeneration := s.requestGeneration + 1, isStarting := true,
                    nextRequest := s.nextRequest + 1,
                    inFlight := s.inFlight[s.nextRequest :=
                                           StartRequest(s.requestGeneration + 1, providerId.value)])
  {
  }

  /** In every run the answer to the pending request ends it, and a job is polled as that of the provider asked; any
    * other answer, that is of a request of another generation, is dropped. */
  lemma StartIsAnswered(props: Props, clock: int, events: seq<Event>, id: nat, outcome: StartAnswer)
    requires id in Run(Initial(props, clock), events).inFlight
    ensures var s := Run(Initial(props, clock), events);
            var r := s.inFlight[id];
            var dropped := s.(inFlight := s.inFlight - {id});
            && (s.requestPending && CurrentRequests(s) == {id} <==> r.generation == s.requestGeneration)
            && Step(s, SettleStart(id, outcome)) ==
               if r.generation != s.requestGeneration then dropped
               else
                 dropped.(requestPending := false, isStarting := false,
                          polling := match outcome
                                     case JobStarted(jobId) =>
                                       P.Step(s.polling, P.Start(P.Target(r.providerId, jobId)))
                                     case NeedsAuthorization | StartFailed => s.polling)
  {
    PendingIsOneRequest(props, clock, events);
    RequestsRun(props, clock, events);
    var s := Run(Initial(props, clock), events);
    if s.inFlight[id].generation == s.requestGeneration {
      assert CurrentRequests(s) == {id};
    }
    hide P.StartResult, S.Reachable;
  }

  // ---------------------------------------------------------------- announcements and clicks

  predicate IsOver(job: P.Job) {
    job.status == P.Success || job.status == P.PartialSuccess || job.status == P.Failed
  }

  /** In every run the card announces a job, and reloads its data, exactly when the live request of the polling hook is
    * answered with that job, the job is over, and it is of the provider shown. */
  lemma AnnouncesExactly(props: Props, clock: int, events: seq<Event>, event: P.Event)
    requires Drives(event)
    ensures var s := Run(Initial(props, clock), events);
            var moved := s.(polling := P.Step(s.polling, event));
            Step(s, Polling(event)) ==
            match event
            case Settle(handle, Fulfilled(job), _, _) =>
              if O.IsLive(s.polling, handle) && s.props.providerId == Some(job.federationId) && IsOver(job)
              then moved.(notices := s.notices + [job], settled := s.settled + 1)
              else moved
            case _ => moved
  {
    hide P.Step;
  }

  /** A click does nothing for a user who may not edit; else it retries, sends, or reloads as offered. */
  lemma ClickRuns(s: State)
    ensures var offer := V.Show(ViewInput(s)).action;
            Step(s, RunAction) ==
            if !s.props.canEdit then s
            else
              match offer
              case ActRetry => s.(polling := P.Step(s.polling, P.Retry))
              case ActStart => Step(s, StartSync(s.props.providerId, s.polling.isPolling))
              case ActRefresh => s.(settled := s.settled + 1)
              case ActNone => s
  {
    hide V.Show, P.RetryResult;
  }

  /** The card offers a retry exactly for an error, is busy exactly while something runs that it can follow, offers a
    * refresh exactly when the server reports a job in progress without its id, and otherwise a start. */
  lemma OffersExactly(s: State)
    ensures var offer := V.Show(ViewInput(s));
            var p := s.polling;
            var error, running := p.pollingError.Some?, s.isStarting || p.isPolling;
            var server := !(p.jobStatus.Some? && IsOver(p.jobStatus.value)) && InProgress(s.props.serverStatus);
            var known := s.props.serverJobId.Some? && s.props.serverJobId.value != "";
            && (offer.action.ActRetry? <==> error)
            && (offer.isBusy <==> !error && (running || (server && known)))
            && (offer.action.ActNone? <==> offer.isBusy)
            && (offer.action.ActRefresh? <==> !error && !running && server && !known)
            && (offer.kind.KindStarting? <==> !error && s.isStarting)
            && (offer.kind.KindRunning? <==> offer.isBusy && !s.isStarting)
  {
    hide V.PhaseLabel, V.ErrorLabel;
  }

  /** What is offered and how it is shown go together. */
  lemma OfferLooks(s: State)
    ensures var offer := V.Show(ViewInput(s));
            var error := s.polling.pollingError.Some?;
            && (offer.kind.KindUnavailable? <==> error || offer.action.ActRefresh?)
            && (offer.tone.Negative? <==> offer.kind.KindUnavailable? || offer.kind.KindFailed?)
            && (offer.tone.Info? <==> offer.isBusy)
            && (offer.kind.KindFailed? || offer.kind.KindSuccess? || offer.kind.KindIdle? <==> offer.action.ActStart?)
            && (offer.kind.KindIdle? || offer.isBusy || error ==> offer.detail.None?)
            && (offer.detail.Some? ==> offer.detail.value != "")
  {
    hide V.PhaseLabel, V.ErrorLabel;
  }

  /** When a start is offered the job that was followed decides what is shown, and without one the server. */
  lemma ShownOutcome(s: State)
    requires V.Show(ViewInput(s)).action.ActStart?
    ensures var offer := V.Show(ViewInput(s));
            match s.polling.jobStatus
            case Some(Job(_, Success, _, _)) => offer.kind.KindSuccess? && offer.caption == "Sync completed"
            case Some(Job(_, PartialSuccess, _, _)) =>
              offer.kind.KindSuccess? && offer.caption == "Sync partially completed"
            case Some(Job(_, Failed, _, error)) =>
              && offer.kind.KindFailed? && offer.caption == "Sync failed"
              && (offer.detail == Some(error) || (error == "" && offer.detail == V.OrNull(s.props.syncMessage)))
            case _ =>
              match s.props.serverStatus
              case Some(ServerPartialSuccess) =>
                && offer.kind.KindSuccess? && offer.caption == "Sync partially completed"
                && offer.detail == V.OrNull(s.props.syncMessage)
              case Some(ServerFailed) =>
                && offer.kind.KindFailed? && offer.caption == "Error"
                && offer.detail == V.OrNull(s.props.syncMessage)
              case _ => offer.kind.KindIdle? && offer.caption == "Connected"
  {
  }

  const PHASES: map<string, string> :=
    map["queued" := "Starting sync...", "downloading" := "Downloading repository...",
        "extracting" := "Extracting repository...", "applying" := "Applying changes...",
        "syncing_vectors" := "Updating search index...", "completed" := "Sync completed", "failed" := "Sync failed"]

  /** What is shown while no start is offered: the error, or that a sync starts, or the phase of the job polled. */
  lemma CaptionsExactly(s: State)
    requires !V.Show(ViewInput(s)).action.ActStart?
    ensures var offer := V.Show(ViewInput(s));
            match s.polling.pollingError
            case Some(TimedOut) => offer.caption == "Sync is taking longer than expected"
            case Some(InvalidStatus) => offer.caption == "Unsupported sync status"
            case Some(RequestFailed) => offer.caption == "Status unavailable"
            case None =>
              if s.isStarting then offer.caption == "Starting sync..."
              else if s.polling.isPolling then
                match s.polling.jobStatus
                case Some(Job(_, _, Some(phase), _)) =>
                  offer.caption == if phase in PHASES then PHASES[phase] else "Syncing..."
                case _ => offer.caption == "Syncing..."
              else if offer.isBusy then offer.caption == "Syncing..."
              else offer.caption == "Sync task information unavailable"
  {
  }
}
