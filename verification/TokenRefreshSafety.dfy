/** Single flight, bounded retries, and termination of the token refresh protocol. */
module TokenRefreshSafety {
  import opened Options
  import opened TokenRefresh

  /** One call: a recovered call was sent once before it waited, and resends only with the retry flag. */
  predicate CallOk(call: Call, refreshes: nat) {
    match call.phase
    case AtBarrier => call.sends == if call.recovered then 1 else 0
    case OnWire => call.sends == if call.recovered then 2 else 1
    case Waiting(r) => call.recovered && call.sends == 1 && r < refreshes
    case Done(_) => call.sends <= if call.recovered then 2 else 1
  }

  predicate RetryFlagged(call: Call) {
    call.recovered && (call.phase.AtBarrier? || call.phase.OnWire?) ==> call.config.isRetry
  }

  function Recovered(calls: seq<Call>): nat {
    if calls == [] then 0
    else Recovered(calls[..|calls| - 1]) + if calls[|calls| - 1].recovered then 1 else 0
  }

  predicate CallsOk(calls: seq<Call>, refreshes: nat) {
    forall i :: 0 <= i < |calls| ==> CallOk(calls[i], refreshes) && RetryFlagged(calls[i])
  }

  /** Exactly the refresh named by `current` is unsettled. */
  predicate OnlyCurrentOpen(refreshes: seq<Refresh>, current: Option<nat>, calls: nat) {
    && (forall r :: 0 <= r < |refreshes| ==>
          (refreshes[r].phase.Settled? <==> current != Some(r)) && refreshes[r].trigger < calls)
    && (forall r :: 0 <= r < |refreshes| ==> refreshes[r].config == RECOVERY_CONFIG && !refreshes[r].phase.Stuck?)
    && (current.Some? ==> current.value < |refreshes|)
  }

  predicate Counts(s: State) {
    && |s.refreshes| <= Recovered(s.calls)
    && s.logouts <= |s.refreshes|
    && (CurrentIs(s, Posting) ==> s.logouts < |s.refreshes|)
    && s.logouts == s.redirects + if CurrentIs(s, LoggingOut) then 1 else 0
  }

  ghost predicate Inv(s: State) {
    && CallsOk(s.calls, |s.refreshes|)
    && OnlyCurrentOpen(s.refreshes, s.current, |s.calls|)
    && Counts(s)
  }

  lemma {:induction false} RecoveredUpdate(calls: seq<Call>, i: nat, call: Call)
    requires i < |calls|
    ensures Recovered(calls[i := call]) + (if calls[i].recovered then 1 else 0) ==
            Recovered(calls) + (if call.recovered then 1 else 0)
  {
    var updated := calls[i := call];
    if i < |calls| - 1 {
      RecoveredUpdate(calls[..|calls| - 1], i, call);
      assert updated[..|calls| - 1] == calls[..|calls| - 1][i := call];
    } else {
      assert updated[..|calls| - 1] == calls[..|calls| - 1];
    }
  }

  lemma {:induction false} RecoveredBound(calls: seq<Call>)
    ensures Recovered(calls) <= |calls|
  {
    if calls != [] {
      RecoveredBound(calls[..|calls| - 1]);
    }
  }

  lemma CallsStep(s: State, event: Event)
    requires Inv(s) && Enabled(s, event)
    ensures CallsOk(Step(s, event).calls, |Step(s, event).refreshes|)
  {
    forall i | 0 <= i < |Step(s, event).calls|
      ensures CallOk(Step(s, event).calls[i], |Step(s, event).refreshes|) && RetryFlagged(Step(s, event).calls[i])
    {
      assert i < |s.calls| ==> CallOk(s.calls[i], |s.refreshes|) && RetryFlagged(s.calls[i]);
    }
  }

  lemma RefreshesStep(s: State, event: Event)
    requires Inv(s) && Enabled(s, event)
    ensures OnlyCurrentOpen(Step(s, event).refreshes, Step(s, event).current, |Step(s, event).calls|)
  {
    hide CallsOk, Counts;
    if event.Respond? {
      RespondRefreshes(s, event.call, event.reply);
      hide *;
    } else if event.RefreshReply? || event.LogoutReply? || event.Finally? {
      hide Intercepted, Resumed, SetPhase;
    } else {
      assert Step(s, event).refreshes == s.refreshes && Step(s, event).current == s.current;
    }
  }

  lemma RespondRefreshes(s: State, i: nat, reply: Reply)
    requires OnlyCurrentOpen(s.refreshes, s.current, |s.calls|) && i < |s.calls|
    ensures var t := Intercepted(s, i, reply); OnlyCurrentOpen(t.refreshes, t.current, |t.calls|)
  {
  }

  lemma CountsStep(s: State, event: Event)
    requires Inv(s) && Enabled(s, event)
    ensures Counts(Step(s, event))
  {
    hide CallsOk, Intercepted;
    var t := Step(s, event);
    match event
    case Issue(config) => assert t.calls[..|t.calls| - 1] == s.calls; return;
    case PassBarrier(i) => RecoveredUpdate(s.calls, i, t.calls[i]); return;
    case BarrierRejects(i) => RecoveredUpdate(s.calls, i, t.calls[i]); return;
    case Respond(i, reply) => RespondCounts(s, i, reply); return;
    case RefreshReply(_, _) => return;
    case LogoutReply(_) => return;
    case Finally => return;
    case Resume(i) => RecoveredUpdate(s.calls, i, t.calls[i]); return;
  }

  lemma RespondCounts(s: State, i: nat, reply: Reply)
    requires Inv(s) && Enabled(s, Respond(i, reply))
    ensures Counts(Intercepted(s, i, reply))
  {
    var t := Intercepted(s, i, reply);
    RecoveredUpdate(s.calls, i, t.calls[i]);
    assert CallOk(s.calls[i], |s.refreshes|) && RetryFlagged(s.calls[i]);
    if Recovers(s.calls[i].config, reply) {
      assert !s.calls[i].recovered;
    }
  }

  lemma StepKeeps(s: State, event: Event)
    requires Inv(s) && Enabled(s, event)
    ensures Inv(Step(s, event))
  {
    CallsStep(s, event);
    RefreshesStep(s, event);
    CountsStep(s, event);
  }

  lemma {:induction false} RunKeeps(events: seq<Event>)
    requires ValidRun(events)
    ensures Inv(Run(events))
  {
    if events != [] {
      RunKeeps(events[..|events| - 1]);
      StepKeeps(Run(events[..|events| - 1]), events[|events| - 1]);
    }
  }

  // ---------------------------------------------------------------- which refresh did what

  /** The refresh that `trigger` started has failed. */
  ghost predicate FailedFor(refreshes: seq<Refresh>, trigger: nat) {
    exists r :: 0 <= r < |refreshes| && refreshes[r].phase == Settled(false) && refreshes[r].trigger == trigger
  }

  ghost predicate SomeSucceeded(refreshes: seq<Refresh>) {
    exists r :: 0 <= r < |refreshes| && refreshes[r].phase == Settled(true)
  }

  /** A lost call lost a refresh that failed, and a resent one had a refresh that succeeded. */
  ghost predicate Traced(call: Call, refreshes: seq<Refresh>) {
    && (call.phase.Done? && call.phase.outcome.RefreshLost? ==>
          call.recovered && call.sends == 1 && FailedFor(refreshes, call.phase.outcome.trigger))
    && (call.recovered && (call.phase.AtBarrier? || call.sends == 2) ==> SomeSucceeded(refreshes))
  }

  ghost predicate AllTraced(s: State) {
    forall i :: 0 <= i < |s.calls| ==> Traced(s.calls[i], s.refreshes)
  }

  /** Every refresh was started by a call of its own, which got a recoverable 401. */
  ghost predicate OwnTriggers(s: State) {
    && (forall r :: 0 <= r < |s.refreshes| ==>
        s.refreshes[r].trigger < |s.calls| && s.calls[s.refreshes[r].trigger].recovered)
    && (forall r, q :: 0 <= r < q < |s.refreshes| ==> s.refreshes[r].trigger != s.refreshes[q].trigger)
  }

  /** What has settled stays as it is. */
  lemma SettledStays(s: State, event: Event)
    requires Inv(s) && Enabled(s, event)
    ensures |s.refreshes| <= |Step(s, event).refreshes|
    ensures forall r :: 0 <= r < |s.refreshes| && s.refreshes[r].phase.Settled? ==>
        Step(s, event).refreshes[r] == s.refreshes[r]
  {
  }

  lemma TracedStays(s: State, event: Event, call: Call)
    requires Inv(s) && Enabled(s, event) && Traced(call, s.refreshes)
    ensures Traced(call, Step(s, event).refreshes)
  {
    SettledStays(s, event);
    hide Step, Inv, Enabled;
    var after := Step(s, event).refreshes;
    if call.phase.Done? && call.phase.outcome.RefreshLost? {
      var r :| 0 <= r < |s.refreshes| && s.refreshes[r].phase == Settled(false) &&
          s.refreshes[r].trigger == call.phase.outcome.trigger;
      assert after[r] == s.refreshes[r];
    }
    if SomeSucceeded(s.refreshes) {
      var r :| 0 <= r < |s.refreshes| && s.refreshes[r].phase == Settled(true);
      assert after[r] == s.refreshes[r];
    }
  }

  lemma StepTraced(s: State, event: Event)
    requires Inv(s) && Enabled(s, event) && AllTraced(s)
    ensures AllTraced(Step(s, event))
  {
    var t := Step(s, event);
    forall i | 0 <= i < |t.calls| ensures Traced(t.calls[i], t.refreshes) {
      if i < |s.calls| {
        assert CallOk(s.calls[i], |s.refreshes|) && RetryFlagged(s.calls[i]);
        TracedStays(s, event, s.calls[i]);
        if t.calls[i] != s.calls[i] {
          TracedUpdate(s, event, i);
        }
      }
    }
  }

  lemma TracedUpdate(s: State, event: Event, i: nat)
    requires Inv(s) && Enabled(s, event) && i < |s.calls| && Step(s, event).calls[i] != s.calls[i]
    requires Traced(s.calls[i], s.refreshes) && Traced(s.calls[i], Step(s, event).refreshes)
    ensures Traced(Step(s, event).calls[i], Step(s, event).refreshes)
  {
    assert CallOk(s.calls[i], |s.refreshes|) && RetryFlagged(s.calls[i]);
    if event.Resume? {
      var r := s.calls[i].phase.refresh;
      assert Step(s, event).refreshes[r] == s.refreshes[r];
    }
  }

  lemma StepOwnTriggers(s: State, event: Event)
    requires Inv(s) && Enabled(s, event) && OwnTriggers(s)
    ensures OwnTriggers(Step(s, event))
  {
    if event.Respond? {
      RespondOwnTriggers(s, event.call, event.reply);
    } else {
      TriggersStay(s, event);
      hide Step, Enabled, Inv;
    }
  }

  /** Only an answer starts a refresh, and nothing changes who started one or who recovered. */
  lemma TriggersStay(s: State, event: Event)
    requires Enabled(s, event) && !event.Respond?
    ensures |Step(s, event).refreshes| == |s.refreshes| && |s.calls| <= |Step(s, event).calls|
    ensures forall r :: 0 <= r < |s.refreshes| ==> Step(s, event).refreshes[r].trigger == s.refreshes[r].trigger
    ensures forall i :: 0 <= i < |s.calls| ==> Step(s, event).calls[i].recovered == s.calls[i].recovered
  {
  }

  lemma RespondOwnTriggers(s: State, i: nat, reply: Reply)
    requires Inv(s) && Enabled(s, Respond(i, reply)) && OwnTriggers(s)
    ensures OwnTriggers(Intercepted(s, i, reply))
  {
    assert CallOk(s.calls[i], |s.refreshes|) && RetryFlagged(s.calls[i]);
  }

  lemma {:induction false} RunTraced(events: seq<Event>)
    requires ValidRun(events)
    ensures AllTraced(Run(events)) && OwnTriggers(Run(events))
  {
    if events != [] {
      var before := events[..|events| - 1];
      RunTraced(before);
      RunKeeps(before);
      StepTraced(Run(before), events[|events| - 1]);
      StepOwnTriggers(Run(before), events[|events| - 1]);
    }
  }

  // ---------------------------------------------------------------- main results

  /** At any moment of any run at most one refresh exchange, its logout included, is unsettled, and it
    * is the one the module-level promise names. */
  lemma OneRefreshInFlight(events: seq<Event>, a: nat, b: nat)
    requires ValidRun(events)
    requires a < |Run(events).refreshes| && b < |Run(events).refreshes|
    requires !Run(events).refreshes[a].phase.Settled? && !Run(events).refreshes[b].phase.Settled?
    ensures a == b && Run(events).current == Some(a)
  {
    RunKeeps(events);
  }

  /** Refresh posts never outnumber the calls whose first attempt got a recoverable 401, logouts never
    * outnumber refresh posts, and every logout but one still in flight has led to the login page. */
  lemma RefreshesAreEarned(events: seq<Event>)
    requires ValidRun(events)
    ensures var s := Run(events);
            && s.logouts <= |s.refreshes| <= Recovered(s.calls) <= |s.calls|
            && s.redirects <= s.logouts <= s.redirects + 1
            && (s.current.None? ==> s.redirects == s.logouts)
  {
    RunKeeps(events);
    RecoveredBound(Run(events).calls);
  }

  /** Whatever the refresh and logout posts are answered, a 401 included, the interceptor never recovers
    * them: neither ever waits for the promise it is part of. */
  lemma PostsNeverRecover(events: seq<Event>, r: nat)
    requires ValidRun(events) && r < |Run(events).refreshes|
    ensures !Run(events).refreshes[r].phase.Stuck?
  {
    RunKeeps(events);
  }

  /** No logical request is sent more than twice, a second time only when a refresh had succeeded, and the second
    * answer can start no recovery. */
  lemma SentAtMostTwice(events: seq<Event>, i: nat)
    requires ValidRun(events) && i < |Run(events).calls|
    ensures var call := Run(events).calls[i];
            && call.sends <= 2
            && (call.sends == 2 ==> call.recovered && SomeSucceeded(Run(events).refreshes))
            && (call.sends == 2 && call.phase.OnWire? ==> call.config.isRetry && !Recovers(call.config, Unauthorized))
  {
    RunKeeps(events);
    RunTraced(events);
    var call := Run(events).calls[i];
    assert CallOk(call, |Run(events).refreshes|) && RetryFlagged(call) && Traced(call, Run(events).refreshes);
  }

  /** Each refresh belongs to one call, which got a recoverable 401 itself; no call starts two. */
  lemma OneRefreshPerTrigger(events: seq<Event>, a: nat, b: nat)
    requires ValidRun(events) && a < |Run(events).refreshes| && b < |Run(events).refreshes|
    requires Run(events).refreshes[a].trigger == Run(events).refreshes[b].trigger
    ensures a == b
    ensures Run(events).refreshes[a].trigger < |Run(events).calls|
    ensures Run(events).calls[Run(events).refreshes[a].trigger].recovered
  {
    RunTraced(events);
  }

  // ---------------------------------------------------------------- termination

  predicate Recoverable(config: Config) {
    Recovers(config, Unauthorized)
  }

  /** Callbacks a call can still cause, those of the refresh it may start included. */
  function CallWork(call: Call): nat {
    match call.phase
    case Done(_) => 0
    case OnWire => if Recoverable(call.config) then 7 else 1
    case AtBarrier => if Recoverable(call.config) then 8 else 2
    case Waiting(_) => 3
  }

  function RefreshWork(refresh: Refresh): nat {
    match refresh.phase
    case Posting => 3
    case LoggingOut => 2
    case Closing(_) => 1
    case Settled(_) => 0
    case Stuck => 0
  }

  function CallsWork(calls: seq<Call>): nat {
    if calls == [] then 0 else CallsWork(calls[..|calls| - 1]) + CallWork(calls[|calls| - 1])
  }

  function RefreshesWork(refreshes: seq<Refresh>): nat {
    if refreshes == [] then 0 else RefreshesWork(refreshes[..|refreshes| - 1]) + RefreshWork(refreshes[|refreshes| - 1])
  }

  function Work(s: State): nat {
    CallsWork(s.calls) + RefreshesWork(s.refreshes)
  }

  lemma {:induction false} CallsWorkUpdate(calls: seq<Call>, i: nat, call: Call)
    requires i < |calls|
    ensures CallsWork(calls[i := call]) + CallWork(calls[i]) == CallsWork(calls) + CallWork(call)
  {
    var updated := calls[i := call];
    if i < |calls| - 1 {
      CallsWorkUpdate(calls[..|calls| - 1], i, call);
      assert updated[..|calls| - 1] == calls[..|calls| - 1][i := call];
    } else {
      assert updated[..|calls| - 1] == calls[..|calls| - 1];
    }
  }

  lemma {:induction false} RefreshesWorkUpdate(refreshes: seq<Refresh>, i: nat, refresh: Refresh)
    requires i < |refreshes|
    ensures RefreshesWork(refreshes[i := refresh]) + RefreshWork(refreshes[i]) ==
            RefreshesWork(refreshes) + RefreshWork(refresh)
  {
    var updated := refreshes[i := refresh];
    if i < |refreshes| - 1 {
      RefreshesWorkUpdate(refreshes[..|refreshes| - 1], i, refresh);
      assert updated[..|refreshes| - 1] == refreshes[..|refreshes| - 1][i := refresh];
    } else {
      assert updated[..|refreshes| - 1] == refreshes[..|refreshes| - 1];
    }
  }

  lemma NewCallWork(calls: seq<Call>, call: Call)
    ensures CallsWork(calls + [call]) == CallsWork(calls) + CallWork(call)
  {
    assert (calls + [call])[..|calls|] == calls;
  }

  lemma RespondWork(s: State, i: nat, reply: Reply)
    requires Enabled(s, Respond(i, reply))
    ensures Work(Intercepted(s, i, reply)) < Work(s)
  {
    var t := Intercepted(s, i, reply);
    CallsWorkUpdate(s.calls, i, t.calls[i]);
    if t.refreshes != s.refreshes {
      assert t.refreshes[..|t.refreshes| - 1] == s.refreshes;
    }
  }

  /** Every callback uses up work; only a new call brings some, at most eight callbacks' worth. */
  lemma StepWork(s: State, event: Event)
    requires Enabled(s, event)
    ensures !event.Issue? ==> Work(Step(s, event)) < Work(s)
    ensures event.Issue? ==> Work(Step(s, event)) <= Work(s) + 8
  {
    hide CallsWork, RefreshesWork, Intercepted;
    var t := Step(s, event);
    match event
    case Issue(config) =>
      NewCallWork(s.calls, t.calls[|s.calls|]);
      return;
    case PassBarrier(i) => CallsWorkUpdate(s.calls, i, t.calls[i]); return;
    case BarrierRejects(i) => CallsWorkUpdate(s.calls, i, t.calls[i]); return;
    case Respond(i, reply) => RespondWork(s, i, reply); return;
    case RefreshReply(_, _) => RefreshesWorkUpdate(s.refreshes, s.current.value, t.refreshes[s.current.value]); return;
    case LogoutReply(_) => RefreshesWorkUpdate(s.refreshes, s.current.value, t.refreshes[s.current.value]); return;
    case Finally => RefreshesWorkUpdate(s.refreshes, s.current.value, t.refreshes[s.current.value]); return;
    case Resume(i) => CallsWorkUpdate(s.calls, i, t.calls[i]);
  }

  function Issues(events: seq<Event>): nat {
    if events == [] then 0
    else Issues(events[..|events| - 1]) + if events[|events| - 1].Issue? then 1 else 0
  }

  /** However calls and replies interleave, `n` calls cause at most `8 n` callbacks. */
  lemma {:induction false} ExchangeTerminates(events: seq<Event>)
    requires ValidRun(events)
    ensures |events| - Issues(events) + Work(Run(events)) <= 8 * Issues(events)
  {
    if events != [] {
      ExchangeTerminates(events[..|events| - 1]);
      StepWork(Run(events[..|events| - 1]), events[|events| - 1]);
    }
  }

  predicate Quiescent(s: State) {
    && s.current.None?
    && (forall i :: 0 <= i < |s.calls| ==> s.calls[i].phase.Done?)
  }

  /** Nobody waits for ever: unless every call is answered, some callback other than a new call is due. */
  lemma NoStuckCaller(events: seq<Event>) returns (next: Event)
    requires ValidRun(events) && !Quiescent(Run(events))
    ensures Enabled(Run(events), next) && !next.Issue?
  {
    RunKeeps(events);
    var s := Run(events);
    if s.current.Some? {
      var phase := s.refreshes[s.current.value].phase;
      next := if phase.Posting? then RefreshReply(Succeeded, false)
              else if phase.LoggingOut? then LogoutReply(Succeeded)
              else Finally;
    } else {
      var i: nat :| i < |s.calls| && !s.calls[i].phase.Done?;
      next := if s.calls[i].phase.AtBarrier? then PassBarrier(i)
              else if s.calls[i].phase.OnWire? then Respond(i, Succeeded)
              else Resume(i);
    }
  }

  lemma RunOnce(events: seq<Event>, event: Event)
    requires ValidRun(events) && Enabled(Run(events), event)
    ensures ValidRun(events + [event]) && Run(events + [event]) == Step(Run(events), event)
  {
    assert (events + [event])[..|events|] == events;
  }

  /** Two calls sent, and both answered 401. */
  lemma TwoUnauthorized() returns (events: seq<Event>)
    ensures ValidRun(events)
    ensures var config := Config(false, false, false);
            Run(events) == State([Call(config, Waiting(0), 1, true), Call(config, Waiting(0), 1, true)],
                                 [Refresh(Posting, 0, RECOVERY_CONFIG)], Some(0), 0, 0)
  {
    var config := Config(false, false, false);
    events := [];
    RunOnce(events, Issue(config));
    events := events + [Issue(config)];
    RunOnce(events, Issue(config));
    events := events + [Issue(config)];
    RunOnce(events, PassBarrier(0));
    events := events + [PassBarrier(0)];
    RunOnce(events, PassBarrier(1));
    events := events + [PassBarrier(1)];
    RunOnce(events, Respond(0, Unauthorized));
    events := events + [Respond(0, Unauthorized)];
    RunOnce(events, Respond(1, Unauthorized));
    events := events + [Respond(1, Unauthorized)];
  }

  /** A call that waited for a refresh of another call and lost it is rejected with that call's 401 payload: two
    * calls, both answered 401, and a refresh that fails on the login page. */
  lemma WaiterGetsAnothersPayload() returns (events: seq<Event>)
    ensures ValidRun(events)
    ensures |Run(events).calls| == 2 && Run(events).calls[1].phase == Done(RefreshLost(0))
  {
    events := TwoUnauthorized();
    RunOnce(events, RefreshReply(Unauthorized, true));
    events := events + [RefreshReply(Unauthorized, true)];
    RunOnce(events, Finally);
    events := events + [Finally];
    RunOnce(events, Resume(1));
    events := events + [Resume(1)];
  }

  /** What becomes of call `i` once it waits: `own` says whether the refresh it waits for is its own. */
  predicate Blames(s: State, i: nat, own: bool)
    requires i < |s.calls|
  {
    match s.calls[i].phase
    case Waiting(r) => r < |s.refreshes| && (s.refreshes[r].trigger == i <==> own)
    case Done(outcome) => outcome.RefreshLost? ==> (outcome.trigger == i <==> own)
    case _ => s.calls[i].config.isRetry
  }

  lemma BlamesStep(s: State, event: Event, i: nat, own: bool)
    requires Inv(s) && Enabled(s, event) && i < |s.calls| && Blames(s, i, own)
    ensures i < |Step(s, event).calls| && Blames(Step(s, event), i, own)
  {
    hide CallsOk, Counts, Inv;
    if event.Respond? {
      hide RefreshAnswered, LogoutAnswered, FinallyRun, Resumed;
    } else if event.RefreshReply? || event.LogoutReply? || event.Finally? {
      TriggersStay(s, event);
      assert Step(s, event).calls == s.calls;
      hide Step;
    } else {
      assert Step(s, event).refreshes == s.refreshes;
    }
  }

  lemma {:induction false} BlamesRun(before: seq<Event>, post: seq<Event>, i: nat, own: bool)
    requires ValidRun(before + post) && ValidRun(before) && i < |Run(before).calls| && Blames(Run(before), i, own)
    ensures i < |Run(before + post).calls| && Blames(Run(before + post), i, own)
  {
    if post == [] {
      assert before + post == before;
    } else {
      var init := post[..|post| - 1];
      assert (before + post)[..|before + post| - 1] == before + init;
      BlamesRun(before, init, i, own);
      RunKeeps(before + init);
      BlamesStep(Run(before + init), post[|post| - 1], i, own);
    }
  }

  lemma {:induction false} ValidPrefix(events: seq<Event>, k: nat)
    requires ValidRun(events) && k <= |events|
    ensures ValidRun(events[..k])
  {
    if k < |events| {
      ValidPrefix(events[..|events| - 1], k);
      assert events[..|events| - 1][..k] == events[..k];
    } else {
      assert events[..k] == events;
    }
  }

  /** A call that gets a recoverable 401 and in the end loses its refresh is given its own 401 payload exactly
    * when no refresh was in flight as its 401 arrived; otherwise the payload of the call that had started it. */
  lemma LossBlamesSelfIff(pre: seq<Event>, i: nat, post: seq<Event>)
    requires ValidRun(pre + [Respond(i, Unauthorized)] + post)
    requires ValidRun(pre) && i < |Run(pre).calls| && Recovers(Run(pre).calls[i].config, Unauthorized)
    ensures var s := Run(pre + [Respond(i, Unauthorized)] + post);
            i < |s.calls| &&
            (s.calls[i].phase.Done? && s.calls[i].phase.outcome.RefreshLost? ==>
               (s.calls[i].phase.outcome.trigger == i <==> Run(pre).current.None?))
  {
    var event := Respond(i, Unauthorized);
    var all := pre + [event] + post;
    var before := pre + [event];
    ValidPrefix(all, |before|);
    assert all[..|before|] == before && before[..|before| - 1] == pre;
    RunKeeps(pre);
    RunTraced(pre);
    var s := Run(pre);
    assert CallOk(s.calls[i], |s.refreshes|) && RetryFlagged(s.calls[i]);
    assert Blames(Run(before), i, s.current.None?);
    BlamesRun(before, post, i, s.current.None?);
  }

  /** In every run a call that lost a refresh was sent once, and is given the 401 payload of the call that started
    * that refresh, which did fail. */
  lemma RefreshLossBlamesTrigger(events: seq<Event>, i: nat)
    requires ValidRun(events) && i < |Run(events).calls|
    requires Run(events).calls[i].phase.Done? && Run(events).calls[i].phase.outcome.RefreshLost?
    ensures var s := Run(events);
            var trigger := s.calls[i].phase.outcome.trigger;
            && s.calls[i].recovered && s.calls[i].sends == 1
            && FailedFor(s.refreshes, trigger)
            && trigger < |s.calls| && s.calls[trigger].recovered
  {
    RunTraced(events);
    var s := Run(events);
    assert Traced(s.calls[i], s.refreshes);
    var r :| 0 <= r < |s.refreshes| && s.refreshes[r].phase == Settled(false) &&
        s.refreshes[r].trigger == s.calls[i].phase.outcome.trigger;
  }
}
