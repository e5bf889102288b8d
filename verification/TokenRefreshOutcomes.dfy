/** How every call and every refresh ends, told by the replies that arrived and the flags of the calls alone. */
module TokenRefreshOutcomes {
  import opened Options
  import opened TokenRefresh
  import opened TokenRefreshSafety

  // ---------------------------------------------------------------- refreshes

  /** What happened to refresh `r`: the events of the shared refresh that came while the promise was its. */
  function Story(events: seq<Event>, r: nat): seq<Event>
    requires ValidRun(events)
  {
    if events == [] then []
    else
      var init, last := events[..|events| - 1], events[|events| - 1];
      Story(init, r) +
      if Run(init).current == Some(r) && (last.RefreshReply? || last.LogoutReply? || last.Finally?) then [last] else []
  }

  predicate IsFailure(reply: Reply) {
    reply == Unauthorized || reply == OtherError
  }

  /** The post was answered, and so decided the refresh: it succeeded; or it failed, and but for the login page the
    * session was logged out and the login page opened. */
  predicate Decides(story: seq<Event>, ok: bool) {
    if ok then
      |story| == 1 && story[0].RefreshReply? && (story[0].reply == Succeeded || story[0].reply == Cancelled)
    else
      || (|story| == 1 && story[0].RefreshReply? && IsFailure(story[0].reply) && story[0].onLoginPage)
      || (|story| == 2 && FailsElsewhere(story[0]) && EndsLogout(story[1]))
  }

  predicate Tells(story: seq<Event>, phase: RefreshPhase) {
    match phase
    case Posting => story == []
    case LoggingOut => |story| == 1 && FailsElsewhere(story[0])
    case Closing(ok) => Decides(story, ok)
    case Settled(ok) => |story| > 1 && story[|story| - 1] == Finally && Decides(story[..|story| - 1], ok)
    case Stuck => false
  }

  lemma {:induction false} NoStoryYet(events: seq<Event>, r: nat)
    requires ValidRun(events) && r >= |Run(events).refreshes|
    ensures Story(events, r) == []
  {
    if events != [] {
      var init := events[..|events| - 1];
      RunKeeps(init);
      SettledStays(Run(init), events[|events| - 1]);
      NoStoryYet(init, r);
    }
  }

  /** In every run a refresh has succeeded exactly when its post was answered with success or cancelled, and has failed
    * exactly when it was answered with anything else; then one logout and one redirect followed, or none on the login
    * page. */
  lemma {:induction false} RefreshFollowsItsStory(events: seq<Event>, r: nat)
    requires ValidRun(events) && r < |Run(events).refreshes|
    ensures Tells(Story(events, r), Run(events).refreshes[r].phase)
  {
    var init, last := events[..|events| - 1], events[|events| - 1];
    var s := Run(init);
    RunKeeps(init);
    if r < |s.refreshes| {
      RefreshFollowsItsStory(init, r);
      StoryStep(s, last, r, Story(init, r));
    } else {
      NoStoryYet(init, r);
      NewRefresh(s, last, r);
    }
  }

  lemma NewRefresh(s: State, event: Event, r: nat)
    requires Inv(s) && Enabled(s, event) && |s.refreshes| <= r < |Step(s, event).refreshes|
    ensures Step(s, event).refreshes[r].phase == Posting && s.current == None
  {
  }

  lemma StoryStep(s: State, event: Event, r: nat, story: seq<Event>)
    requires Inv(s) && Enabled(s, event) && r < |s.refreshes| && Tells(story, s.refreshes[r].phase)
    ensures r < |Step(s, event).refreshes|
    ensures Tells(story + if s.current == Some(r) && (event.RefreshReply? || event.LogoutReply? || event.Finally?)
                          then [event] else [],
                  Step(s, event).refreshes[r].phase)
  {
    SettledStays(s, event);
  }

  predicate FailsElsewhere(event: Event) {
    event.RefreshReply? && IsFailure(event.reply) && !event.onLoginPage
  }

  predicate EndsLogout(event: Event) {
    event.LogoutReply?
  }

  function CountOf(events: seq<Event>, counts: Event -> bool): nat {
    if events == [] then 0
    else CountOf(events[..|events| - 1], counts) + if counts(events[|events| - 1]) then 1 else 0
  }

  /** In every run there is one logout for each refresh post that failed off the login page, and one redirect for each
    * logout that was answered, however it was answered. */
  lemma {:induction false} LogoutsFollowFailures(events: seq<Event>)
    requires ValidRun(events)
    ensures Run(events).logouts == CountOf(events, FailsElsewhere)
    ensures Run(events).redirects == CountOf(events, EndsLogout)
  {
    if events != [] {
      LogoutsFollowFailures(events[..|events| - 1]);
      RunKeeps(events[..|events| - 1]);
      CountersStep(Run(events[..|events| - 1]), events[|events| - 1]);
    }
  }

  lemma CountersStep(s: State, event: Event)
    requires Inv(s) && Enabled(s, event)
    ensures Step(s, event).logouts ==
            s.logouts + if FailsElsewhere(event) then 1 else 0
    ensures Step(s, event).redirects == s.redirects + if EndsLogout(event) then 1 else 0
  {
  }

  // ---------------------------------------------------------------- calls

  /** The flags with which a 401 can be recovered from. */
  predicate Unflagged(config: Config) {
    config == Config(false, false, false)
  }

  function WithCall(s: State, i: nat, call: Call): State
    requires i < |s.calls|
  {
    s.(calls := s.calls[i := call])
  }

  /** An answer is delivered, turned into the cancel notice or handed on as an error; but a 401 without any of the three
    * flags makes the call wait for the refresh in flight, or for one that it starts. */
  lemma RepliesMean(events: seq<Event>, i: nat, reply: Reply)
    requires ValidRun(events) && Enabled(Run(events), Respond(i, reply))
    ensures var s := Run(events);
            var t := Step(s, Respond(i, reply));
            var call := s.calls[i];
            match reply
            case Succeeded => t == WithCall(s, i, call.(phase := Done(Delivered)))
            case Cancelled => t == WithCall(s, i, call.(phase := Done(CancelNotice)))
            case OtherError => t == WithCall(s, i, call.(phase := Done(ErrorReply)))
            case Unauthorized =>
              if !Unflagged(call.config) then t == WithCall(s, i, call.(phase := Done(ErrorReply)))
              else
                match s.current
                case Some(r) => t == WithCall(s, i, call.(phase := Waiting(r), recovered := true))
                case None =>
                  t == WithCall(s, i, call.(phase := Waiting(|s.refreshes|), recovered := true)).(
                       current := Some(|s.refreshes|),
                       refreshes := s.refreshes + [Refresh(Posting, i, Config(false, true, false))])
  {
    hide Run, ValidRun;
  }

  /** A waiter of a refresh whose post was answered with success, or cancelled, is sent back to the barrier with the
    * retry flag and its other flags kept; a waiter of any other is rejected with the payload of the call that started
    * that refresh. */
  lemma WaitersMean(events: seq<Event>, i: nat)
    requires ValidRun(events) && Enabled(Run(events), Resume(i))
    ensures var s := Run(events);
            var call := s.calls[i];
            var r := call.phase.refresh;
            var story := Story(events, r);
            && story != [] && story[0].RefreshReply?
            && Step(s, Resume(i)) ==
               WithCall(s, i, if story[0].reply == Succeeded || story[0].reply == Cancelled
                              then call.(phase := AtBarrier, config := call.config.(isRetry := true))
                              else call.(phase := Done(RefreshLost(s.refreshes[r].trigger))))
  {
    RefreshFollowsItsStory(events, Run(events).calls[i].phase.refresh);
    hide Run, ValidRun, Story;
  }

  /** The remaining events of a call: it waits at the barrier before it is sent, each time it is sent. */
  lemma SendsMean(s: State, i: nat, config: Config)
    ensures Step(s, Issue(config)) == s.(calls := s.calls + [Call(config, AtBarrier, 0, false)])
    ensures i < |s.calls| && s.calls[i].phase == AtBarrier ==>
              var call := s.calls[i];
              && Enabled(s, PassBarrier(i)) && Enabled(s, BarrierRejects(i))
              && Step(s, PassBarrier(i)) == WithCall(s, i, call.(phase := OnWire, sends := call.sends + 1))
              && Step(s, BarrierRejects(i)) == WithCall(s, i, call.(phase := Done(ErrorReply)))
  {
  }

  /** The event that ends call `i` with this outcome, in a run that had come to `before`. */
  predicate Ends(before: seq<Event>, event: Event, i: nat, outcome: Outcome)
    requires ValidRun(before)
  {
    i < |Run(before).calls| &&
    var call := Run(before).calls[i];
    match outcome
    case Delivered => event == Respond(i, Succeeded)
    case CancelNotice => event == Respond(i, Cancelled)
    case ErrorReply =>
      event == BarrierRejects(i) || event == Respond(i, OtherError) ||
      (event == Respond(i, Unauthorized) && !Unflagged(call.config))
    case RefreshLost(trigger) =>
      && event == Resume(i) && call.phase.Waiting? && call.phase.refresh < |Run(before).refreshes|
      && Run(before).refreshes[call.phase.refresh].trigger == trigger
      && var story := Story(before, call.phase.refresh);
         story != [] && story[0].RefreshReply? && IsFailure(story[0].reply)
  }

  /** In every run a call that is done was ended by one event, which accounts for its outcome, and has not changed
    * since. */
  lemma {:induction false} EveryEndHasItsEvent(events: seq<Event>, i: nat) returns (k: nat)
    requires ValidRun(events) && i < |Run(events).calls| && Run(events).calls[i].phase.Done?
    ensures k < |events| && ValidRun(events[..k])
    ensures Ends(events[..k], events[k], i, Run(events).calls[i].phase.outcome)
  {
    var init := events[..|events| - 1];
    var s := Run(init);
    if i < |s.calls| && s.calls[i].phase.Done? {
      k := EveryEndHasItsEvent(init, i);
      DoneStays(s, events[|events| - 1], i);
      assert events[..k] == init[..k] && events[k] == init[k];
    } else {
      k := |events| - 1;
      EndsNow(init, events[k], i);
    }
  }

  lemma DoneStays(s: State, event: Event, i: nat)
    requires Enabled(s, event) && i < |s.calls| && s.calls[i].phase.Done?
    ensures i < |Step(s, event).calls| && Step(s, event).calls[i] == s.calls[i]
  {
  }

  lemma EndsNow(before: seq<Event>, event: Event, i: nat)
    requires ValidRun(before) && Enabled(Run(before), event)
    requires i < |Step(Run(before), event).calls| && Step(Run(before), event).calls[i].phase.Done?
    requires i < |Run(before).calls| ==> !Run(before).calls[i].phase.Done?
    ensures Ends(before, event, i, Step(Run(before), event).calls[i].phase.outcome)
  {
    if event.Respond? {
      ReplyEnds(before, event, i);
    } else if event.Resume? {
      LossEnds(before, event, i);
    } else {
      FewEnd(Run(before), event, i);
    }
    hide Run, ValidRun, Story, Step;
  }

  lemma ReplyEnds(before: seq<Event>, event: Event, i: nat)
    requires ValidRun(before) && Enabled(Run(before), event) && event.Respond? && i < |Run(before).calls|
    requires Step(Run(before), event).calls[i].phase.Done? && !Run(before).calls[i].phase.Done?
    ensures Ends(before, event, i, Step(Run(before), event).calls[i].phase.outcome)
  {
    RepliesMean(before, event.call, event.reply);
    hide Run, ValidRun, Story, Step;
  }

  lemma LossEnds(before: seq<Event>, event: Event, i: nat)
    requires ValidRun(before) && Enabled(Run(before), event) && event.Resume? && i < |Run(before).calls|
    requires Step(Run(before), event).calls[i].phase.Done? && !Run(before).calls[i].phase.Done?
    ensures Ends(before, event, i, Step(Run(before), event).calls[i].phase.outcome)
  {
    WaitersMean(before, event.call);
    RefreshFollowsItsStory(before, Run(before).calls[event.call].phase.refresh);
    hide Run, ValidRun, Story, Step;
  }

  lemma FewEnd(s: State, event: Event, i: nat)
    requires Enabled(s, event) && !event.Respond? && !event.Resume?
    ensures i < |s.calls| && !s.calls[i].phase.Done? && Step(s, event).calls[i].phase.Done? ==>
              event == BarrierRejects(i) && Step(s, event).calls[i].phase.outcome == ErrorReply
    ensures |s.calls| <= i < |Step(s, event).calls| ==> !Step(s, event).calls[i].phase.Done?
    ensures |s.calls| <= |Step(s, event).calls|
  {
  }
}
