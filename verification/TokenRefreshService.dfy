/** The HTTP service in its own imperative shape: module-level promises and interceptors, driven by the event
  * loop one callback at a time. */
module TokenRefreshService {
  import opened Options
  import opened TokenRefresh
  import opened TokenRefreshSafety

  class RequestService {
    var calls: seq<Call>
    var refreshes: seq<Refresh>
    var refreshTokenPromise: Option<nat>
    var logouts: nat
    var redirects: nat

    ghost function View(): State
      reads this
    {
      State(calls, refreshes, refreshTokenPromise, logouts, redirects)
    }

    constructor ()
      ensures View() == INITIAL
    {
      calls, refreshes, refreshTokenPromise, logouts, redirects := [], [], None, 0, 0;
    }

    method Send(config: Config) returns (call: nat)
      modifies this
      ensures call == old(|calls|) && View() == Step(old(View()), Issue(config))
    {
      call := |calls|;
      calls := calls + [Call(config, AtBarrier, 0, false)];
    }

    /** The request interceptor: a call goes out once the initial token request has ended well, else it is rejected. */
    method PassBarrier(call: nat)
      requires Enabled(View(), TokenRefresh.PassBarrier(call))
      modifies this
      ensures View() == Step(old(View()), TokenRefresh.PassBarrier(call))
    {
      var c := calls[call];
      calls := calls[call := c.(phase := OnWire, sends := c.sends + 1)];
    }

    method RejectAtBarrier(call: nat)
      requires Enabled(View(), BarrierRejects(call))
      modifies this
      ensures View() == Step(old(View()), BarrierRejects(call))
    {
      calls := calls[call := calls[call].(phase := Done(ErrorReply))];
    }

    method OnResponse(call: nat, reply: Reply)
      requires Enabled(View(), Respond(call, reply))
      modifies this
      ensures View() == Step(old(View()), Respond(call, reply))
    {
      var c := calls[call];
      if reply.Unauthorized? && !c.config.isRetry && !c.config.isRefresh && !c.config.skipAuthRecovery {
        if refreshTokenPromise.None? {
          refreshTokenPromise := Some(|refreshes|);
          refreshes := refreshes + [Refresh(Posting, call, RECOVERY_CONFIG)];
        }
        calls := calls[call := c.(phase := Waiting(refreshTokenPromise.value), recovered := true)];
        return;
      }
      var outcome := match reply
        case Succeeded => Delivered
        case Cancelled => CancelNotice
        case _ => ErrorReply;
      calls := calls[call := c.(phase := Done(outcome))];
    }

    method OnRefreshReply(reply: Reply, onLoginPage: bool)
      requires Enabled(View(), RefreshReply(reply, onLoginPage))
      modifies this
      ensures View() == Step(old(View()), RefreshReply(reply, onLoginPage))
    {
      var r := refreshTokenPromise.value;
      if Recovers(refreshes[r].config, reply) {
        refreshes := refreshes[r := refreshes[r].(phase := Stuck)];
      } else if reply.Succeeded? || reply.Cancelled? {
        refreshes := refreshes[r := refreshes[r].(phase := Closing(true))];
      } else if onLoginPage {
        refreshes := refreshes[r := refreshes[r].(phase := Closing(false))];
      } else {
        refreshes := refreshes[r := refreshes[r].(phase := LoggingOut)];
        logouts := logouts + 1;
      }
    }

    method OnLogoutReply(reply: Reply)
      requires Enabled(View(), LogoutReply(reply))
      modifies this
      ensures View() == Step(old(View()), LogoutReply(reply))
    {
      var r := refreshTokenPromise.value;
      if Recovers(refreshes[r].config, reply) {
        refreshes := refreshes[r := refreshes[r].(phase := Stuck)];
      } else {
        refreshes := refreshes[r := refreshes[r].(phase := Closing(false))];
        redirects := redirects + 1;
      }
    }

    method RunFinally()
      requires Enabled(View(), Finally)
      modifies this
      ensures View() == Step(old(View()), Finally)
    {
      var r := refreshTokenPromise.value;
      refreshes := refreshes[r := refreshes[r].(phase := Settled(refreshes[r].phase.ok))];
      refreshTokenPromise := None;
    }

    method ResumeWaiter(call: nat)
      requires Enabled(View(), Resume(call))
      modifies this
      ensures View() == Step(old(View()), Resume(call))
    {
      var c := calls[call];
      var refresh := refreshes[c.phase.refresh];
      if refresh.phase.ok {
        calls := calls[call := c.(config := c.config.(isRetry := true), phase := AtBarrier)];
      } else {
        calls := calls[call := c.(phase := Done(RefreshLost(refresh.trigger)))];
      }
    }

    /** One callback of the event loop. */
    method Dispatch(event: Event)
      requires Enabled(View(), event)
      modifies this
      ensures View() == Step(old(View()), event)
    {
      match event
      case Issue(config) => var _ := Send(config);
      case PassBarrier(call) => PassBarrier(call);
      case BarrierRejects(call) => RejectAtBarrier(call);
      case Respond(call, reply) => OnResponse(call, reply);
      case RefreshReply(reply, onLoginPage) => OnRefreshReply(reply, onLoginPage);
      case LogoutReply(reply) => OnLogoutReply(reply);
      case Finally => RunFinally();
      case Resume(call) => ResumeWaiter(call);
    }
  }

  /** A page's whole life: however calls and replies interleave, the service ends in the state of the run, with
    * at most one refresh unsettled, refreshes and sends bounded, and no post waiting for itself. */
  method Serve(events: seq<Event>) returns (service: RequestService)
    requires ValidRun(events)
    ensures service.View() == Run(events)
    ensures forall a, b :: 0 <= a < |service.refreshes| && 0 <= b < |service.refreshes| &&
                           !service.refreshes[a].phase.Settled? && !service.refreshes[b].phase.Settled? ==>
              a == b && service.refreshTokenPromise == Some(a)
    ensures forall r :: 0 <= r < |service.refreshes| ==> !service.refreshes[r].phase.Stuck?
    ensures service.logouts <= |service.refreshes| <= |service.calls|
    ensures forall i :: 0 <= i < |service.calls| ==> service.calls[i].sends <= 2
  {
    service := new RequestService();
    for n := 0 to |events|
      invariant fresh(service) && ValidRun(events[..n]) && service.View() == Run(events[..n])
    {
      ValidPrefix(events, n + 1);
      assert events[..n + 1][..n] == events[..n];
      service.Dispatch(events[n]);
    }
    assert events[..|events|] == events;
    RunKeeps(events);
    RefreshesAreEarned(events);
    forall i | 0 <= i < |service.calls| ensures service.calls[i].sends <= 2 {
      SentAtMostTwice(events, i);
    }
  }
}
