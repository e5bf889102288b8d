# Verified models of the registry's protocols

This project models the parts of the registry in which many small steps have to add up: the polling and
sign-in protocols of the front end, the purge, repair and migration scripts, the metadata audit, and the path and
export transformations. `dafny verify dfyconfig.toml` checks all of it.

- **Sync polling** (`SyncPolling*`, `SyncView`). The hook's refs, plus the bag of timers and requests the event loop
  still holds, are one state; every handler between two awaits is one step. `SyncPollingHook` has the same handlers as
  methods of a class, each proved equal to the function used in the run proofs, and drives them through any list of
  events. Results hold for every sequence of
  starts, stops, retries, timers, answers, unmounts, remounts and clock advances, and for terminal callbacks that call
  back into the hook or throw.  `SyncPollingOutcomes` says what each event does by the answer and the clock alone.
- **Provider sync** (`ProviderSync*`) composes that hook with the start request of a provider, including the moment
  between a render and its effects; `ProviderSyncHook` drives the two objects together, terminal callback included.
- **Token refresh** (`TokenRefresh*`): the single-flight refresh with one retry, for any number of concurrent calls.
- **Staged deletion** (`StagedDeletion`) is the general theory of children-first deletion without transactions: what a
  crash leaves, why nothing dangles, why re-planning converges. It is used twice: `PurgePlan`, `PurgeUsers` and
  `PurgeUsersSafety` (with `BsonIds`), and `PurgeWorkflow` with `PurgeWorkflowSafety`. `VectorCleanup` is the vector
  phase of the user purge against a concurrent reindexer.
- **Repair and migration**: `JobAdmin*` (failing a stuck job by two conditional updates), `IssuerBackfill` (conditional
  bulk updates), `PathMigration` with `AgentPaths` (paths to slugs, one update at a time).
- **Audit**: `MetadataModel`, `SharedArns`, `IssueLogs`, `MetadataAudit` and `MetadataAuditResults`: the one-pass audit
  loop against its declarative reading, and the exit decision; `MetadataOutcomes`: each issue by the stored fields.
- **Strings**: `Routes` (base paths), `LlmsExport` (navigation tree to export), `UpdateStamp` (timestamp round trip).

Where the source is imperative the model has a method or class that is proved equal to a specification function, and
the results are lemmas about that function over whole runs or all inputs.

## What the proofs found

The first rows are places where the code does not meet what it, its comments or its design suggest; the last two are
limits of a function that its callers stay within. Each has a concrete witness and the exact condition.

| finding | witness | exactly when |
|---|---|---|
| between the render of another provider and its effects, a job of the previous provider can be polled | `RenderWindowPollsOldProvider` | its request is still current, and only while that effect is due: `ForeignJobIsDropped` |
| a `startSync` kept from an earlier render makes the hook poll a provider not shown | `StaleStartSyncPollsOldProvider` | `StaleStartSyncIff`; over whole runs, targets are foreign exactly when a foreign start occurs: `TargetsBelongIff` |
| a call that loses a shared refresh is rejected with another call's 401 payload | `WaiterGetsAnothersPayload` | a refresh was in flight when its own 401 arrived: `LossBlamesSelfIff` |
| failing a job overwrites a federation that names another job | `DeleteRepairIgnoresLastSync` | the owner field of the other kind of job names one: `RepairOverwritesAnotherIff` |
| a location recognised as protected keeps its base path in the captured return path | `OtherLetterCaseKeepsBase` | the base path is not found in front of it in the same letter case: `CaptureElsewhereIff`, `CaptureRoundTripIff` |
| an empty ARN is declared an attention item, yet blocks | `EmptyArnIsBlocked` | `EmptyArnBlocksIff`; for every dictionary: `EmptyArnAlwaysBlocks` |
| the audit ends with an error on a provider type that is a list or dictionary | `ListProviderIsUnhashable` | some document has one: `AuditCollection` |
| limit: expanding the forms of an id once more can add forms | `UpperCaseIsNotClosed` | `IdFormsClosedIff`; never for the object ids that the purge starts from: `ObjectIdFormsClosed` |
| limit: unchanged content whose title or summary ends in a timestamp line is stamped again | `StampSummaryIsAmbiguous` | `AmbiguousContentIsRestamped`; neither export is such content: `HeadedContentIsUnambiguous` |

The polling hook on its own can report a running poll that nothing drives, exactly after a remount that its unmount left
running (`DrivenIff`, `RemountShowsRunningWithoutPoll`). Its one consumer rules this out: in every run of the composed
hooks a running poll is driven (`RunningIsDriven`).

## Model

| member | source | states |
|---|---|---|
| `SyncPollingHook.PollingHook.CancelActivePolling` | frontend/src/hooks/useFederationSyncPolling.ts:227-236 | a new generation starts, no target, timer or controller is named any more, the named timer is cleared and requests stay in flight |
| `SyncPollingHook.PollingHook.StopPolling` | frontend/src/hooks/useFederationSyncPolling.ts:238-246 | the whole state after a stop, retry and terminal targets included |
| `SyncPollingHook.PollingHook.FailPolling` | frontend/src/hooks/useFederationSyncPolling.ts:248-255 | a failed session keeps its retry target and job and shows the error |
| `SyncPollingHook.PollingHook.StartPolling` | frontend/src/hooks/useFederationSyncPolling.ts:257-282 | a start has an effect only when mounted and the target is neither active nor done; then the whole new session |
| `SyncPollingHook.PollingHook.Poll` | frontend/src/hooks/useFederationSyncPolling.ts:277-292 | a stale poll does nothing, an overdue one fails the session, any other has one request in flight |
| `SyncPollingHook.PollingHook.OnFulfilled` | frontend/src/hooks/useFederationSyncPolling.ts:293-317 | what a current answer does: unsupported, terminal with its callback, or a further timer |
| `SyncPollingHook.PollingHook.CatchBlock` | frontend/src/hooks/useFederationSyncPolling.ts:318-331 | a failure is counted only for the current session and fails it at the fifth in a row |
| `SyncPollingHook.PollingHook.SettleRequest` | frontend/src/hooks/useFederationSyncPolling.ts:287-331 | the whole continuation of a request, whichever generation it belongs to |
| `SyncPollingHook.PollingHook.FireTimer` | frontend/src/hooks/useFederationSyncPolling.ts:277-283 | a due timer leaves the event loop and polls under the generation it was set in |
| `SyncPollingHook.PollingHook.RetryPolling` | frontend/src/hooks/useFederationSyncPolling.ts:338-341 | retry is a start of the retry target |
| `SyncPollingHook.PollingHook.Unmount` | frontend/src/hooks/useFederationSyncPolling.ts:343-349 | unmounting cancels without a state update |
| `SyncPollingHook.PollingHook.Dispatch` | frontend/src/hooks/useFederationSyncPolling.ts:227-349 | any event, delivered or not, is the step of the run proofs, and the job with which the terminal callback was called |
| `SyncPollingHook.Live` | frontend/src/hooks/useFederationSyncPolling.ts:208-349 | an object driven through any list of events ends in the state of the run, with one live continuation exactly while a target is active, fewer than five errors, a retry target for every error and at most 450 requests a session |
| `SyncPollingSafety.OneLiveContinuation` | frontend/src/hooks/useFederationSyncPolling.ts:227-336 | in every run at most one continuation has the current generation; one exists exactly while a target is active, it is for that target, and the matching ref names it |
| `SyncPollingSafety.StaleContinuationIsInert` | frontend/src/hooks/useFederationSyncPolling.ts:277-331 | a continuation of an older generation is a request, and settling it in any way changes nothing but the bag |
| `SyncPollingSafety.ThrowingCallbackIsIgnored` | frontend/src/hooks/useFederationSyncPolling.ts:303-331 | a terminal callback that throws, whatever it called first, leaves the state of one that returns |
| `SyncPollingSafety.ReportedOncePerReset` | frontend/src/hooks/useFederationSyncPolling.ts:257-336 | between two reports of one target there is always a stop or a start of another target |
| `SyncPollingSafety.RequestBudget` | frontend/src/hooks/useFederationSyncPolling.ts:7-9 | no start issues more than 450 requests |
| `SyncPollingSafety.ErrorCountIsFailureRun` | frontend/src/hooks/useFederationSyncPolling.ts:318-331 | while polling, the error count is the length of the current run of failures and below 5 |
| `SyncPollingSafety.RetryRestartsFailedTarget` | frontend/src/hooks/useFederationSyncPolling.ts:248-282 | a shown error always has a retry target that nothing blocks, and retrying it while mounted starts a fresh session that keeps the job |
| `SyncPollingSafety.StartForgetsOtherJob` | frontend/src/hooks/useFederationSyncPolling.ts:257-276 | a start of another target never shows the previous target's job |
| `SyncPollingSafety.DrivenIff` | frontend/src/hooks/useFederationSyncPolling.ts:227-349 | over whole runs of the hook on its own, a mounted hook that reports a running poll has an active target, exactly when no event remounts it while it still reports one |
| `SyncPollingSafety.RemountShowsRunningWithoutPoll` | frontend/src/hooks/useFederationSyncPolling.ts:343-349 | such a run of the hook on its own exists |
| `SyncPollingOutcomes.AnsweredWithJob` | frontend/src/hooks/useFederationSyncPolling.ts:287-317 | in every reachable state a live request answered with a job ends the session and reports it for success, partial success and failure, polls again four seconds later for pending and syncing, and fails with the target kept for any other status; the whole state in each case |
| `SyncPollingOutcomes.Rejects` | frontend/src/hooks/useFederationSyncPolling.ts:317-331 | a live request that is rejected waits four seconds more, and fails the session at the fifth failure in a row; the whole state in each case |
| `SyncPollingOutcomes.CallbackRunsLast` | frontend/src/hooks/useFederationSyncPolling.ts:303-311 | what a terminal callback calls runs after the session is over, as the same starts, stops and retries would; an answer that is not terminal calls nothing |
| `SyncPollingOutcomes.CalledWhenReported` | frontend/src/hooks/useFederationSyncPolling.ts:303-311 | in any step the terminal callback is called exactly when the log gains one report, of the target polled until then |
| `SyncPollingOutcomes.TimerFires` | frontend/src/hooks/useFederationSyncPolling.ts:277-286 | a due timer sends the next request, or times the session out from half an hour after its start on; no other timer does anything |
| `SyncPollingOutcomes.Starts` | frontend/src/hooks/useFederationSyncPolling.ts:257-333 | the whole state after a start in every reachable state, and exactly when it has an effect |
| `SyncPollingOutcomes.Retries` | frontend/src/hooks/useFederationSyncPolling.ts:338-341 | a retry is a start of the target to be retried |
| `SyncPollingOutcomes.MountsAndWaits` | frontend/src/hooks/useFederationSyncPolling.ts:343-345 | a mount and the passing of time change nothing else |
| `SyncPollingOutcomes.Stops` | frontend/src/hooks/useFederationSyncPolling.ts:238-349 | the whole state after a stop and after an unmount: a stop forgets what was polled, shown and to be retried, an unmount only what was polled |
| `ProviderSyncHook.ExternalProviderSync.StartSync` | frontend/src/hooks/useExternalProviderSync.ts:127-135 | a request is sent only with a provider, none pending and no poll; then it is the pending one of a new generation |
| `ProviderSyncHook.ExternalProviderSync.SettleStartRequest` | frontend/src/hooks/useExternalProviderSync.ts:135-164 | an answer of another generation is dropped; a current one starts polling its job and ends the pending state |
| `ProviderSyncHook.ExternalProviderSync.HandleTerminal` | frontend/src/hooks/useExternalProviderSync.ts:85-94 | only a job of the provider shown is announced |
| `ProviderSyncHook.ExternalProviderSync.Render` | frontend/src/hooks/useExternalProviderSync.ts:102-115 | pending effects run before a render, and which effects the new props make due |
| `ProviderSyncHook.ExternalProviderSync.FlushEffects` | frontend/src/hooks/useExternalProviderSync.ts:102-115 | the request effect runs before the polling effect, each only when due |
| `ProviderSyncHook.ExternalProviderSync.RunSyncAction` | frontend/src/hooks/useExternalProviderSync.ts:166-171 | nothing for a user who may not edit, else the action of the view shown now: retry, reload or start |
| `ProviderSyncHook.ExternalProviderSync.PassToPolling` | frontend/src/hooks/useExternalProviderSync.ts:85-99 | an event of the polling hook calls the terminal handler exactly when that hook reports |
| `ProviderSyncHook.ExternalProviderSync.Dispatch` | frontend/src/hooks/useExternalProviderSync.ts:85-171 | any event of the page is the step of the run proofs |
| `ProviderSyncHook.Live` | frontend/src/hooks/useExternalProviderSync.ts:66-174 | a card driven through any list of events ends in the state of the run, with one request pending exactly while it says so, a running poll driven, and, with current `startSync`s, the targets of the provider shown |
| `ProviderSyncSafety.PendingIsOneRequest` | frontend/src/hooks/useExternalProviderSync.ts:127-164 | in every run the pending flag holds exactly when one in-flight request has the current generation |
| `ProviderSyncSafety.TargetsBelongIff` | frontend/src/hooks/useExternalProviderSync.ts:101-164 | in every run, whatever callers kept: once the provider effects ran, active, retry and terminal targets belong to the provider shown at every moment, exactly when no foreign start occurs |
| `ProviderSyncSafety.TargetsBelongToProvider` | frontend/src/hooks/useExternalProviderSync.ts:101-164 | with current `startSync`s no foreign start occurs, so they always do |
| `ProviderSyncSafety.StaleStartSyncIff` | frontend/src/hooks/useExternalProviderSync.ts:127-164 | a kept `startSync` whose request settles with a job leaves foreign targets exactly when it sent a request, for a provider not shown, and the start takes effect |
| `ProviderSyncSafety.RunningIsDriven` | frontend/src/hooks/useExternalProviderSync.ts:96-115 | in every run of the composed hooks, remounts included, a mounted hook reports a running poll exactly when a target is active, and one continuation then drives it |
| `ProviderSyncSafety.ForeignJobIsDropped` | frontend/src/hooks/useExternalProviderSync.ts:127-164 | a job of a provider no longer shown reaches `startPolling` exactly when its request is still current, which needs a pending provider effect |
| `ProviderSyncSafety.RenderWindowPollsOldProvider` | frontend/src/hooks/useExternalProviderSync.ts:102-141 | that window is real: a run that polls the previous provider |
| `ProviderSyncSafety.StaleStartSyncPollsOldProvider` | frontend/src/hooks/useExternalProviderSync.ts:127-164 | a run in which the `startSync` of a provider shown earlier makes the hook poll that provider with no effect due |
| `ProviderSyncSafety.OfferMeaning` | frontend/src/hooks/useFederationSyncPolling.ts:79-206 | which offers appear in which states: retry exactly with an error, busy whenever a target is active |
| `ProviderSyncSafety.StartOfferSends` | frontend/src/hooks/useExternalProviderSync.ts:127-171 | an offered start always sends the one current request, for the provider shown |
| `ProviderSyncSafety.RetryOfferRestarts` | frontend/src/hooks/useExternalProviderSync.ts:166-171 | an offered retry always restarts the failed target and keeps its job; while polling the action does nothing |
| `ProviderSyncSafety.NoticeMatchesProvider` | frontend/src/hooks/useExternalProviderSync.ts:85-94 | every announcement is for the provider shown and comes with exactly one report of the polling hook |
| `ProviderSyncOutcomes.EffectFollowsServer` | frontend/src/hooks/useExternalProviderSync.ts:108-115 | in every run the polling effect, when due, follows the job that the server reports as pending or syncing, both ids present, and else forgets everything; when not due it changes nothing |
| `ProviderSyncOutcomes.RenderShows` | frontend/src/hooks/useExternalProviderSync.ts:79-115 | a render shows its properties after the effects that were due, and makes each effect due exactly when one of its dependencies changed |
| `ProviderSyncOutcomes.FlushRuns` | frontend/src/hooks/useExternalProviderSync.ts:101-106 | a due request effect starts a new generation and forgets the pending request, which stays in flight |
| `ProviderSyncOutcomes.RemountRunsEffects` | frontend/src/hooks/useExternalProviderSync.ts:101-115 | an unmounted card neither renders nor runs effects, a remount runs both |
| `ProviderSyncOutcomes.StartSends` | frontend/src/hooks/useExternalProviderSync.ts:127-135 | exactly when a request is sent, and for whom |
| `ProviderSyncOutcomes.StartIsAnswered` | frontend/src/hooks/useExternalProviderSync.ts:135-164 | in every run the answer to the pending request ends it, and its job is polled as that of the provider asked; every other answer is dropped |
| `ProviderSyncOutcomes.AnnouncesExactly` | frontend/src/hooks/useExternalProviderSync.ts:85-94 | in every run a job is announced, and the data reloaded, exactly when the live request is answered with it, it is over, and it is of the provider shown |
| `ProviderSyncOutcomes.ClickRuns` | frontend/src/hooks/useExternalProviderSync.ts:166-171 | what each offered action does, and nothing for a user who may not edit |
| `ProviderSyncOutcomes.OffersExactly` | frontend/src/hooks/useFederationSyncPolling.ts:79-206 | exactly when the card offers a retry, a refresh or a start, and when it is busy |
| `ProviderSyncOutcomes.OfferLooks` | frontend/src/hooks/useFederationSyncPolling.ts:79-206 | which kinds and tones go with which offers |
| `ProviderSyncOutcomes.ShownOutcome` | frontend/src/hooks/useFederationSyncPolling.ts:133-206 | what is shown with an offered start: the outcome of the job that was followed, else that of the server |
| `ProviderSyncOutcomes.CaptionsExactly` | frontend/src/hooks/useFederationSyncPolling.ts:11-131 | what is shown while no start is offered: the error, the start, or the phase of the job polled |
| `TokenRefreshService.RequestService.OnResponse` | frontend/src/services/request.ts:69-129 | the response interceptor: cancellation, recovery through the shared refresh, or rejection |
| `TokenRefreshService.RequestService.OnRefreshReply` | frontend/src/services/request.ts:93-115 | a refused refresh logs out unless the login page is shown; its own 401 passes the same interceptor |
| `TokenRefreshService.RequestService.OnLogoutReply` | frontend/src/services/request.ts:98-115 | the logout's answer is ignored and the login page is opened |
| `TokenRefreshService.RequestService.PassBarrier` | frontend/src/services/request.ts:47-63 | a call goes out once the initial token request has ended |
| `TokenRefreshService.RequestService.ResumeWaiter` | frontend/src/services/request.ts:111-125 | a waiter resends once with the retry flag, or is rejected |
| `TokenRefreshService.RequestService.Send` | frontend/src/services/request.ts:132-136 | a new call waits at the token barrier |
| `TokenRefreshService.RequestService.Dispatch` | frontend/src/services/request.ts:47-129 | any enabled callback is the step of the run proofs |
| `TokenRefreshService.Serve` | frontend/src/services/request.ts:40-152 | a service driven through any run ends in its state, with at most one refresh unsettled and named by the promise, no post waiting for itself, and no call sent more than twice |
| `TokenRefreshSafety.OneRefreshInFlight` | frontend/src/services/request.ts:92-119 | in every run at most one refresh exchange, logout included, is unsettled, and the module-level promise names it |
| `TokenRefreshSafety.RefreshesAreEarned` | frontend/src/services/request.ts:86-119 | logouts never outnumber refreshes, refreshes never outnumber calls with a recoverable 401, and every logout leads to the login page once |
| `TokenRefreshSafety.PostsNeverRecover` | frontend/src/services/request.ts:86-120 | whatever the refresh and logout posts are answered, the interceptor never makes them wait for the promise they are part of |
| `TokenRefreshSafety.SentAtMostTwice` | frontend/src/services/request.ts:86-126 | no call is sent more than twice, a second time only when a refresh had succeeded, and the second answer starts no recovery |
| `TokenRefreshSafety.OneRefreshPerTrigger` | frontend/src/services/request.ts:92-119 | each refresh was started by a call of its own that got a recoverable 401 |
| `TokenRefreshSafety.StepWork` | frontend/src/services/request.ts:75-129 | every callback strictly decreases a measure |
| `TokenRefreshSafety.ExchangeTerminates` | frontend/src/services/request.ts:75-129 | n calls cause at most 8 n callbacks, however they interleave |
| `TokenRefreshSafety.NoStuckCaller` | frontend/src/services/request.ts:92-126 | while any call is unanswered or a refresh unsettled, some callback is due |
| `TokenRefreshSafety.RefreshLossBlamesTrigger` | frontend/src/services/request.ts:111-140 | in every run a call that lost a refresh was sent once and gets the payload of the call that started that refresh, which failed |
| `TokenRefreshSafety.LossBlamesSelfIff` | frontend/src/services/request.ts:92-120 | a call that loses its refresh gets its own 401 payload exactly when no refresh was in flight as its 401 arrived |
| `TokenRefreshSafety.WaiterGetsAnothersPayload` | frontend/src/services/request.ts:111-140 | that can be another call: a run that ends so |
| `TokenRefreshOutcomes.RefreshFollowsItsStory` | frontend/src/services/request.ts:92-119 | in every run a refresh has succeeded exactly when its post was answered with success or cancelled, and failed exactly when it was answered with anything else, after one logout and one redirect, or none on the login page |
| `TokenRefreshOutcomes.LogoutsFollowFailures` | frontend/src/services/request.ts:96-110 | one logout for each refresh post that failed off the login page, one redirect for each logout answered |
| `TokenRefreshOutcomes.RepliesMean` | frontend/src/services/request.ts:69-129 | in every run: what each answer does to a call; only a 401 without any of the three flags makes it wait, for the refresh in flight or for one that it starts |
| `TokenRefreshOutcomes.WaitersMean` | frontend/src/services/request.ts:111-125 | in every run a waiter is sent again with the retry flag when the post of its refresh was answered with success or cancelled, and else rejected |
| `TokenRefreshOutcomes.SendsMean` | frontend/src/services/request.ts:47-63 | what happens to a call until it is on the wire |
| `TokenRefreshOutcomes.EveryEndHasItsEvent` | frontend/src/services/request.ts:69-140 | in every run the outcome of a call is that of the one event that ended it, and never changes afterwards |
| `StagedDeletion.NoOrphans` | scripts/purge_users.py:46-58 | children-first staged deletion: wherever it stops, nothing left refers to a planned key that is gone |
| `StagedDeletion.Converges` | scripts/purge_users.py:213-232 | any sequence of crashed and re-planned runs, finished at last, ends where one uninterrupted run would |
| `BsonIds.CollectIdForms` | scripts/purge_users.py:88-96 | the loop collects exactly the stored forms of every id |
| `BsonIds.SpellsExactly` | scripts/purge_users.py:88-96 | what spells an object id: 24 hexadecimal digits of either case |
| `BsonIds.ObjectIdFormsClosed` | scripts/purge_users.py:88-96 | for object ids, expanding a form again finds nothing new, and every form names one of the ids |
| `BsonIds.IdFormsClosedIff` | scripts/purge_users.py:88-96 | for arbitrary ids, expansion is closed exactly when every spelled object id comes with its canonical form |
| `BsonIds.UpperCaseIsNotClosed` | scripts/purge_users.py:88-96 | an object id spelled in upper case alone is not |
| `PurgePlan.BuildPlan` | scripts/purge_users.py:103-152 | the planning loops compute the declarative plan |
| `PurgePlan.SortAcls` | scripts/purge_users.py:116-134 | entries on authored resources are split into those that may go and those that block |
| `PurgeUsersSafety.PlanIsCascade` | scripts/purge_users.py:103-152 | the plan is the ownership cascade alone, and blocked exactly when some entry on a resource is not a target's |
| `PurgeUsersSafety.PlannedExactly` | scripts/purge_users.py:27-40 | for each collection, the field in which a document must hold the id of a target, or its spelling, to be planned; entries also must be those of a user |
| `PurgeUsersSafety.BlockedExactly` | scripts/purge_users.py:116-134 | an entry blocks exactly when it is on an agent or server of a target and is not an entry of its kind for a target user |
| `PurgeUsersSafety.ServersExactly` | scripts/purge_users.py:110-114 | the vector phase is about exactly the servers whose documents go |
| `PurgeUsersSafety.PlanIsChildrenFirst` | scripts/purge_users.py:46-58 | the deletion order puts every dependent document of the plan in an earlier stage |
| `PurgeUsersSafety.CrashLeavesNoDangling` | scripts/purge_users.py:213-232 | after a crash anywhere, part of a batch included, no entry of a deleted resource and no document of a deleted user is left |
| `PurgeUsersSafety.ReplanShrinks` | scripts/purge_users.py:103-152 | after any loss of documents a new plan is exactly the old one still present, with no newly blocked entry |
| `PurgeUsersSafety.RestartsConverge` | scripts/purge_users.py:213-232 | running again after crashes reaches the database of an uninterrupted run and is never blocked |
| `PurgeUsersSafety.CompletedPurgeIsClean` | scripts/purge_users.py:88-232 | a completed purge deleted exactly the plan; no document is owned by a target in either form, no entry names a deleted resource, a new plan is empty |
| `PurgeUsersSafety.AppliedPlanIsSafe` | scripts/purge_users.py:213-232 | the state in which the applied plan ends, complete or crashed, has nothing dangling, and when complete nothing of a target |
| `PurgeUsersSafety.OthersSurvive` | scripts/purge_users.py:213-232 | documents outside the plan survive unchanged |
| `PurgeUsers.DeleteCollection` | scripts/purge_users.py:224-232 | planned ids of one collection alone go, whatever other processes do, in as few calls as batches of 500 allow, or a part of them before a failure |
| `PurgeUsers.DeletePlanned` | scripts/purge_users.py:224-232 | under any interference only planned ids are deleted; without it the loop ends in a crash state of the stages |
| `PurgeUsers.ApplyPlan` | scripts/purge_users.py:213-232 | whatever other processes do: exactly when the purge stops and with which error, and that it then deletes nothing; else the plan has nothing blocked, nothing unmapped but by the override, and was re-built unchanged, and if vectors are to go the vector phase was completed in a stretch of the cluster's own run and the plan re-built unchanged once more; then planned ids and vectors of planned servers only, on a quiet database all of them unless a delete call fails |
| `VectorCleanup.SameReadSameHistory` | scripts/purge_users.py:179-191 | as generations are never reused, two equal reads mean that nothing was installed between them |
| `VectorCleanup.ActsMean` | registry-pkgs/src/registry_pkgs/database/model_gateway_selection_repository.py:52-80 | what other processes can do to the cluster; only a generation that was active before cannot be installed |
| `VectorCleanup.Cluster.VectorGeneration` | scripts/purge_users.py:179-191 | against the two worlds that the other processes make: refused exactly when the first has a live reindex or the active generation of the second is no object id; else that generation |
| `VectorCleanup.Cluster.DeleteByServerId` | registry-pkgs/src/registry_pkgs/vector/repositories/mcp_server_repository.py:182-199 | its only deletions are of this server in that generation; success means that no vector of the server is left there in the last world of the run, whatever other processes wrote before; its error is the verdict on the worlds met |
| `VectorCleanup.VerdictMeans` | scripts/_purge_user_vectors.py:70-105 | that verdict in terms of the worlds met: exactly when the deletion is refused, fails or finds vectors left, and what it deletes |
| `VectorCleanup.DeleteVectors` | scripts/purge_users.py:194-210 | for any writers and reindexers, deletes only vectors of planned servers under the generation read first; success means that the run of the cluster has that one generation from the first read to the end, read again before each server and at last, and after each server's own read a world without its vectors, and a vector found at the end was written there by somebody else after that world; failure has its reason in the last world |
| `PurgeWorkflow.CollectPlan` | scripts/purge_workflow_data.py:90-128 | refused exactly for an unknown workflow; otherwise the counts of the five stages |
| `PurgeWorkflow.ApplyPurge` | scripts/purge_workflow_data.py:131-193 | with other writers before the runs are fetched and before every stage: each stage deletes exactly what its filter finds then, or a part of it when it fails, and is counted so; without them it ends in a crash state of the five stages, complete exactly when no stage fails, and counts the planned stages that were completed |
| `PurgeWorkflow.QuietMet` | scripts/purge_workflow_data.py:131-193 | without other writers each stage meets the crash state before it, and its filter still finds the stage planned at the start |
| `PurgeWorkflowSafety.LeftoversAreNewcomers` | scripts/purge_workflow_data.py:140-193 | for any other writers between the stages, what hangs from the purge at its end is exactly what one of their turns hung there too late for its stage, or below a run that was not fetched, and left there |
| `PurgeWorkflowSafety.OrphansAreNewcomers` | scripts/purge_workflow_data.py:140-193 | among writers that orphan nothing themselves, a completed purge leaves no definition it was to delete, and its orphans are exactly those newcomers, but for node runs and sessions whose run somebody put back |
| `PurgeWorkflowSafety.StagesAreChildrenFirst` | scripts/purge_workflow_data.py:131-193 | node runs, sessions, runs, versions, definitions is a children-first order |
| `PurgeWorkflowSafety.ParentSurvives` | scripts/purge_workflow_data.py:131-193 | after any failure the parent of every remaining document is still there |
| `PurgeWorkflowSafety.StaysOrphanFree` | scripts/purge_workflow_data.py:131-193 | an orphan-free database stays orphan-free after any stage fails with any partial delete |
| `PurgeWorkflowSafety.DefinitionOutlivesChildren` | scripts/purge_workflow_data.py:131-193 | a definition is gone only when nothing of its plan is left below it |
| `PurgeWorkflowSafety.ReplannedIff` | scripts/purge_workflow_data.py:90-128 | what a failed purge left is planned again exactly when it was planned before |
| `PurgeWorkflowSafety.RestartsConverge` | scripts/purge_workflow_data.py:90-193 | repeating the command after failures ends where one clean run would |
| `PurgeWorkflowSafety.RefusedOnlyWhenDone` | scripts/purge_workflow_data.py:90-128 | a command for one workflow is refused as unknown only once nothing of its plan is left |
| `JobAdmin.SharedDb.FindNewestActive` | scripts/federation_job_admin.py:183-189 | the newest pending or syncing job of the federation, or none exactly when there is none |
| `JobAdmin.SharedDb.FailActiveJob` | scripts/federation_job_admin.py:181-257 | against the states its two updates meet: a lost race writes nothing, and the federation is written only after the job was failed |
| `JobAdminSafety.OperatorsAlterOnlyFailures` | scripts/federation_job_admin.py:181-257 | however operators race, between them they alter exactly the jobs that their first updates failed, each active before, and only federations of such jobs |
| `JobAdminSafety.FailedUnderTokenRead` | scripts/federation_job_admin.py:183-214 | in every run, a first update that writes fails exactly the job this operator read, still active under the token it had then, and nothing else |
| `JobAdminSafety.FailedOnlyWithoutTakeover` | registry-pkgs/src/registry_pkgs/database/leased_job.py:196-237 | as claims mint fresh tokens, a leased job is failed only if it kept that token all the time since it was read |
| `JobAdminSafety.MarkWrites` | scripts/federation_job_admin.py:191-214 | in every run, exactly when the first update writes, and every field of the job after it |
| `JobAdminSafety.RepairWrites` | scripts/federation_job_admin.py:216-253 | in every run, exactly when the second update writes, by the kind of the job, and every field of the federation after it |
| `JobAdminSafety.RepairOverwritesAnotherIff` | scripts/federation_job_admin.py:216-253 | in every run, a repair that writes follows this operator's own failing of the job and writes the federation of that job alone, whose owner field of the job's kind names that job or none; it overwrites a federation naming another job exactly when the owner field of the other kind does |
| `JobAdminSafety.DeleteRepairIgnoresLastSync` | scripts/federation_job_admin.py:181-253 | a run of one operator in which a delete repair overwrites a federation whose last sync was another job's |
| `JobAdminSafety.FailedByOneOperator` | scripts/federation_job_admin.py:181-257 | however many operators race, a job is failed by at most one |
| `JobAdminSafety.FinishedJobsAreFinal` | scripts/federation_job_admin.py:181-257 | a finished job is never altered again |
| `JobAdminSafety.RepairFollowsFailure` | scripts/federation_job_admin.py:181-257 | only an operator whose own update failed the job writes its federation |
| `IssuerBackfill.UserStore.CollectChanges` | scripts/backfill_user_openid_issuer.py:60-68 | refused exactly when some OpenID user has another issuer; otherwise the two sets of ids |
| `IssuerBackfill.PendingExactly` | scripts/backfill_user_openid_issuer.py:28-68 | which users refuse the run, which are due an issuer and whose id is unset, by their fields |
| `IssuerBackfill.UserStore.ApplyChanges` | scripts/backfill_user_openid_issuer.py:71-91 | refused exactly when the recheck differs; every write is a conditional update of the state met then, and the counts are those of the users really altered; on a quiet database an applied run leaves nothing pending |
| `IssuerBackfill.UpdatesAreIndependent` | scripts/backfill_user_openid_issuer.py:71-91 | neither update creates or removes work for the other |
| `IssuerBackfill.InterruptedRunResumes` | scripts/backfill_user_openid_issuer.py:60-91 | a run stopped part-way leaves exactly the rest pending, and finishing it gives the result of one run |
| `IssuerBackfill.CompletedRunIsFinal` | scripts/backfill_user_openid_issuer.py:60-91 | after a completed run nothing is pending |
| `AgentPaths.NormalizeYieldsSlug` | registry-pkgs/src/registry_pkgs/models/a2a_agent.py:127-139 | every normalised path is lower-case words joined by single dashes |
| `AgentPaths.NormalizeFixesExactlySlugs` | registry-pkgs/src/registry_pkgs/models/a2a_agent.py:127-139 | normalisation leaves exactly the slugs as they are |
| `AgentPaths.NormalizeIsIdempotent` | registry-pkgs/src/registry_pkgs/models/a2a_agent.py:127-139 | normalising twice is normalising once |
| `AgentPaths.NormalizeKeepsLetters` | registry-pkgs/src/registry_pkgs/models/a2a_agent.py:127-139 | a normalised path has the letters and digits of the path, in lower case and in order, broken exactly where the path breaks them; exactly the paths without any are refused |
| `AgentPaths.LettersDetermineSlug` | registry-pkgs/src/registry_pkgs/models/a2a_agent.py:127-139 | and no other slug has |
| `AgentPaths.CharactersExactly` | registry-pkgs/src/registry_pkgs/models/a2a_agent.py:132-134 | the characters that are kept, and those that are trimmed |
| `PathMigration.CheckPathConflicts` | scripts/migrate_a2a_agent_path_slug.py:50-65 | exactly the paths with several claimants are reported, with all of them in order; an invalid path ends the check |
| `PathMigration.SeveralClaimantsIff` | scripts/migrate_a2a_agent_path_slug.py:50-65 | a path has several claimants just when two different agents would be given it |
| `PathMigration.AgentCollection.MigrateAgents` | scripts/migrate_a2a_agent_path_slug.py:68-162 | a conflict, an invalid path or a dry run writes nothing; otherwise every intermediate collection; and the statistics: how many agents, renamed ones, slugs and contested paths there are |
| `PathMigration.DistinctAfterEveryUpdate` | scripts/migrate_a2a_agent_path_slug.py:124-144 | paths are pairwise distinct after every single update |
| `PathMigration.RefusedIffCollision` | scripts/migrate_a2a_agent_path_slug.py:95-116 | the check refuses exactly the collections that would end with a shared path |
| `PathMigration.InterruptedRunResumes` | scripts/migrate_a2a_agent_path_slug.py:124-144 | a run stopped after any update is accepted again and ends in the same place |
| `PathMigration.SecondRunChangesNothing` | scripts/migrate_a2a_agent_path_slug.py:124-162 | a second run is accepted and changes nothing |
| `IssueLogs.IssueLog.RecordIssue` | scripts/verify/check_federation_metadata.py:61-70 | counts stay exact while each list keeps only its first samples |
| `SharedArns.ArnTracker.Record` | scripts/verify/check_federation_metadata.py:306-324 | counters, first documents and sampled duplicates stay those of all sightings so far |
| `SharedArns.SharedIff` | scripts/verify/check_federation_metadata.py:306-324 | a key is a duplicate just when at least two documents have it |
| `SharedArns.SharedOnce` | scripts/verify/check_federation_metadata.py:306-324 | each duplicate key is counted once |
| `MetadataAudit.AuditDocument` | scripts/verify/check_federation_metadata.py:193-349 | one turn of the loop adds to every issue exactly that issue's own reading of the document |
| `MetadataAudit.AddedAllFor` | scripts/verify/check_federation_metadata.py:193-349 | every issue is recorded independently of the others and of the order of the checks |
| `MetadataAudit.AuditCollection` | scripts/verify/check_federation_metadata.py:161-368 | the one-pass audit equals its declarative reading for every document sequence and limit; it fails exactly on a provider type that cannot be hashed |
| `MetadataAuditResults.TotalsPartition` | scripts/verify/check_federation_metadata.py:193-245 | the totals partition and every federated document is accounted for exactly once |
| `MetadataAuditResults.FoundIff` | scripts/verify/check_federation_metadata.py:61-70 | a sample is found just when some document reports it |
| `MetadataAuditResults.DuplicateCount` | scripts/verify/check_federation_metadata.py:306-324 | the duplicate count is the number of keys held by at least two documents |
| `MetadataAuditResults.SampledDuplicates` | scripts/verify/check_federation_metadata.py:306-324 | the first min(count, limit) shared keys, distinct, each with its first min(n, max(2, limit)) documents |
| `MetadataAuditResults.BlockingIff` | scripts/verify/check_federation_metadata.py:25-38 | a blocking count is positive just when some document is blocked or two share a key, whatever the limit |
| `MetadataAuditResults.Run` | scripts/verify/check_federation_metadata.py:371-401 | the exit status is 1 exactly when either collection is blocked |
| `MetadataModel.EmptyArnBlocksIff` | scripts/verify/check_federation_metadata.py:136-158 | exactly when a document with an empty ARN also has a blocking issue |
| `MetadataModel.EmptyArnAlwaysBlocks` | scripts/verify/check_federation_metadata.py:136-158 | a dictionary with an empty ARN always has one |
| `MetadataModel.EmptyArnIsBlocked` | scripts/verify/check_federation_metadata.py:136-158 | a consistent and accepted document, complete but for its empty ARN, is blocked for that alone |
| `MetadataModel.ListProviderIsUnhashable` | scripts/verify/check_federation_metadata.py:232-235 | a provider type that is a list cannot be looked up |
| `MetadataOutcomes.GetExactly` | scripts/verify/check_federation_metadata.py:72-81 | a field is the first entry of its name, and null without one |
| `MetadataOutcomes.ModelsExactly` | registry-pkgs/src/registry_pkgs/models/federation_metadata.py:26-85 | the fields that each model requires, and those that it knows besides |
| `MetadataOutcomes.ModelForExactly` | scripts/verify/check_federation_metadata.py:84-95 | which model a provider has in a collection |
| `MetadataOutcomes.MissingExactly` | scripts/verify/check_federation_metadata.py:136-158 | the missing names are those of the list, in order, whose field is blank |
| `MetadataOutcomes.ExtrasExactly` | scripts/verify/check_federation_metadata.py:125-133 | the unknown names are those of the entries, in order, that the model does not have |
| `MetadataOutcomes.BadDatetimesExactly` | scripts/verify/check_federation_metadata.py:98-122 | exactly which date fields are bad |
| `MetadataOutcomes.KindExactly` | scripts/verify/check_federation_metadata.py:193-245 | how each document is counted: plain, without metadata, without or of an unknown provider, or of which |
| `MetadataOutcomes.BodyExactly` | scripts/verify/check_federation_metadata.py:243-262 | the fields that are looked at |
| `MetadataOutcomes.NoFieldsNoIssues` | scripts/verify/check_federation_metadata.py:222-262 | a document without fields to look at has none of the issues of fields |
| `MetadataOutcomes.StateExactly` | scripts/verify/check_federation_metadata.py:199-219 | a document with only one of reference and metadata is inconsistent |
| `MetadataOutcomes.ProviderIssuesExactly` | scripts/verify/check_federation_metadata.py:222-262 | exactly when a provider is missing, unknown or out of place, and when a document is rejected or cannot be dumped |
| `MetadataOutcomes.FieldIssuesExactly` | scripts/verify/check_federation_metadata.py:264-324 | what is reported of the fields, and under which key the ARN is compared |
| `MetadataOutcomes.BlockingExactly` | scripts/verify/check_federation_metadata.py:25-38 | the seven kinds of issue that block |
| `Routes.NormalizeIff` | frontend/src/routes.ts:31-34 | normalising gives a path without trailing slash and leaves exactly those as they are |
| `Routes.RoundTripIff` | frontend/src/routes.ts:36-60 | for every base path, reading back a route's browser path gives the normalised route exactly when the route is rooted or there is no base path |
| `Routes.RecognisedPathsAreBrowserPaths` | frontend/src/routes.ts:44-60 | a recognised browser path is that of the route found, up to trailing slashes and letter case |
| `Routes.ProtectedRoutesAreRooted` | frontend/src/routes.ts:62-71 | a protected route starts with exactly one slash |
| `Routes.ProtectedExactly` | frontend/src/routes.ts:3-71 | for every base path, the browser path of a route is protected exactly when the route is one of the pages behind the login, up to trailing slashes and letter case |
| `Routes.CaptureElsewhereIsRoot` | frontend/src/config.ts:47-49 | anywhere but at a protected location the captured path is the root |
| `Routes.CaptureRoundTripIff` | frontend/src/config.ts:36-56 | the captured path of a protected route is the route and the query exactly when the base path cut off is the one put in front |
| `Routes.CaptureElsewhereIff` | frontend/src/config.ts:47-56 | for every base path and protected location, the captured path is the route, up to trailing slashes, exactly when the base path was cut off or there was none; and the route and query themselves when it also ends in no slash |
| `Routes.OtherLetterCaseKeepsBase` | frontend/src/config.ts:47-56 | a location in another letter case keeps its base path |
| `LlmsExport.ListedIff` | scripts/generate_llms.py:24-32 | a page is listed exactly when some path through the tree leads to a local page, with the titles on the way |
| `LlmsExport.LocalPagesExactly` | scripts/generate_llms.py:29 | a destination is a page exactly when it ends in ".md" and names no scheme |
| `LlmsExport.PagesAreLabelled` | scripts/generate_llms.py:30-32 | the section and the label of a page, by the titles on the way to it |
| `LlmsExport.CollectPages` | scripts/generate_llms.py:112-139 | the loop exports the first occurrence of every source, links and full text alike, each link under the heading of its section; it fails exactly when some page is missing |
| `LlmsExport.ExportedOnce` | scripts/generate_llms.py:112-117 | every source of the navigation is exported exactly once |
| `LlmsExport.FirstAppearanceOrder` | scripts/generate_llms.py:112-117 | of two first occurrences the earlier is exported earlier, each after exactly the first occurrences before it |
| `LlmsExport.ExportedIffInTree` | scripts/generate_llms.py:24-117 | a source is exported just when the tree leads to it |
| `UpdateStamp.RoundTrip` | scripts/generate_llms.py:62-70 | stripping what stamping put in gives back unambiguous content |
| `UpdateStamp.RoundTripIff` | scripts/generate_llms.py:62-70 | it does so for every timestamp exactly when neither title nor summary ends in a timestamp line |
| `UpdateStamp.RegenerationIsStable` | scripts/generate_llms.py:62-70 | regenerating unchanged content over its own output changes nothing |
| `UpdateStamp.AmbiguousContentIsRestamped` | scripts/generate_llms.py:62-70 | ambiguous content, and only that, is stamped again although unchanged |
| `UpdateStamp.ChangedContentIsRestamped` | scripts/generate_llms.py:62-70 | changed content is always stamped again |
| `UpdateStamp.HeadedContentIsUnambiguous` | scripts/generate_llms.py:80-111 | content that opens with a heading line and a quoted line is unambiguous |
| `UpdateStamp.StampsAfterSummary` | scripts/generate_llms.py:62-70 | the line that a stamp puts in, right after the summary |
| `UpdateStamp.StampSummaryIsAmbiguous` | scripts/generate_llms.py:62-70 | content whose summary is a timestamp line is ambiguous |

## Left out

- Concurrency is modelled at awaits: a handler between two awaits is one step, a state setter takes effect at once, a
  cleared timer never fires, the clock never runs backwards, and a fetcher that throws at once is a rejected promise.
- React rendering, toasts, the GitHub authorisation redirect and the texts of `showToast`; `SyncView` keeps the
  branches and labels of the view.
- `ServerContext`, services, and the lease, reaper and workflow engines, which are not part of this model.
- ApplyPlan: the vector phase takes the planned servers in some order, with their ids; running totals, progress lines and
  the order of sorted ids are not modelled.
- BuildPlan: each planning reads the database as one snapshot, and the unmapped references are an arbitrary report
  given to the planner, since the sampling that finds them may vary; arrays and values that are no ids do not occur in
  the fields looked at.
- DeleteByServerId: client errors other than those of a failed delete or a missing collection are not modelled.
- OnResponse: the cancel functions kept by key are not modelled; they decide only which replies are cancellations.
- OnRefreshReply: the address and the `next` parameter of the redirect are not modelled, only that it happens.
- FinishedJobsAreFinal: other processes are assumed to leave finished jobs alone, as their token-fenced writes do.
- CollectPlan: an id that is no object id is refused earlier, while parsing arguments, which is not modelled.
- OrphansAreNewcomers: speaks of completed purges; of one that fails among other writers `ApplyPurge` gives the state,
  and the results on orphans after a failure (`StaysOrphanFree`, `ParentSurvives`) are for a database without them.
- FailActiveJob: only the branch in which an active job was found; without one the tool ends as `NoActiveJob` here.
- CollectChanges: field values are absent, null or strings; `normalize_issuer` is not modelled.
- NormalizeYieldsSlug: paths are ASCII text; Unicode case mapping and white space beyond ASCII are not modelled.
- MigrateAgents: nobody else writes while the migration runs; dropping the index and logging are not modelled.
- AuditCollection: the schema validator, the ISO date parser and `str` are given with each value; the message of a
  validation error is not part of a sample, and a sample shared by the list and the index is found by its position.
- RoundTripIff: letter case is ASCII in `Routes`; locations and base paths are arbitrary strings.
- ListedIff: the items of all navigation dictionaries are taken together in order; page descriptions, file contents and
  line layout of the exports are not modelled.
- `calculate_sleep_seconds`, `formatTimeSince`, validators, settings, and the seed and backfill scripts not named above:
  they would add only easy results.
