/** What the provider card shows and offers for a given polling and server state. */
module SyncView {
  import opened Options
  import opened SyncPolling

  datatype ServerStatus = Idle | ServerPending | ServerSyncing | ServerSuccess | ServerPartialSuccess | ServerFailed

  datatype Kind = KindIdle | KindStarting | KindRunning | KindSuccess | KindFailed | KindUnavailable

  datatype Action = ActStart | ActRetry | ActRefresh | ActNone

  datatype Tone = Info | Positive | Negative

  datatype ViewState = ViewState(kind: Kind, caption: string, detail: Option<string>, tone: Tone, isBusy: bool,
      action: Action)

  datatype Input = Input(
    serverStatus: Option<ServerStatus>,
    syncMessage: string,
    hasServerJobId: bool,
    isStarting: bool,
    isPolling: bool,
    pollingError: Option<PollingError>,
    jobStatus: Option<Job>)

  function PhaseLabel(phase: Option<string>): string {
    if phase == Some("queued") then "Starting sync..."
    else if phase == Some("downloading") then "Downloading repository..."
    else if phase == Some("extracting") then "Extracting repository..."
    else if phase == Some("applying") then "Applying changes..."
    else if phase == Some("syncing_vectors") then "Updating search index..."
    else if phase == Some("completed") then "Sync completed"
    else if phase == Some("failed") then "Sync failed"
    else "Syncing..."
  }

  function ErrorLabel(error: PollingError): string {
    match error
    case TimedOut => "Sync is taking longer than expected"
    case InvalidStatus => "Unsupported sync status"
    case RequestFailed => "Status unavailable"
  }

  /** JavaScript `text || null`. */
  function OrNull(text: string): Option<string> {
    if text == "" then None else Some(text)
  }

  function Offer(kind: Kind, caption: string, detail: Option<string>, tone: Tone, action: Action): ViewState {
    ViewState(kind, caption, detail, tone, false, action)
  }

  function Busy(kind: Kind, caption: string): ViewState {
    ViewState(kind, caption, None, Info, true, ActNone)
  }

  predicate ServerInProgress(status: Option<ServerStatus>) {
    status == Some(ServerPending) || status == Some(ServerSyncing)
  }

  function Show(i: Input): ViewState {
    if i.pollingError.Some? then Offer(KindUnavailable, ErrorLabel(i.pollingError.value), None, Negative, ActRetry)
    else if i.isStarting then Busy(KindStarting, "Starting sync...")
    else if i.isPolling then
      Busy(KindRunning, PhaseLabel(if i.jobStatus.Some? then i.jobStatus.value.phase else None))
    else if i.jobStatus.Some? && i.jobStatus.value.status.PartialSuccess? then
      Offer(KindSuccess, "Sync partially completed", None, Positive, ActStart)
    else if i.jobStatus.Some? && i.jobStatus.value.status.Success? then
      Offer(KindSuccess, "Sync completed", None, Positive, ActStart)
    else if i.jobStatus.Some? && i.jobStatus.value.status.Failed? then
      var error := i.jobStatus.value.error;
      Offer(KindFailed, "Sync failed", OrNull(if error != "" then error else i.syncMessage), Negative, ActStart)
    else if ServerInProgress(i.serverStatus) then
      if i.hasServerJobId then Busy(KindRunning, "Syncing...")
      else Offer(KindUnavailable, "Sync task information unavailable", None, Negative, ActRefresh)
    else if i.serverStatus == Some(ServerPartialSuccess) then
      Offer(KindSuccess, "Sync partially completed", OrNull(i.syncMessage), Positive, ActStart)
    else if i.serverStatus == Some(ServerFailed) then
      Offer(KindFailed, "Error", OrNull(i.syncMessage), Negative, ActStart)
    else Offer(KindIdle, "Connected", None, Positive, ActStart)
  }
}
