/** Failing a stuck federation job by hand, in the branch where an active job was found.
  *
  * The tool reads the newest active job, then makes two conditional updates.  Each conditional update
  * is one atomic step of the database; anything may happen between them. */
module JobAdmin {
  import opened Options

  type JobId = nat
  type FederationId = nat

  datatype JobStatus = Pending | Syncing | Success | PartialSuccess | Failed

  datatype JobKind = DeleteSync | OtherSync

  datatype Job = Job(
    federation: FederationId,
    status: JobStatus,
    kind: JobKind,
    leaseToken: Option<string>,
    createdAt: int,
    error: Option<string>,
    finishedAt: Option<int>)

  datatype FederationStatus = Active | Deleting | OtherStatus

  datatype SyncStatus = SyncIdle | SyncPending | SyncSyncing | SyncSuccess | SyncFailed

  datatype Federation = Federation(
    status: FederationStatus,
    syncStatus: SyncStatus,
    syncMessage: Option<string>,
    lastSyncJob: Option<JobId>,
    deletingJob: Option<JobId>)

  datatype Db = Db(jobs: map<JobId, Job>, federations: map<FederationId, Federation>)

  predicate IsActive(job: Job) {
    job.status.Pending? || job.status.Syncing?
  }

  predicate InProgress(status: SyncStatus) {
    status.SyncPending? || status.SyncSyncing?
  }

  /** What the tool remembers of the job it read. */
  datatype Found = Found(id: JobId, federation: FederationId, kind: JobKind, leaseToken: Option<string>)

  predicate IsNewestActive(db: Db, federation: FederationId, id: JobId) {
    && id in db.jobs && db.jobs[id].federation == federation && IsActive(db.jobs[id])
    && forall j :: j in db.jobs && db.jobs[j].federation == federation && IsActive(db.jobs[j]) ==>
         db.jobs[j].createdAt <= db.jobs[id].createdAt
  }

  function FoundOf(db: Db, id: JobId): Found
    requires id in db.jobs
  {
    Found(id, db.jobs[id].federation, db.jobs[id].kind, db.jobs[id].leaseToken)
  }

  /** The filter of the first update: still active, under the lease token that was read. */
  predicate JobMatches(db: Db, found: Found) {
    && found.id in db.jobs && db.jobs[found.id].federation == found.federation
    && IsActive(db.jobs[found.id]) && db.jobs[found.id].leaseToken == found.leaseToken
  }

  function FailedJob(job: Job, reason: string, now: int): Job {
    job.(status := Failed, error := Some(reason), finishedAt := Some(now), leaseToken := None)
  }

  function JobUpdate(db: Db, found: Found, reason: string, now: int): Db {
    if JobMatches(db, found) then db.(jobs := db.jobs[found.id := FailedJob(db.jobs[found.id], reason, now)]) else db
  }

  /** MongoDB `{"$in": [id, None]}`: the field names this job, or nothing. */
  predicate NamesOrEmpty(field: Option<JobId>, id: JobId) {
    field == Some(id) || field == None
  }

  /** The filter of the second update; a delete job and a sync job look at different owner fields. */
  predicate FederationMatches(db: Db, found: Found) {
    && found.federation in db.federations
    && var f := db.federations[found.federation];
       match found.kind
       case DeleteSync => f.status.Deleting? && NamesOrEmpty(f.deletingJob, found.id)
       case OtherSync => f.status.Active? && InProgress(f.syncStatus) && NamesOrEmpty(f.lastSyncJob, found.id)
  }

  function RepairedFederation(f: Federation, kind: JobKind, reason: string): Federation {
    var failed := f.(syncStatus := SyncFailed, syncMessage := Some(reason));
    if kind.DeleteSync? then failed.(status := Active, deletingJob := None) else failed
  }

  function FederationUpdate(db: Db, found: Found, reason: string): Db {
    if FederationMatches(db, found)
    then db.(federations := db.federations[found.federation :=
                              RepairedFederation(db.federations[found.federation], found.kind, reason)])
    else db
  }

  datatype Outcome = NoActiveJob | JobChanged | FederationChanged | Repaired | FederationGone

  /** The database as the tool and other processes share it. */
  class SharedDb {
    var db: Db

    constructor (db: Db)
      ensures this.db == db
    {
      this.db := db;
    }

    method Interfere(db: Db)
      modifies this
      ensures this.db == db
    {
      this.db := db;
    }

    method FindNewestActive(federation: FederationId) returns (id: Option<JobId>)
      ensures id.None? <==> forall j :: j in db.jobs && db.jobs[j].federation == federation ==>
                              db.jobs[j].status != Pending && db.jobs[j].status != Syncing
      ensures id.Some? ==>
                && IsNewestActive(db, federation, id.value)
                && id.value in db.jobs && db.jobs[id.value].federation == federation
                && (db.jobs[id.value].status == Pending || db.jobs[id.value].status == Syncing)
                && forall j :: j in db.jobs && db.jobs[j].federation == federation &&
                               (db.jobs[j].status == Pending || db.jobs[j].status == Syncing) ==>
                     db.jobs[j].createdAt <= db.jobs[id.value].createdAt
    {
      var candidates := set j | j in db.jobs && db.jobs[j].federation == federation && IsActive(db.jobs[j]);
      var rest := candidates;
      id := None;
      while rest != {}
        invariant rest <= candidates
        invariant id.None? <==> rest == candidates
        invariant id.Some? ==> id.value in candidates - rest
        invariant id.Some? ==> forall j :: j in candidates - rest ==>
            db.jobs[j].createdAt <= db.jobs[id.value].createdAt
        decreases rest
      {
        var j :| j in rest;
        if id.None? || db.jobs[id.value].createdAt < db.jobs[j].createdAt {
          id := Some(j);
        }
        rest := rest - {j};
      }
      if id.None? {
        assert forall j :: j in db.jobs && db.jobs[j].federation == federation && IsActive(db.jobs[j]) ==>
            j in candidates;
      }
    }

    /** `_fail_active_job`, with other processes running before each of its four database calls.
      *
      * `atJob` and `atFederation` are the states its two updates met; `read` is what it had read. */
    method FailActiveJob(federation: FederationId, reason: string, now: int, others: (nat, Db) -> Db)
      returns (outcome: Outcome, ghost read: Option<Found>, ghost atJob: Db, ghost atFederation: Db)
      modifies this
      ensures outcome.NoActiveJob? <==> forall j :: j in others(0, old(db)).jobs &&
                                                    others(0, old(db)).jobs[j].federation == federation ==>
                                          !IsActive(others(0, old(db)).jobs[j])
      ensures outcome.NoActiveJob? ==> db == others(0, old(db)) && read.None?
      ensures !outcome.NoActiveJob? ==>
                && read.Some? && IsNewestActive(others(0, old(db)), federation, read.value.id)
                && read.value == FoundOf(others(0, old(db)), read.value.id)
                && atJob == others(1, others(0, old(db)))
      ensures outcome.JobChanged? ==> !JobMatches(atJob, read.value) && db == atJob
      ensures outcome.Repaired? || outcome.FederationChanged? || outcome.FederationGone? ==>
                && JobMatches(atJob, read.value)
                && atFederation == others(2, JobUpdate(atJob, read.value, reason, now))
                && (outcome.Repaired? <==> FederationMatches(atFederation, read.value))
      ensures outcome.Repaired? ==>
                && db == FederationUpdate(atFederation, read.value, reason)
                && federation in atFederation.federations && federation in db.federations
                && var was := atFederation.federations[federation];
                   db.federations[federation] ==
                   Federation(Active, SyncFailed, Some(reason), was.lastSyncJob,
                              if read.value.kind.DeleteSync? then None else was.deletingJob)
      ensures outcome.FederationChanged? || outcome.FederationGone? ==>
                && db == others(3, atFederation)
                && (outcome.FederationGone? <==> federation !in db.federations)
    {
      Interfere(others(0, db));
      read, atJob, atFederation := None, db, db;
      var id := FindNewestActive(federation);
      if id.None? {
        return NoActiveJob, read, atJob, atFederation;
      }
      var found := FoundOf(db, id.value);
      read := Some(found);
      Interfere(others(1, db));
      atJob := db;
      if !JobMatches(db, found) {
        return JobChanged, read, atJob, atFederation;
      }
      db := db.(jobs := db.jobs[found.id := FailedJob(db.jobs[found.id], reason, now)]);
      Interfere(others(2, db));
      atFederation := db;
      if FederationMatches(db, found) {
        db := db.(federations := db.federations[federation :=
                                   RepairedFederation(db.federations[federation], found.kind, reason)]);
        return Repaired, read, atJob, atFederation;
      }
      Interfere(others(3, db));
      outcome := if federation in db.federations then FederationChanged else FederationGone;
    }
  }
}
