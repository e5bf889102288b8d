/** The repair tool over whole runs: any number of operators, and other processes in between. */
module JobAdminSafety {
  import opened Options
  import opened JobAdmin

  /** The first update writes at most the job that was read, never a finished one, and no federation. */
  lemma JobUpdateIsFenced(db: Db, found: Found, reason: string, now: int)
    ensures var after := JobUpdate(db, found, reason, now);
            && after.federations == db.federations
            && after.jobs.Keys == db.jobs.Keys
            && (forall j :: j in db.jobs && (j != found.id || !IsActive(db.jobs[j])) ==> after.jobs[j] == db.jobs[j])
            && (after != db <==> JobMatches(db, found))
  {
  }

  /** A federation is written exactly when the owner field of this kind of job names this job or none;
    * so a federation owned, for this kind, by another job is never written. */
  lemma FederationUpdateRespectsOwner(db: Db, found: Found, reason: string)
    ensures var after := FederationUpdate(db, found, reason);
            && after.jobs == db.jobs
            && after.federations.Keys == db.federations.Keys
            && (forall f :: f in db.federations && f != found.federation ==> after.federations[f] == db.federations[f])
            && (found.federation in db.federations ==>
                  var was := db.federations[found.federation];
                  && (found.kind.DeleteSync? && was.deletingJob.Some? && was.deletingJob != Some(found.id) ==>
                      after == db)
                  && (found.kind.OtherSync? && was.lastSyncJob.Some? && was.lastSyncJob != Some(found.id) ==>
                      after == db))
  {
  }

  /** Some owner field names a job other than this one. */
  predicate NamesAnother(f: Federation, id: JobId) {
    (f.lastSyncJob.Some? && f.lastSyncJob != Some(id)) || (f.deletingJob.Some? && f.deletingJob != Some(id))
  }

  // ---------------------------------------------------------------- whole runs

  datatype Operator = Idle | Holding(found: Found) | Marked(found: Found) | Finished

  /** `failedBy` lists, in order, the operator and the job of every first update that matched. */
  datatype World = World(db: Db, operators: map<nat, Operator>, failedBy: seq<(nat, JobId)>)

  datatype Event =
    | Read(operator: nat, federation: FederationId, id: JobId)
    | Mark(operator: nat, reason: string, now: int)
    | Repair(operator: nat, reason: string)
    | Others(db: Db)

  /** Other processes add and finish jobs as they like, but leave finished jobs alone. */
  predicate KeepsFinished(before: Db, after: Db) {
    forall j :: j in before.jobs && !IsActive(before.jobs[j]) ==> j in after.jobs && after.jobs[j] == before.jobs[j]
  }

  function Phase(w: World, operator: nat): Operator {
    if operator in w.operators then w.operators[operator] else Idle
  }

  function Step(w: World, event: Event): World {
    match event
    case Read(o, federation, id) =>
      if Phase(w, o).Idle? && IsNewestActive(w.db, federation, id)
      then w.(operators := w.operators[o := Holding(FoundOf(w.db, id))]) else w
    case Mark(o, reason, now) =>
      if !Phase(w, o).Holding? then w
      else
        var found := Phase(w, o).found;
        if JobMatches(w.db, found)
        then World(JobUpdate(w.db, found, reason, now), w.operators[o := Marked(found)], w.failedBy + [(o, found.id)])
        else w.(operators := w.operators[o := Finished])
    case Repair(o, reason) =>
      if !Phase(w, o).Marked? then w
      else World(FederationUpdate(w.db, Phase(w, o).found, reason), w.operators[o := Finished], w.failedBy)
    case Others(db) => if KeepsFinished(w.db, db) then w.(db := db) else w
  }

  function Run(db: Db, events: seq<Event>): World {
    if events == [] then World(db, map[], [])
    else Step(Run(db, events[..|events| - 1]), events[|events| - 1])
  }

  ghost predicate Inv(w: World) {
    && (forall i :: 0 <= i < |w.failedBy| ==> w.failedBy[i].1 in w.db.jobs && w.db.jobs[w.failedBy[i].1].status.Failed?)
    && (forall i, j :: 0 <= i < j < |w.failedBy| ==> w.failedBy[i].1 != w.failedBy[j].1)
    && (forall o :: o in w.operators && w.operators[o].Marked? ==>
          exists i :: 0 <= i < |w.failedBy| && w.failedBy[i] == (o, w.operators[o].found.id))
  }

  lemma MarkKeeps(w: World, o: nat, reason: string, now: int)
    requires Inv(w) && Phase(w, o).Holding? && JobMatches(w.db, Phase(w, o).found)
    ensures Inv(Step(w, Mark(o, reason, now)))
  {
    var t := Step(w, Mark(o, reason, now));
    var n := |w.failedBy|;
    assert t.failedBy[n] == (o, Phase(w, o).found.id);
    forall p | p in t.operators && t.operators[p].Marked?
      ensures exists i :: 0 <= i < |t.failedBy| && t.failedBy[i] == (p, t.operators[p].found.id)
    {
      if p != o {
        var i :| 0 <= i < n && w.failedBy[i] == (p, w.operators[p].found.id);
        assert t.failedBy[i] == w.failedBy[i];
      }
    }
  }

  lemma StepKeeps(w: World, event: Event)
    requires Inv(w)
    ensures Inv(Step(w, event))
    ensures w.failedBy <= Step(w, event).failedBy
    ensures KeepsFinished(w.db, Step(w, event).db)
  {
    match event
    case Read(_, _, _) =>
    case Mark(o, reason, now) =>
      if Phase(w, o).Holding? && JobMatches(w.db, Phase(w, o).found) {
        MarkKeeps(w, o, reason, now);
      }
    case Repair(_, _) =>
    case Others(_) =>
  }

  lemma {:induction false} RunKeeps(db: Db, events: seq<Event>)
    ensures Inv(Run(db, events))
  {
    if events != [] {
      RunKeeps(db, events[..|events| - 1]);
      StepKeeps(Run(db, events[..|events| - 1]), events[|events| - 1]);
    }
  }

  /** However many operators race, a job is failed by at most one of them. */
  lemma FailedByOneOperator(db: Db, events: seq<Event>, i: nat, j: nat)
    requires var w := Run(db, events);
             i < |w.failedBy| && j < |w.failedBy| && w.failedBy[i].1 == w.failedBy[j].1
    ensures i == j
  {
    RunKeeps(db, events);
  }

  /** A finished job is never altered again, whatever follows. */
  lemma {:induction false} FinishedJobsAreFinal(db: Db, events: seq<Event>, more: seq<Event>, id: JobId)
    requires id in Run(db, events).db.jobs && !IsActive(Run(db, events).db.jobs[id])
    ensures id in Run(db, events + more).db.jobs
    ensures Run(db, events + more).db.jobs[id] == Run(db, events).db.jobs[id]
  {
    if more == [] {
      assert events + more == events;
    } else {
      var init := more[..|more| - 1];
      FinishedJobsAreFinal(db, events, init, id);
      RunKeeps(db, events + init);
      StepKeeps(Run(db, events + init), more[|more| - 1]);
      assert (events + more)[..|events + more| - 1] == events + init;
    }
  }

  /** Only an operator whose first update failed the job goes on to its federation. */
  lemma RepairFollowsFailure(db: Db, events: seq<Event>, operator: nat, reason: string)
    requires var w := Run(db, events);
             Step(w, Repair(operator, reason)).db != w.db
    ensures var w := Run(db, events);
            && Phase(w, operator).Marked?
            && FederationMatches(w.db, Phase(w, operator).found)
            && (exists i :: 0 <= i < |w.failedBy| && w.failedBy[i] == (operator, Phase(w, operator).found.id))
            && Phase(w, operator).found.id in w.db.jobs
            && w.db.jobs[Phase(w, operator).found.id].status.Failed?
  {
    RunKeeps(db, events);
  }

  // ---------------------------------------------------------------- what was read, and what is written

  /** Event `k` of the run is the read that gave this operator what it holds. */
  ghost predicate ReadAt(db: Db, events: seq<Event>, k: nat, operator: nat, found: Found) {
    && k < |events| && events[k] == Read(operator, found.federation, found.id)
    && IsNewestActive(Run(db, events[..k]).db, found.federation, found.id)
    && found == FoundOf(Run(db, events[..k]).db, found.id)
  }

  predicate Holds(o: Operator) {
    o.Holding? || o.Marked?
  }

  lemma {:induction false} HeldWasRead(db: Db, events: seq<Event>, operator: nat) returns (k: nat)
    requires Holds(Phase(Run(db, events), operator))
    ensures ReadAt(db, events, k, operator, Phase(Run(db, events), operator).found)
  {
    var init := events[..|events| - 1];
    var last := events[|events| - 1];
    var before := Run(db, init);
    if Holds(Phase(before, operator)) {
      k := HeldWasRead(db, init, operator);
      assert init[..k] == events[..k] && init[k] == events[k];
    } else {
      k := |events| - 1;
      assert events[..k] == init;
    }
  }

  /** A first update that writes anything fails exactly the job that this operator read, the newest one pending or
    * syncing then, which is still active, and under the lease token that it had when it was read; nothing else
    * changes. */
  lemma FailedUnderTokenRead(db: Db, events: seq<Event>, operator: nat, reason: string, now: int) returns (k: nat)
    requires Step(Run(db, events), Mark(operator, reason, now)).db != Run(db, events).db
    ensures k < |events| && events[k].Read? && events[k].operator == operator
    ensures var was, db' := Run(db, events[..k]).db, Run(db, events).db;
            var id := events[k].id;
            && id in was.jobs && was.jobs[id].federation == events[k].federation
            && (was.jobs[id].status == Pending || was.jobs[id].status == Syncing)
            && (forall j :: j in was.jobs && was.jobs[j].federation == events[k].federation &&
                            (was.jobs[j].status == Pending || was.jobs[j].status == Syncing) ==>
                  was.jobs[j].createdAt <= was.jobs[id].createdAt)
            && id in db'.jobs && IsActive(db'.jobs[id])
            && db'.jobs[id].leaseToken == was.jobs[id].leaseToken
            && db'.jobs[id].federation == was.jobs[id].federation
            && Step(Run(db, events), Mark(operator, reason, now)).db ==
               db'.(jobs := db'.jobs[id := FailedJob(db'.jobs[id], reason, now)])
  {
    k := HeldWasRead(db, events, operator);
    JobUpdateIsFenced(Run(db, events).db, Phase(Run(db, events), operator).found, reason, now);
  }

  // ---------------------------------------------------------------- what is written, field by field

  /** In every run the first update writes exactly when the job is still pending or syncing, of the federation and under
    * the lease token that were read; then the job has failed for this reason at this moment, holds no lease, and is
    * otherwise as it was. */
  lemma MarkWrites(db: Db, events: seq<Event>, operator: nat, reason: string, now: int)
    requires Phase(Run(db, events), operator).Holding?
    ensures var before := Run(db, events).db;
            var after := Step(Run(db, events), Mark(operator, reason, now)).db;
            var found := Phase(Run(db, events), operator).found;
            if found.id !in before.jobs then after == before
            else
              match before.jobs[found.id]
              case Job(federation, status, kind, leaseToken, createdAt, _, _) =>
                if federation == found.federation && (status == Pending || status == Syncing) &&
                   leaseToken == found.leaseToken
                then after == before.(jobs := before.jobs[found.id :=
                                      Job(federation, Failed, kind, None, createdAt, Some(reason), Some(now))])
                else after == before
  {
    hide Run;
  }

  /** In every run the second update writes exactly when the federation is still being deleted, after a delete job, or
    * is active with a sync pending or running, after any other, and its owner field of that kind names this job or
    * none; then the sync has failed for this reason, a deleting federation is active again and owned by no delete job,
    * and everything else is as it was. */
  lemma RepairWrites(db: Db, events: seq<Event>, operator: nat, reason: string)
    requires Phase(Run(db, events), operator).Marked?
    ensures var before := Run(db, events).db;
            var after := Step(Run(db, events), Repair(operator, reason)).db;
            var found := Phase(Run(db, events), operator).found;
            if found.federation !in before.federations then after == before
            else
              match (found.kind, before.federations[found.federation])
              case (DeleteSync, Federation(Deleting, _, _, last, owner)) =>
                if owner == Some(found.id) || owner == None
                then after == before.(federations := before.federations[found.federation :=
                                      Federation(Active, SyncFailed, Some(reason), last, None)])
                else after == before
              case (OtherSync, Federation(Active, sync, _, last, owner)) =>
                if (sync == SyncPending || sync == SyncSyncing) && (last == Some(found.id) || last == None)
                then after == before.(federations := before.federations[found.federation :=
                                      Federation(Active, SyncFailed, Some(reason), last, owner)])
                else after == before
              case _ => after == before
  {
    hide Run;
  }

  function TokenAt(db: Db, events: seq<Event>, n: nat, id: JobId): Option<string>
    requires n <= |events|
  {
    var jobs := Run(db, events[..n]).db.jobs;
    if id in jobs then jobs[id].leaseToken else None
  }

  /** A job gets a token only on a claim, which mints one that it never had before. */
  ghost predicate TokensAreFresh(db: Db, events: seq<Event>, id: JobId) {
    forall m, n :: 0 <= m <= n < |events| &&
                   TokenAt(db, events, n + 1, id).Some? &&
                       TokenAt(db, events, n, id) != TokenAt(db, events, n + 1, id) ==>
      TokenAt(db, events, m, id) != TokenAt(db, events, n + 1, id)
  }

  /** With fresh tokens, having the same token at two moments means having it all the time in between. */
  lemma {:induction false} SameTokenThroughout(db: Db, events: seq<Event>, id: JobId, k: nat, m: nat, n: nat)
    requires TokensAreFresh(db, events, id) && k <= m <= n <= |events|
    requires TokenAt(db, events, k, id).Some? && TokenAt(db, events, n, id) == TokenAt(db, events, k, id)
    ensures TokenAt(db, events, m, id) == TokenAt(db, events, k, id)
  {
    if m < n {
      assert TokenAt(db, events, n - 1, id) == TokenAt(db, events, n, id);
      SameTokenThroughout(db, events, id, k, m, n - 1);
    }
  }

  /** So a leased job is failed only if nobody took it over, or released it, since it was read. */
  lemma FailedOnlyWithoutTakeover(db: Db, events: seq<Event>, operator: nat, reason: string, now: int) returns (k: nat)
    requires Step(Run(db, events), Mark(operator, reason, now)).db != Run(db, events).db
    requires forall id :: TokensAreFresh(db, events, id)
    ensures k < |events| && events[k].Read? && events[k].operator == operator
    ensures TokenAt(db, events, k, events[k].id).Some? ==>
              forall m :: k <= m <= |events| ==>
                TokenAt(db, events, m, events[k].id) == TokenAt(db, events, k, events[k].id)
  {
    k := FailedUnderTokenRead(db, events, operator, reason, now);
    var id := events[k].id;
    assert events[..|events|] == events;
    if TokenAt(db, events, k, id).Some? {
      forall m | k <= m <= |events| ensures TokenAt(db, events, m, id) == TokenAt(db, events, k, id) {
        SameTokenThroughout(db, events, id, k, m, |events|);
      }
    }
  }

  /** The owner field that a repair after this kind of job does not look at. */
  function UnreadOwner(f: Federation, kind: JobKind): Option<JobId> {
    if kind.DeleteSync? then f.lastSyncJob else f.deletingJob
  }

  /** The owner field that it does look at. */
  function ReadOwner(f: Federation, kind: JobKind): Option<JobId> {
    if kind.DeleteSync? then f.deletingJob else f.lastSyncJob
  }

  /** In every run, a repair that writes anything follows this operator's own failing of its job, and writes that
    * job's federation alone, whose owner field of the job's kind names that job or none; so the federation names
    * another job exactly when the owner field of the other kind does. */
  lemma RepairOverwritesAnotherIff(db: Db, events: seq<Event>, operator: nat, reason: string)
    requires Step(Run(db, events), Repair(operator, reason)).db != Run(db, events).db
    ensures var w := Run(db, events);
            && Phase(w, operator).Marked?
            && var found := Phase(w, operator).found;
               && found.federation in w.db.federations
               && found.id in w.db.jobs && w.db.jobs[found.id].status.Failed?
               && NamesOrEmpty(ReadOwner(w.db.federations[found.federation], found.kind), found.id)
               && (var after := Step(w, Repair(operator, reason)).db;
                   && after.jobs == w.db.jobs && after.federations.Keys == w.db.federations.Keys
                   && forall f :: f in w.db.federations && f != found.federation ==>
                        after.federations[f] == w.db.federations[f])
               && (NamesAnother(w.db.federations[found.federation], found.id) <==>
                     var other := UnreadOwner(w.db.federations[found.federation], found.kind);
                     other.Some? && other != Some(found.id))
  {
    RepairFollowsFailure(db, events, operator, reason);
    var w := Run(db, events);
    FederationUpdateRespectsOwner(w.db, Phase(w, operator).found, reason);
  }

  // ---------------------------------------------------------------- what operators change between them

  predicate FailedIn(w: World, id: JobId) {
    exists i :: 0 <= i < |w.failedBy| && w.failedBy[i].1 == id
  }

  ghost predicate JobsAccounted(db: Db, w: World) {
    && w.db.jobs.Keys == db.jobs.Keys
    && (forall i :: 0 <= i < |w.failedBy| ==> w.failedBy[i].1 in db.jobs)
    && forall j :: j in db.jobs ==>
         && w.db.jobs[j].federation == db.jobs[j].federation
         && if FailedIn(w, j) then IsActive(db.jobs[j]) && w.db.jobs[j].status.Failed? else w.db.jobs[j] == db.jobs[j]
  }

  ghost predicate FederationsAccounted(db: Db, w: World) {
    && w.db.federations.Keys == db.federations.Keys
    && forall f :: f in db.federations && w.db.federations[f] != db.federations[f] ==>
         exists j :: j in db.jobs && FailedIn(w, j) && db.jobs[j].federation == f
  }

  predicate HoldersAccounted(db: Db, w: World) {
    forall o :: o in w.operators && Holds(w.operators[o]) ==>
      var found := w.operators[o].found; found.id in db.jobs && db.jobs[found.id].federation == found.federation
  }

  lemma MarkAccounted(db: Db, w: World, o: nat, reason: string, now: int)
    requires JobsAccounted(db, w) && FederationsAccounted(db, w) && Phase(w, o).Holding?
    requires JobMatches(w.db, Phase(w, o).found)
    ensures JobsAccounted(db, Step(w, Mark(o, reason, now))) && FederationsAccounted(db, Step(w, Mark(o, reason, now)))
  {
    var t := Step(w, Mark(o, reason, now));
    var id := Phase(w, o).found.id;
    JobUpdateIsFenced(w.db, Phase(w, o).found, reason, now);
    assert t.failedBy[|w.failedBy|] == (o, id);
    forall j ensures FailedIn(t, j) <==> FailedIn(w, j) || j == id {
      if FailedIn(w, j) {
        var i :| 0 <= i < |w.failedBy| && w.failedBy[i].1 == j;
        assert t.failedBy[i].1 == j;
      }
    }
  }

  lemma RepairAccounted(db: Db, w: World, o: nat, reason: string)
    requires Inv(w) && JobsAccounted(db, w) && FederationsAccounted(db, w) && HoldersAccounted(db, w)
    requires Phase(w, o).Marked?
    ensures JobsAccounted(db, Step(w, Repair(o, reason))) && FederationsAccounted(db, Step(w, Repair(o, reason)))
  {
    var found := Phase(w, o).found;
    FederationUpdateRespectsOwner(w.db, found, reason);
    assert FailedIn(w, found.id);
    forall j ensures FailedIn(Step(w, Repair(o, reason)), j) <==> FailedIn(w, j) { }
  }

  ghost predicate Accounted(db: Db, w: World) {
    JobsAccounted(db, w) && FederationsAccounted(db, w) && HoldersAccounted(db, w)
  }

  lemma HoldersStep(db: Db, w: World, event: Event)
    requires JobsAccounted(db, w) && HoldersAccounted(db, w)
    ensures HoldersAccounted(db, Step(w, event))
  {
    hide FailedIn, JobUpdate, FederationUpdate;
  }

  lemma StepAccounted(db: Db, w: World, event: Event)
    requires Inv(w) && Accounted(db, w) && !event.Others?
    ensures Accounted(db, Step(w, event))
  {
    HoldersStep(db, w, event);
    if event.Mark? && Phase(w, event.operator).Holding? && JobMatches(w.db, Phase(w, event.operator).found) {
      MarkAccounted(db, w, event.operator, event.reason, event.now);
    } else if event.Repair? && Phase(w, event.operator).Marked? {
      RepairAccounted(db, w, event.operator, event.reason);
    } else {
      assert Step(w, event).db == w.db && Step(w, event).failedBy == w.failedBy;
      SameAccounts(db, w, Step(w, event));
    }
    hide *;
  }

  lemma SameAccounts(db: Db, w: World, t: World)
    requires JobsAccounted(db, w) && FederationsAccounted(db, w) && t.db == w.db && t.failedBy == w.failedBy
    ensures JobsAccounted(db, t) && FederationsAccounted(db, t)
  {
    assert forall j :: FailedIn(t, j) <==> FailedIn(w, j);
  }

  lemma {:induction false} AllAccounted(db: Db, events: seq<Event>)
    requires forall e <- events :: !e.Others?
    ensures Accounted(db, Run(db, events))
  {
    if events != [] {
      AllAccounted(db, events[..|events| - 1]);
      RunKeeps(db, events[..|events| - 1]);
      hide Accounted, Inv, Step;
      StepAccounted(db, Run(db, events[..|events| - 1]), events[|events| - 1]);
    }
  }

  /** However operators race, between them they alter exactly the jobs that their first updates failed, each of which
    * was active, and only federations of such jobs. */
  lemma OperatorsAlterOnlyFailures(db: Db, events: seq<Event>, id: JobId)
    requires (forall e <- events :: !e.Others?) && id in db.jobs
    ensures var w := Run(db, events);
            && w.db.jobs.Keys == db.jobs.Keys && w.db.federations.Keys == db.federations.Keys
            && (w.db.jobs[id] != db.jobs[id] <==> FailedIn(w, id))
            && (FailedIn(w, id) ==> IsActive(db.jobs[id]) && w.db.jobs[id].status.Failed?)
            && forall f :: f in db.federations && w.db.federations[f] != db.federations[f] ==>
                 exists j :: j in db.jobs && FailedIn(w, j) && db.jobs[j].federation == f
  {
    AllAccounted(db, events);
  }

  /** A run of one operator on a federation that is being deleted by job 8 and was last synced by job 7: the repair
    * reports job 7's successful sync as failed. */
  lemma DeleteRepairIgnoresLastSync(reason: string, now: int)
    ensures var job := Job(1, Syncing, DeleteSync, Some("t"), 0, None, None);
            var f := Federation(Deleting, SyncSuccess, None, Some(7), Some(8));
            var w := Run(Db(map[8 := job], map[1 := f]), [Read(0, 1, 8), Mark(0, reason, now), Repair(0, reason)]);
            && w.failedBy == [(0, 8)] && 1 in w.db.federations
            && w.db.federations[1] == Federation(Active, SyncFailed, Some(reason), Some(7), None)
  {
    var job := Job(1, Syncing, DeleteSync, Some("t"), 0, None, None);
    var db := Db(map[8 := job], map[1 := Federation(Deleting, SyncSuccess, None, Some(7), Some(8))]);
    var e := [Read(0, 1, 8), Mark(0, reason, now), Repair(0, reason)];
    assert e[..2] == [Read(0, 1, 8), Mark(0, reason, now)] && e[..2][..1] == [Read(0, 1, 8)] && e[..1][..0] == [];
    assert Run(db, e[..1]) == World(db, map[0 := Holding(Found(8, 1, DeleteSync, Some("t")))], []);
    assert Phase(Run(db, e[..2]), 0) == Marked(Found(8, 1, DeleteSync, Some("t")));
  }
}
