/** Applying a user purge: re-plan, check, clean vectors, re-plan again, then delete in stages. */
module PurgeUsers {
  import opened Options
  import opened BsonIds
  import opened PurgePlan
  import D = StagedDeletion
  import V = VectorCleanup

  const DELETE_BATCH_SIZE := 500

  function StagesOf(deletions: set<Key>): seq<set<Key>> {
    seq(|DELETE_ORDER|, i requires 0 <= i < |DELETE_ORDER| => InCollection(deletions, DELETE_ORDER[i]))
  }

  datatype Outcome = Stopped(error: SafetyError) | Interrupted | Purged

  /** Other writers, one turn before each of the purge's own operations. */
  type Writers = (nat, Db) -> Db

  ghost predicate Quiet(others: Writers) {
    forall n, d :: others(n, d) == d
  }

  method TakeBatch(rest: set<Key>) returns (batch: set<Key>)
    requires rest != {}
    ensures batch != {} && batch <= rest
    ensures |batch| == if |rest| <= DELETE_BATCH_SIZE then |rest| else DELETE_BATCH_SIZE
  {
    batch := {};
    var left := rest;
    while |batch| < DELETE_BATCH_SIZE && left != {}
      invariant batch !! left && batch + left == rest
      invariant |batch| <= DELETE_BATCH_SIZE && |batch| + |left| == |rest|
      decreases left
    {
      var j :| j in left;
      batch, left := batch + {j}, left - {j};
    }
    if left == {} {
      assert batch == rest;
    }
  }

  function Without(d: Db, keys: set<Key>): Db {
    d - keys
  }

  lemma MinusMinus(d: Db, a: set<Key>, b: set<Key>)
    ensures Without(Without(d, a), b) == Without(d, a + b)
  {
  }

  /** One turn of the other writers, then one `delete_many`; `hit` is what that call took. */
  method DeleteBatch(store: D.Store<Key, Doc>, batch: set<Key>, fault: Option<set<Key>>, others: Writers, tick: nat,
                     ghost quiet: bool)
    returns (deleted: Option<nat>, ghost hit: set<Key>)
    requires quiet ==> Quiet(others)
    modifies store
    ensures hit <= batch && (deleted.Some? <==> fault.None?) && (deleted.Some? ==> hit == batch)
    ensures old(store.gone) <= store.gone <= old(store.gone) + hit
    ensures quiet ==> store.docs == Without(old(store.docs), hit)
    ensures quiet && deleted.Some? ==> deleted.value == |old(store.docs).Keys * batch|
  {
    store.Interfere(others(tick, store.docs));
    hit := if fault.None? then batch else batch - fault.value;
    deleted := store.DeleteMany(batch, fault);
  }

  /** `calls` calls have deleted `part` of `ids`, every one of them full unless nothing is left, and only these are
    * `gone` since the start. */
  ghost predicate Progress(ids: set<Key>, part: set<Key>, rest: set<Key>, calls: nat, had: set<Key>, gone: set<Key>) {
    && part !! rest && part + rest == ids
    && |part| <= DELETE_BATCH_SIZE * calls < |part| + DELETE_BATCH_SIZE
    && (rest != {} ==> |part| == DELETE_BATCH_SIZE * calls)
    && had <= gone <= had + part
  }

  lemma BatchTaken(ids: set<Key>, part: set<Key>, rest: set<Key>, batch: set<Key>, calls: nat,
                   had: set<Key>, gone: set<Key>, after: set<Key>)
    requires Progress(ids, part, rest, calls, had, gone) && rest != {} && batch <= rest
    requires |batch| == if |rest| <= DELETE_BATCH_SIZE then |rest| else DELETE_BATCH_SIZE
    requires gone <= after <= gone + batch
    ensures Progress(ids, part + batch, rest - batch, calls + 1, had, after)
  {
    assert rest == batch + (rest - batch);
    assert |rest| == |batch| + |rest - batch|;
    assert |part + batch| == |part| + |batch|;
  }

  lemma BatchFailed(ids: set<Key>, part: set<Key>, rest: set<Key>, hit: set<Key>, calls: nat,
                    had: set<Key>, gone: set<Key>, after: set<Key>)
    requires Progress(ids, part, rest, calls, had, gone) && hit <= rest && gone <= after <= gone + hit
    ensures part + hit <= ids && had <= after <= had + ids
  {
  }

  lemma AllTaken(ids: set<Key>, part: set<Key>, calls: nat, had: set<Key>, gone: set<Key>)
    requires Progress(ids, part, {}, calls, had, gone)
    ensures part == ids && |ids| <= DELETE_BATCH_SIZE * calls < |ids| + DELETE_BATCH_SIZE && had <= gone <= had + ids
  {
  }

  /** One turn of the inner loop: the next batch goes, or a part of it before the call fails. */
  method DeleteNext(store: D.Store<Key, Doc>, rest: set<Key>, fault: Option<set<Key>>, others: Writers, tick: nat,
                    ghost ids: set<Key>, ghost part: set<Key>, ghost calls: nat, ghost had: set<Key>, ghost start: Db)
    returns (ok: bool, left: set<Key>, ghost taken: set<Key>)
    requires rest != {} && Progress(ids, part, rest, calls, had, store.gone)
    requires Quiet(others) ==> store.docs == Without(start, part)
    modifies store
    ensures ok <==> fault.None?
    ensures ok ==> left < rest && Progress(ids, taken, left, calls + 1, had, store.gone)
    ensures taken <= ids && had <= store.gone <= had + ids
    ensures Quiet(others) ==> store.docs == Without(start, taken)
  {
    ghost var gone := store.gone;
    var batch := TakeBatch(rest);
    left := rest - batch;
    assert left < rest;
    var result: Option<nat>;
    ghost var hit: set<Key>;
    result, hit := DeleteBatch(store, batch, fault, others, tick, Quiet(others));
    hide Quiet, Without;
    MinusMinus(start, part, hit);
    BatchFailed(ids, part, rest, hit, calls, had, gone, store.gone);
    ok := result.Some?;
    taken := part + hit;
    if ok {
      BatchTaken(ids, part, rest, batch, calls, had, gone, store.gone);
    }
  }

  /** Deletes one collection's ids batch by batch, in as few calls as the batch size allows. */
  method DeleteCollection(store: D.Store<Key, Doc>, ids: set<Key>, faults: nat -> Option<set<Key>>, others: Writers,
                          tick: nat)
    returns (ok: bool, next: nat, ghost part: set<Key>)
    modifies store
    ensures part <= ids && (ok ==> part == ids)
    ensures next >= tick && (!ok ==> next > tick && faults(next - 1).Some?)
    ensures ok ==> |ids| <= 500 * (next - tick) < |ids| + 500
    ensures old(store.gone) <= store.gone <= old(store.gone) + ids
    ensures Quiet(others) ==> store.docs == Without(old(store.docs), part)
  {
    var rest := ids;
    next, part := tick, {};
    ghost var start, had := store.docs, store.gone;
    assert Progress(ids, {}, ids, 0, had, had) && Without(start, {}) == start;
    hide Quiet, Progress, Without;
    while rest != {}
      invariant next >= tick && Progress(ids, part, rest, next - tick, had, store.gone)
      invariant Quiet(others) ==> store.docs == Without(start, part)
      decreases rest
    {
      ok, rest, part := DeleteNext(store, rest, faults(next), others, next, ids, part, next - tick, had, start);
      next := next + 1;
      if !ok {
        return;
      }
    }
    AllTaken(ids, part, next - tick, had, store.gone);
    ok := true;
  }

  ghost predicate SomeFault(faults: nat -> Option<set<Key>>) {
    exists n :: faults(n).Some?
  }

  /** The deletion loop of `apply_plan`.  Whatever the other writers do, only planned documents are
    * deleted; when they do nothing, the loop ends in a crash state of the planned stages. */
  method DeletePlanned(store: D.Store<Key, Doc>, deletions: set<Key>, faults: nat -> Option<set<Key>>, others: Writers)
    returns (ok: bool, ghost stage: nat, ghost part: set<Key>)
    modifies store
    ensures old(store.gone) <= store.gone <= old(store.gone) + deletions
    ensures stage <= |StagesOf(deletions)| && (ok <==> stage == |StagesOf(deletions)|)
    ensures !ok ==> SomeFault(faults)
    ensures Quiet(others) ==> store.docs == D.Crash(old(store.docs), StagesOf(deletions), stage, part)
  {
    var tick := 0;
    stage, part := 0, {};
    ghost var start := store.docs;
    ghost var stages := StagesOf(deletions);
    for i := 0 to |DELETE_ORDER|
      invariant stage == i && part == {}
      invariant old(store.gone) <= store.gone <= old(store.gone) + deletions
      invariant Quiet(others) ==> store.docs == start - D.Union(stages[..i])
    {
      var done: bool;
      ghost var p: set<Key>;
      done, tick, p := DeleteCollection(store, InCollection(deletions, DELETE_ORDER[i]), faults, others, tick);
      assert stages[..i + 1][..i] == stages[..i];
      MinusMinus(start, D.Union(stages[..i]), p);
      if !done {
        assert faults(tick - 1).Some?;
        part := p;
        assert p * stages[i] == p;
        return false, i, p;
      }
      stage := i + 1;
    }
    ok := true;
  }

  /** The vector store names a server by the spelling of its id. */
  function ServerIds(plan: Plan): set<string> {
    set k | k in plan.resources && k.col.McpServers? :: Str(k.id)
  }

  /** The vectors of planned servers are to go. */
  predicate NeedsVectors(plan: Plan, skipVector: bool) {
    ServerIds(plan) != {} && !skipVector
  }

  ghost predicate AreServers(servers: seq<string>, plan: Plan) {
    (set s | s in servers) == ServerIds(plan)
  }

  /** From this move on, only vectors of planned servers were deleted. */
  ghost predicate OnlyPlanned(moves: seq<V.Move>, from: nat, plan: Plan) {
    forall i :: from <= i < |moves| ==> moves[i] == V.Turn || moves[i].serverId in ServerIds(plan)
  }

  /** A completed vector phase since place `from` of the trail, under the generation active at its end. */
  ghost predicate VectorsCleaned(trail: seq<V.World>, from: int, servers: seq<string>, readings: seq<nat>,
                                 verified: seq<nat>)
  {
    && from >= 0 && trail != [] && trail[|trail| - 1].history != []
    && V.IsPhase(trail, from, servers, V.Active(trail[|trail| - 1]), readings, verified)
    && V.IsStillClean(trail, servers, V.Active(trail[|trail| - 1]), verified)
  }

  /** A failed one, for a reason that is there. */
  ghost predicate VectorsRefused(trail: seq<V.World>, moves: seq<V.Move>, servers: seq<string>, error: V.VectorError) {
    exists g :: V.IsJustified(trail, moves, g, servers, error)
  }

  method CleanVectors(cluster: V.Cluster, plan: Plan, servers: seq<string>, vectorFaults: nat -> set<nat>)
    returns (error: Option<V.VectorError>, ghost readings: seq<nat>, ghost verified: seq<nat>)
    requires cluster.Valid() && AreServers(servers, plan)
    modifies cluster
    ensures cluster.Valid() && old(cluster.trail) <= cluster.trail && old(cluster.moves) <= cluster.moves
    ensures OnlyPlanned(cluster.moves, |old(cluster.moves)|, plan)
    ensures error.None? ==> VectorsCleaned(cluster.trail, |old(cluster.trail)| - 1, servers, readings, verified)
    ensures error.Some? ==> VectorsRefused(cluster.trail, cluster.moves, servers, error.value)
  {
    hide V.IsPhase, V.IsStillClean, V.IsJustified, V.IsTrail;
    V.TrailEnds(cluster);
    ghost var from := |cluster.trail| - 1;
    var generation: V.Generation;
    error, generation, readings, verified := V.DeleteVectors(cluster, servers, vectorFaults);
    V.TrailEnds(cluster);
    if error.None? {
      V.PhaseGeneration(cluster, from, servers, generation, readings, verified);
    }
  }

  /** Exactly when the purge stops, and for what: `met` and `again` are the databases of its two plannings. */
  ghost predicate StopsFor(stop: Option<SafetyError>, plan: Plan, met: Db, again: Db, sampled: nat -> set<(Field, Key)>,
                           needsVectors: bool, allowUnmapped: bool, vectorError: Option<V.VectorError>)
  {
    var rebuilt := PlanOf(met, plan.targets, sampled(0));
    var passes := rebuilt.blocked == {} && (sampled(0) == {} || allowUnmapped) && rebuilt == plan && needsVectors;
    && (vectorError.Some? ==> passes)
    && stop == if rebuilt.blocked != {} then Some(ForeignAcls)
               else if sampled(0) != {} && !allowUnmapped then Some(UnmappedReferences)
               else if rebuilt != plan then Some(PlanChanged)
               else if vectorError.Some? then Some(VectorsNotCleaned)
               else if passes && PlanOf(again, plan.targets, sampled(1)) != plan then Some(PlanChanged)
               else None
  }

  /** The first planning of `apply_plan` and what it checks. */
  method CheckRebuilt(db: Db, plan: Plan, sample: set<(Field, Key)>, allowUnmapped: bool)
    returns (stop: Option<SafetyError>)
    ensures var rebuilt := PlanOf(db, plan.targets, sample);
            && (stop.None? ==> rebuilt == plan && plan.blocked == {} && (plan.unmapped == {} || allowUnmapped))
            && stop == if rebuilt.blocked != {} then Some(ForeignAcls)
                       else if sample != {} && !allowUnmapped then Some(UnmappedReferences)
                       else if rebuilt != plan then Some(PlanChanged)
                       else None
  {
    var current := BuildPlan(db, plan.targets, sample);
    ReportIsSample(db, plan.targets, sample);
    hide PlanOf;
    stop := CheckPlan(current, allowUnmapped);
    if stop.None? && current != plan {
      stop := Some(PlanChanged);
    }
  }

  /** The vector phase and the second planning, before which other writers have a turn. */
  method CleanAndReplan(store: D.Store<Key, Doc>, cluster: V.Cluster, plan: Plan, sample: set<(Field, Key)>,
                        turn: Db -> Db, servers: seq<string>, vectorFaults: nat -> set<nat>)
    returns (stop: Option<SafetyError>, ghost readings: seq<nat>, ghost verified: seq<nat>,
             ghost vectorError: Option<V.VectorError>)
    requires cluster.Valid() && AreServers(servers, plan)
    modifies store, cluster
    ensures store.gone == old(store.gone) && (store.docs == old(store.docs) || store.docs == turn(old(store.docs)))
    ensures stop == if vectorError.Some? then Some(VectorsNotCleaned)
                    else if PlanOf(turn(old(store.docs)), plan.targets, sample) != plan then Some(PlanChanged)
                    else None
    ensures cluster.Valid() && old(cluster.trail) <= cluster.trail && old(cluster.moves) <= cluster.moves
    ensures OnlyPlanned(cluster.moves, |old(cluster.moves)|, plan)
    ensures vectorError.Some? ==> VectorsRefused(cluster.trail, cluster.moves, servers, vectorError.value)
    ensures stop.None? ==> VectorsCleaned(cluster.trail, |old(cluster.trail)| - 1, servers, readings, verified)
  {
    hide PlanOf, V.Cluster.Valid, VectorsCleaned, VectorsRefused, AreServers, OnlyPlanned;
    var error: Option<V.VectorError>;
    error, readings, verified := CleanVectors(cluster, plan, servers, vectorFaults);
    vectorError := error;
    if error.Some? {
      stop := Some(VectorsNotCleaned);
      return;
    }
    store.Interfere(turn(store.docs));
    var again := BuildPlan(store.docs, plan.targets, sample);
    stop := if again != plan then Some(PlanChanged) else None;
  }

  /** Everything that `apply_plan` does before its first deletion. */
  method PassFences(store: D.Store<Key, Doc>, cluster: V.Cluster, plan: Plan, skipVector: bool, allowUnmapped: bool,
                    sampled: nat -> set<(Field, Key)>, others: Writers, servers: seq<string>,
                    vectorFaults: nat -> set<nat>)
    returns (stop: Option<SafetyError>, ghost readings: seq<nat>, ghost verified: seq<nat>,
             ghost vectorError: Option<V.VectorError>)
    requires cluster.Valid()
    requires AreServers(servers, plan)
    modifies store, cluster
    ensures store.gone == old(store.gone)
    ensures var met := others(0, old(store.docs)); store.docs == met || store.docs == others(1, met)
    ensures cluster.Valid() && old(cluster.trail) <= cluster.trail && old(cluster.moves) <= cluster.moves
    ensures OnlyPlanned(cluster.moves, |old(cluster.moves)|, plan)
    ensures StopsFor(stop, plan, others(0, old(store.docs)), others(1, others(0, old(store.docs))), sampled,
                     NeedsVectors(plan, skipVector), allowUnmapped, vectorError)
    ensures vectorError.Some? ==> VectorsRefused(cluster.trail, cluster.moves, servers, vectorError.value)
    ensures stop.None? ==>
              && plan == PlanOf(others(0, old(store.docs)), plan.targets, sampled(0))
              && plan.blocked == {} && (plan.unmapped == {} || allowUnmapped)
    ensures stop.None? && NeedsVectors(plan, skipVector) ==>
              VectorsCleaned(cluster.trail, |old(cluster.trail)| - 1, servers, readings, verified)
  {
    ServersIff(servers, plan);
    hide PlanOf, V.Cluster.Valid, VectorsCleaned, VectorsRefused, AreServers, ServerIds, OnlyPlanned;
    readings, verified, vectorError := [], [], None;
    store.Interfere(others(0, store.docs));
    stop := CheckRebuilt(store.docs, plan, sampled(0), allowUnmapped);
    if stop.Some? {
      return;
    }
    if servers != [] && !skipVector {
      stop, readings, verified, vectorError :=
        CleanAndReplan(store, cluster, plan, sampled(1), d => others(1, d), servers, vectorFaults);
    }
  }

  lemma ServersIff(servers: seq<string>, plan: Plan)
    requires AreServers(servers, plan)
    ensures servers == [] <==> ServerIds(plan) == {}
  {
    if servers != [] {
      assert servers[0] in ServerIds(plan);
    }
  }

  lemma ReportIsSample(db: Db, targets: set<Id>, report: set<(Field, Key)>)
    ensures PlanOf(db, targets, report).unmapped == report
  {
  }

  /** `apply_plan`.  `sampled` is what field sampling reports at each planning; `servers` are the planned servers in
    * the order in which they are handled; `vectorError` is what the vector phase came to. */
  method ApplyPlan(store: D.Store<Key, Doc>, cluster: V.Cluster, plan: Plan, skipVector: bool, allowUnmapped: bool,
                   sampled: nat -> set<(Field, Key)>, faults: nat -> Option<set<Key>>, others: Writers,
                   servers: seq<string>, vectorFaults: nat -> set<nat>)
    returns (outcome: Outcome, ghost stage: nat, ghost part: set<Key>, ghost readings: seq<nat>,
             ghost verified: seq<nat>, ghost vectorError: Option<V.VectorError>)
    requires cluster.Valid()
    requires AreServers(servers, plan)
    modifies store, cluster
    ensures old(store.gone) <= store.gone <= old(store.gone) + plan.deletions
    ensures outcome.Stopped? ==> store.gone == old(store.gone)
    ensures stage <= |StagesOf(plan.deletions)| && (outcome.Purged? <==> stage == |StagesOf(plan.deletions)|)
    ensures outcome.Interrupted? ==> SomeFault(faults)
    ensures cluster.Valid() && old(cluster.trail) <= cluster.trail && old(cluster.moves) <= cluster.moves
    ensures OnlyPlanned(cluster.moves, |old(cluster.moves)|, plan)
    ensures StopsFor(if outcome.Stopped? then Some(outcome.error) else None, plan, others(0, old(store.docs)),
                     others(1, others(0, old(store.docs))), sampled, NeedsVectors(plan, skipVector), allowUnmapped,
                     vectorError)
    ensures vectorError.Some? ==> VectorsRefused(cluster.trail, cluster.moves, servers, vectorError.value)
    ensures !outcome.Stopped? ==>
              && plan == PlanOf(others(0, old(store.docs)), plan.targets, sampled(0))
              && plan.blocked == {} && (plan.unmapped == {} || allowUnmapped)
    ensures !outcome.Stopped? && NeedsVectors(plan, skipVector) ==>
              VectorsCleaned(cluster.trail, |old(cluster.trail)| - 1, servers, readings, verified)
    ensures Quiet(others) ==>
              && store.docs == (if outcome.Stopped? then old(store.docs)
                                else D.Crash(old(store.docs), StagesOf(plan.deletions), stage, part))
              && (!outcome.Stopped? ==> plan.deletions == PlanOf(old(store.docs), plan.targets, {}).deletions
                                        && PlanOf(old(store.docs), plan.targets, {}).blocked == {})
  {
    hide VectorsCleaned, VectorsRefused, V.Cluster.Valid, StagesOf, PlanOf;
    PlanIgnoresReport(old(store.docs), plan.targets, sampled(0));
    stage, part := 0, {};
    StagesExist(plan.deletions);
    var stop: Option<SafetyError>;
    stop, readings, verified, vectorError :=
      PassFences(store, cluster, plan, skipVector, allowUnmapped, sampled, others, servers, vectorFaults);
    if stop.Some? {
      outcome := Stopped(stop.value);
      return;
    }
    var ok: bool;
    ok, stage, part := DeletePlanned(store, plan.deletions, faults, (n: nat, d: Db) => others(n + 2, d));
    outcome := if ok then Purged else Interrupted;
  }

  lemma StagesExist(deletions: set<Key>)
    ensures |StagesOf(deletions)| == |DELETE_ORDER| > 0
  {
  }

  /** The report of unmapped references does not touch what is deleted or blocked. */
  lemma PlanIgnoresReport(db: Db, targets: set<Id>, report: set<(Field, Key)>)
    ensures PlanOf(db, targets, report).deletions == PlanOf(db, targets, {}).deletions
    ensures PlanOf(db, targets, report).blocked == PlanOf(db, targets, {}).blocked
  {
  }
}
