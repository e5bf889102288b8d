/** Purging workflow definitions with everything below them: node runs, sessions, runs, versions, and
  * the definitions last. */
module PurgeWorkflow {
  import opened Options
  import opened BsonIds
  import D = StagedDeletion

  datatype Collection = NodeRuns | Sessions | Runs | Versions | Definitions

  datatype Key = Key(col: Collection, id: Id)

  /** `link` is the reference field of the collection: the definition of a run or version, the run of a
    * node run, the spelling of the run id for a session. */
  datatype Doc = Doc(link: Option<Id>)

  type Db = map<Key, Doc>

  /** `parent` is the document `child` hangs from. */
  predicate Refers(child: Key, d: Doc, parent: Key) {
    match child.col
    case NodeRuns => parent.col.Runs? && d.link == Some(parent.id)
    case Sessions => parent.col.Runs? && d.link == Some(Text(Str(parent.id)))
    case Runs => parent.col.Definitions? && d.link == Some(parent.id)
    case Versions => parent.col.Definitions? && d.link == Some(parent.id)
    case Definitions => false
  }

  ghost predicate OrphanFree(db: Db) {
    forall c :: c in db && !c.col.Definitions? ==> HasParent(db, c, db[c])
  }

  ghost predicate HasParent(db: Db, c: Key, d: Doc) {
    exists p :: p in db && Refers(c, d, p)
  }

  predicate Linked(d: Doc, ids: set<Id>) {
    d.link.Some? && d.link.value in ids
  }

  function Ids(db: Db, col: Collection): set<Id> {
    set k | k in db && k.col == col :: k.id
  }

  function LinkedTo(db: Db, col: Collection, ids: set<Id>): set<Key> {
    set k | k in db && k.col == col && Linked(db[k], ids)
  }

  function RunIds(db: Db, workflows: set<Id>): set<Id> {
    set k | k in LinkedTo(db, Runs, workflows) :: k.id
  }

  function SessionIds(runs: set<Id>): set<Id> {
    set r | r in runs :: Text(Str(r))
  }

  function Named(db: Db, col: Collection, ids: set<Id>): set<Key> {
    set k | k in db && k.col == col && k.id in ids
  }

  /** The five stages of the purge of the given workflows. */
  function StagesFor(db: Db, workflows: set<Id>): seq<set<Key>> {
    var runs := RunIds(db, workflows);
    [LinkedTo(db, NodeRuns, runs),
     LinkedTo(db, Sessions, SessionIds(runs)),
     Named(db, Runs, runs),
     LinkedTo(db, Versions, workflows),
     Named(db, Definitions, workflows)]
  }

  /** The workflows a command addresses: the one named, if it exists, or all of them. */
  function Selected(db: Db, workflow: Option<Id>): set<Id> {
    match workflow
    case Some(id) => {id} * Ids(db, Definitions)
    case None => Ids(db, Definitions)
  }

  function Stages(db: Db, workflow: Option<Id>): seq<set<Key>> {
    StagesFor(db, Selected(db, workflow))
  }

  // ---------------------------------------------------------------- the command

  datatype PlanError = WorkflowNotFound

  datatype PurgePlan = PurgePlan(workflows: set<Id>, runCount: nat, nodeRunCount: nat, sessionCount: nat,
                                 versionCount: nat)

  datatype PurgeOutcome = PurgeOutcome(nodeRuns: nat, sessions: nat, runs: nat, versions: nat, definitions: nat,
                                       failed: bool)

  method CollectPlan(store: D.Store<Key, Doc>, workflow: Option<Id>) returns (error: Option<PlanError>, plan: PurgePlan)
    ensures error.Some? <==> workflow.Some? && Key(Definitions, workflow.value) !in store.docs
    ensures error.None? ==>
              var s := Stages(store.docs, workflow);
              plan == PurgePlan(Selected(store.docs, workflow), |s[2]|, |s[0]|, |s[1]|, |s[3]|)
  {
    plan := PurgePlan({}, 0, 0, 0, 0);
    error := None;
    var db := store.docs;
    var workflows: set<Id>;
    if workflow.Some? {
      if Key(Definitions, workflow.value) !in db {
        return Some(WorkflowNotFound), plan;
      }
      workflows := {workflow.value};
      assert Key(Definitions, workflow.value).id in Ids(db, Definitions);
    } else {
      workflows := Ids(db, Definitions);
    }
    assert workflows == Selected(db, workflow);
    if workflows == {} {
      NothingToPurge(db);
      return None, plan;
    }
    var runs := RunIds(db, workflows);
    var nodeRunCount, sessionCount := 0, 0;
    if runs != {} {
      nodeRunCount := |LinkedTo(db, NodeRuns, runs)|;
      sessionCount := |LinkedTo(db, Sessions, SessionIds(runs))|;
    } else {
      NoRuns(db);
    }
    plan := PurgePlan(workflows, |Named(db, Runs, runs)|, nodeRunCount, sessionCount,
                      |LinkedTo(db, Versions, workflows)|);
  }

  lemma NothingToPurge(db: Db)
    ensures StagesFor(db, {}) == [{}, {}, {}, {}, {}]
  {
    assert LinkedTo(db, Runs, {}) == {};
    assert RunIds(db, {}) == {};
    NoRuns(db);
    assert LinkedTo(db, Versions, {}) == {} && Named(db, Definitions, {}) == {};
  }

  lemma NoRuns(db: Db)
    ensures LinkedTo(db, NodeRuns, {}) == {} && LinkedTo(db, Sessions, SessionIds({})) == {} &&
        Named(db, Runs, {}) == {}
  {
  }

  /** A stage is untouched until its turn comes. */
  lemma {:induction false} StageIntact(db: Db, workflows: set<Id>, n: nat, m: nat)
    requires m <= n < 5
    ensures StagesFor(db, workflows)[n] <= D.Crash(db, StagesFor(db, workflows), m, {}).Keys
  {
    var s := StagesFor(db, workflows);
    if m > 0 {
      StageIntact(db, workflows, n, m - 1);
      D.CrashNext(db, s, m - 1, s[m - 1]);
      assert s[m - 1] !! s[n];
    } else {
      assert D.Removed(s, 0, {}) == {};
    }
  }

  /** Without runs the first three stages are empty, without workflows all five are. */
  lemma EmptyStages(db: Db, workflows: set<Id>)
    ensures RunIds(db, workflows) == {} ==> D.Crash(db, StagesFor(db, workflows), 3, {}) == db
    ensures workflows == {} ==> D.Crash(db, StagesFor(db, workflows), 5, {}) == db
  {
    var s := StagesFor(db, workflows);
    Prefixes(s);
    if RunIds(db, workflows) == {} {
      NoRuns(db);
      assert s[0] == {} && s[1] == {} && s[2] == {};
    }
    if workflows == {} {
      NothingToPurge(db);
    }
  }

  // ---------------------------------------------------------------- the stages among other writers

  /** Other writers, one turn before each of the purge's database calls. */
  type Writers = (nat, Db) -> Db

  ghost predicate Quiet(others: Writers) {
    forall n, d :: others(n, d) == d
  }

  /** What the filter of stage `n` finds in `d`. */
  function Query(d: Db, runs: set<Id>, workflows: set<Id>, n: nat): set<Key> {
    if n == 0 then LinkedTo(d, NodeRuns, runs)
    else if n == 1 then LinkedTo(d, Sessions, SessionIds(runs))
    else if n == 2 then Named(d, Runs, runs)
    else if n == 3 then LinkedTo(d, Versions, workflows)
    else Named(d, Definitions, workflows)
  }

  /** Without runs the first three stages are skipped. */
  function First(runs: set<Id>): nat {
    if runs == {} then 3 else 0
  }

  /** The database before stage `n`, when the runs were fetched from `fetched` and every earlier stage succeeded. */
  function Before(fetched: Db, runs: set<Id>, workflows: set<Id>, others: Writers, n: nat): Db
    decreases n, 0
  {
    if n <= First(runs) then fetched
    else
      var d := Met(fetched, runs, workflows, others, n - 1);
      d - Query(d, runs, workflows, n - 1)
  }

  /** The database that stage `n` meets, after the other writers' turn. */
  function Met(fetched: Db, runs: set<Id>, workflows: set<Id>, others: Writers, n: nat): Db
    decreases n, 1
  {
    others(n + 1, Before(fetched, runs, workflows, others, n))
  }

  /** How many documents stage `n` deletes. */
  function Deleted(fetched: Db, runs: set<Id>, workflows: set<Id>, others: Writers, n: nat): nat {
    if n < First(runs) then 0 else |Query(Met(fetched, runs, workflows, others, n), runs, workflows, n)|
  }

  /** The counts of the first `n` stages. */
  function Counts(fetched: Db, runs: set<Id>, workflows: set<Id>, others: Writers, failed: bool, n: nat): PurgeOutcome {
    PurgeOutcome(if n > 0 then Deleted(fetched, runs, workflows, others, 0) else 0,
                 if n > 1 then Deleted(fetched, runs, workflows, others, 1) else 0,
                 if n > 2 then Deleted(fetched, runs, workflows, others, 2) else 0,
                 if n > 3 then Deleted(fetched, runs, workflows, others, 3) else 0,
                 if n > 4 then Deleted(fetched, runs, workflows, others, 4) else 0, failed)
  }

  /** Where a purge is: stages before `n` are done, stage `n` has deleted `part` of what it found. */
  ghost predicate Reached(now: Db, fetched: Db, runs: set<Id>, workflows: set<Id>, others: Writers, n: nat,
                          part: set<Key>)
  {
    First(runs) <= n <= 5 &&
    if n == 5 then now == Before(fetched, runs, workflows, others, 5)
    else
      var met := Met(fetched, runs, workflows, others, n);
      part <= Query(met, runs, workflows, n) && now == met - part
  }

  /** One stage: the other writers' turn, then its `delete_many`, complete or failed after a part of it. */
  method RunStage(store: D.Store<Key, Doc>, runs: set<Id>, workflows: set<Id>, n: nat, fault: Option<set<Key>>,
                  others: Writers, ghost fetched: Db)
    returns (deleted: Option<nat>, ghost part: set<Key>)
    requires First(runs) <= n < 5 && store.docs == Before(fetched, runs, workflows, others, n)
    modifies store
    ensures deleted.Some? <==> fault.None?
    ensures Reached(store.docs, fetched, runs, workflows, others, n, part)
    ensures deleted.Some? ==>
              && store.docs == Before(fetched, runs, workflows, others, n + 1)
              && deleted.value == Deleted(fetched, runs, workflows, others, n)
  {
    store.Interfere(others(n + 1, store.docs));
    var keys := Query(store.docs, runs, workflows, n);
    assert store.docs.Keys * keys == keys;
    part := if fault.None? then keys else keys - fault.value;
    deleted := store.DeleteMany(keys, fault);
  }

  /** The outcome counts the first `n` planned stages, and is a failure unless these are all. */
  predicate CountsStages(outcome: PurgeOutcome, stages: seq<set<Key>>, n: nat)
    requires |stages| == 5
  {
    && outcome.nodeRuns == (if n > 0 then |stages[0]| else 0)
    && outcome.sessions == (if n > 1 then |stages[1]| else 0)
    && outcome.runs == (if n > 2 then |stages[2]| else 0)
    && outcome.versions == (if n > 3 then |stages[3]| else 0)
    && outcome.definitions == (if n > 4 then |stages[4]| else 0)
    && (outcome.failed <==> n < 5)
  }

  /** The five stages, when the run ids have been fetched. */
  method RunStages(store: D.Store<Key, Doc>, runs: set<Id>, workflows: set<Id>, faults: nat -> Option<set<Key>>,
                   others: Writers, ghost fetched: Db)
    returns (outcome: PurgeOutcome, ghost stage: nat, ghost part: set<Key>)
    requires store.docs == fetched
    modifies store
    ensures stage <= 5 && (stage < 5 ==> faults(stage).Some?)
    ensures Reached(store.docs, fetched, runs, workflows, others, stage, part)
    ensures outcome == Counts(fetched, runs, workflows, others, stage < 5, stage)
  {
    outcome := PurgeOutcome(0, 0, 0, 0, 0, false);
    assert store.docs == Before(fetched, runs, workflows, others, First(runs));
    hide Query, Before, Met, Deleted;
    if runs != {} {
      var nodeRuns, sessions, deletedRuns: Option<nat>;
      nodeRuns, part := RunStage(store, runs, workflows, 0, faults(0), others, fetched);
      if nodeRuns.None? {
        return outcome.(failed := true), 0, part;
      }
      outcome := outcome.(nodeRuns := nodeRuns.value);
      sessions, part := RunStage(store, runs, workflows, 1, faults(1), others, fetched);
      if sessions.None? {
        return outcome.(failed := true), 1, part;
      }
      outcome := outcome.(sessions := sessions.value);
      deletedRuns, part := RunStage(store, runs, workflows, 2, faults(2), others, fetched);
      if deletedRuns.None? {
        return outcome.(failed := true), 2, part;
      }
      outcome := outcome.(runs := deletedRuns.value);
    }
    var versions, definitions: Option<nat>;
    versions, part := RunStage(store, runs, workflows, 3, faults(3), others, fetched);
    if versions.None? {
      return outcome.(failed := true), 3, part;
    }
    outcome := outcome.(versions := versions.value);
    definitions, part := RunStage(store, runs, workflows, 4, faults(4), others, fetched);
    if definitions.None? {
      return outcome.(failed := true), 4, part;
    }
    outcome := outcome.(definitions := definitions.value);
    stage := 5;
  }

  /** `apply_purge`, with other writers before the run ids are fetched and before every stage.  `faults(n)`, when
    * given, is what stage `n` leaves behind as it fails. */
  method ApplyPurge(store: D.Store<Key, Doc>, workflows: set<Id>, faults: nat -> Option<set<Key>>, others: Writers)
    returns (outcome: PurgeOutcome, ghost stage: nat, ghost part: set<Key>)
    modifies store
    ensures stage <= 5 && (outcome.failed <==> stage < 5) && (stage < 5 ==> faults(stage).Some?)
    ensures workflows == {} ==> store.docs == old(store.docs) && outcome == PurgeOutcome(0, 0, 0, 0, 0, false)
    ensures workflows != {} ==>
              var fetched := others(0, old(store.docs));
              var runs := RunIds(fetched, workflows);
              && Reached(store.docs, fetched, runs, workflows, others, stage, part)
              && outcome == Counts(fetched, runs, workflows, others, stage < 5, stage)
    ensures Quiet(others) ==>
              && store.docs == D.Crash(old(store.docs), StagesFor(old(store.docs), workflows), stage, part)
              && CountsStages(outcome, StagesFor(old(store.docs), workflows), stage)
  {
    ghost var db := store.docs;
    if workflows == {} {
      NothingToPurge(db);
      EmptyStages(db, workflows);
      return PurgeOutcome(0, 0, 0, 0, 0, false), 5, {};
    }
    store.Interfere(others(0, store.docs));
    ghost var fetched := store.docs;
    var runs := RunIds(store.docs, workflows);
    hide RunIds, StagesFor, Reached, CountsStages, D.Crash;
    outcome, stage, part := RunStages(store, runs, workflows, faults, others, fetched);
    QuietReached(db, store.docs, workflows, others, stage, part);
    QuietCounts(db, workflows, others, stage);
  }

  /** Without other writers each stage meets the crash state before it, and finds its planned stage. */
  lemma {:induction false} QuietMet(db: Db, workflows: set<Id>, others: Writers, n: nat)
    requires Quiet(others) && First(RunIds(db, workflows)) <= n < 5
    ensures var runs := RunIds(db, workflows);
            var stages := StagesFor(db, workflows);
            && Met(db, runs, workflows, others, n) == D.Crash(db, stages, n, {})
            && Query(Met(db, runs, workflows, others, n), runs, workflows, n) == stages[n]
            && Before(db, runs, workflows, others, n + 1) == D.Crash(db, stages, n + 1, {})
  {
    var runs := RunIds(db, workflows);
    var stages := StagesFor(db, workflows);
    StageFound(db, workflows, n);
    D.CrashNext(db, stages, n, stages[n]);
    if n == First(runs) {
      EmptyStages(db, workflows);
      assert D.Removed(stages, 0, {}) == {};
      assert D.Crash(db, stages, n, {}) == db;
    } else {
      QuietMet(db, workflows, others, n - 1);
    }
  }

  lemma QuietReached(db: Db, now: Db, workflows: set<Id>, others: Writers, n: nat, part: set<Key>)
    requires others(0, db) == db ==> Reached(now, db, RunIds(db, workflows), workflows, others, n, part)
    ensures Quiet(others) ==> now == D.Crash(db, StagesFor(db, workflows), n, part)
  {
    if Quiet(others) {
      var stages := StagesFor(db, workflows);
      hide StagesFor, RunIds, Query;
      if n == 5 {
        QuietMet(db, workflows, others, 4);
        assert D.Removed(stages, 5, part) == D.Removed(stages, 5, {});
      } else {
        QuietMet(db, workflows, others, n);
        D.CrashNext(db, stages, n, part);
      }
    }
  }

  lemma QuietCounts(db: Db, workflows: set<Id>, others: Writers, n: nat)
    ensures Quiet(others) ==>
              CountsStages(Counts(db, RunIds(db, workflows), workflows, others, n < 5, n), StagesFor(db, workflows), n)
  {
    if Quiet(others) {
      var runs := RunIds(db, workflows);
      if runs == {} {
        NoRuns(db);
      } else {
        QuietMet(db, workflows, others, 0);
        QuietMet(db, workflows, others, 1);
        QuietMet(db, workflows, others, 2);
      }
      QuietMet(db, workflows, others, 3);
      QuietMet(db, workflows, others, 4);
    }
  }

  /** The filter of each `delete_many`, asked when its turn comes, finds the planned stage. */
  lemma StageFound(db: Db, workflows: set<Id>, n: nat)
    requires n < 5
    ensures var stages := StagesFor(db, workflows);
            Query(D.Crash(db, stages, n, {}), RunIds(db, workflows), workflows, n) == stages[n]
  {
    StageIntact(db, workflows, n, n);
  }

  lemma Prefixes(s: seq<set<Key>>)
    requires |s| == 5
    ensures D.Union(s[..0]) == {} && D.Union(s[..1]) == s[0] && D.Union(s[..2]) == s[0] + s[1]
    ensures D.Union(s[..3]) == s[0] + s[1] + s[2] && D.Union(s[..4]) == s[0] + s[1] + s[2] + s[3]
    ensures D.Union(s[..5]) == D.Union(s) == s[0] + s[1] + s[2] + s[3] + s[4]
  {
    assert s[..5] == s && s[..5][..4] == s[..4] && s[..4][..3] == s[..3] && s[..3][..2] == s[..2] &&
        s[..2][..1] == s[..1];
    assert s[..1][..0] == s[..0];
  }
}
