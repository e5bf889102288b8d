/** What a workflow purge leaves behind, complete or stopped by a failing stage. */
module PurgeWorkflowSafety {
  import opened Options
  import opened BsonIds
  import opened PurgeWorkflow
  import D = StagedDeletion

  lemma StageMembers(db: Db, workflows: set<Id>, j: nat, k: Key)
    requires j < 5 && k in StagesFor(db, workflows)[j]
    ensures k in db
    ensures k.col == if j == 0 then NodeRuns else if j == 1 then Sessions else if j == 2 then Runs
                     else if j == 3 then Versions else Definitions
    ensures j == 2 ==> k.id in RunIds(db, workflows)
    ensures j == 4 ==> k.id in workflows
  {
  }

  lemma ChildStage(db: Db, workflows: set<Id>, child: Key, parent: Key, j: nat)
    requires child in db && j < 5 && parent in StagesFor(db, workflows)[j] && Refers(child, db[child], parent)
    ensures exists i :: 0 <= i < j && child in StagesFor(db, workflows)[i]
  {
    var s := StagesFor(db, workflows);
    StageMembers(db, workflows, j, parent);
    match child.col
    case NodeRuns => assert child in s[0];
    case Sessions => assert child in s[1];
    case Runs =>
      assert child in LinkedTo(db, Runs, workflows);
      assert child in s[2];
    case Versions => assert child in s[3];
    case Definitions =>
  }

  lemma StagesAreChildrenFirst(db: Db, workflows: set<Id>)
    ensures D.ChildrenFirst(db, StagesFor(db, workflows), Refers)
  {
    var s := StagesFor(db, workflows);
    forall c, p, j | c in db && 0 <= j < |s| && p in s[j] && Refers(c, db[c], p) ensures c in D.Union(s[..j]) {
      ChildStage(db, workflows, c, p, j);
      var i :| 0 <= i < j && c in s[i];
      assert s[..j][i] == s[i];
      D.UnionContains(s[..j], i);
    }
  }

  /** After any failure nothing left hangs from a document that is gone. */
  lemma ParentSurvives(db: Db, workflows: set<Id>, stage: nat, part: set<Key>, child: Key, parent: Key)
    requires stage <= 5
    requires child in D.Crash(db, StagesFor(db, workflows), stage, part)
    requires parent in db && Refers(child, db[child], parent)
    ensures parent in D.Crash(db, StagesFor(db, workflows), stage, part)
  {
    StagesAreChildrenFirst(db, workflows);
    D.NoOrphans(db, StagesFor(db, workflows), Refers, stage, part, child, parent);
  }

  /** A database without orphans still has none, whatever stage fails and however partial its delete. */
  lemma StaysOrphanFree(db: Db, workflows: set<Id>, stage: nat, part: set<Key>)
    requires OrphanFree(db) && stage <= 5
    ensures OrphanFree(D.Crash(db, StagesFor(db, workflows), stage, part))
  {
    var left := D.Crash(db, StagesFor(db, workflows), stage, part);
    forall c | c in left && !c.col.Definitions? ensures HasParent(left, c, left[c]) {
      assert HasParent(db, c, db[c]);
      var p :| p in db && Refers(c, db[c], p);
      ParentSurvives(db, workflows, stage, part, c, p);
    }
  }

  /** A definition goes only when everything below it has gone: its versions, its runs, and through
    * them their node runs and sessions. */
  lemma DefinitionOutlivesChildren(db: Db, workflows: set<Id>, stage: nat, part: set<Key>, definition: Id)
    requires stage <= 5 && Key(Definitions, definition) in db
    requires Key(Definitions, definition) !in D.Crash(db, StagesFor(db, workflows), stage, part)
    ensures var left := D.Crash(db, StagesFor(db, workflows), stage, part);
            && definition in workflows
            && (forall c :: c in left ==> !Refers(c, db[c], Key(Definitions, definition)))
            && (forall r, c :: r in db && Refers(r, db[r], Key(Definitions, definition)) && c in left ==>
                !Refers(c, db[c], r))
  {
    var s := StagesFor(db, workflows);
    var left := D.Crash(db, s, stage, part);
    D.RemovedWithinPlan(s, stage, part);
    var j := D.UnionMember(s, Key(Definitions, definition));
    StageMembers(db, workflows, j, Key(Definitions, definition));
    forall c | c in left ensures !Refers(c, db[c], Key(Definitions, definition)) {
      if Refers(c, db[c], Key(Definitions, definition)) {
        ParentSurvives(db, workflows, stage, part, c, Key(Definitions, definition));
      }
    }
    forall r, c | r in db && Refers(r, db[r], Key(Definitions, definition)) && c in left ensures !Refers(c, db[c], r) {
      if Refers(c, db[c], r) {
        ParentSurvives(db, workflows, stage, part, c, r);
      }
    }
  }

  // ---------------------------------------------------------------- running the command again

  lemma Planned(db: Db, workflow: Option<Id>, k: Key)
    requires k in db
    ensures k in D.Union(Stages(db, workflow)) <==>
            var w := Selected(db, workflow);
            match k.col
            case Definitions => k.id in w
            case Versions => Linked(db[k], w)
            case Runs => k.id in RunIds(db, w)
            case NodeRuns => Linked(db[k], RunIds(db, w))
            case Sessions => Linked(db[k], SessionIds(RunIds(db, w)))
  {
    Prefixes(Stages(db, workflow));
  }

  lemma PlannedInDb(db: Db, workflow: Option<Id>)
    ensures D.Union(Stages(db, workflow)) <= db.Keys
  {
    Prefixes(Stages(db, workflow));
  }

  lemma SelectedLeft(db: Db, workflow: Option<Id>, stage: nat, part: set<Key>, w: Id)
    requires stage <= 5 && w in Selected(db, workflow)
    ensures var left := D.Crash(db, Stages(db, workflow), stage, part);
            w in Selected(left, workflow) <==> Key(Definitions, w) in left
  {
    var left := D.Crash(db, Stages(db, workflow), stage, part);
    var k :| k in db && k.col.Definitions? && k.id == w;
    assert k == Key(Definitions, w);
  }

  lemma RunsLeft(db: Db, workflow: Option<Id>, stage: nat, part: set<Key>, r: Key)
    requires stage <= 5 && r in D.Crash(db, Stages(db, workflow), stage, part) && r.col.Runs?
    ensures var left := D.Crash(db, Stages(db, workflow), stage, part);
            r in LinkedTo(left, Runs, Selected(left, workflow)) <==> r in LinkedTo(db, Runs, Selected(db, workflow))
  {
    var left := D.Crash(db, Stages(db, workflow), stage, part);
    if r in LinkedTo(db, Runs, Selected(db, workflow)) {
      var w := db[r].link.value;
      SelectedLeft(db, workflow, stage, part, w);
      var k :| k in db && k.col.Definitions? && k.id == w;
      ParentSurvives(db, Selected(db, workflow), stage, part, r, k);
    }
  }

  lemma RunIdsLeft(db: Db, workflow: Option<Id>, stage: nat, part: set<Key>, r: Id)
    requires stage <= 5
    ensures var left := D.Crash(db, Stages(db, workflow), stage, part);
            r in RunIds(left, Selected(left, workflow)) <==>
            r in RunIds(db, Selected(db, workflow)) && Key(Runs, r) in left
  {
    var left := D.Crash(db, Stages(db, workflow), stage, part);
    var k := Key(Runs, r);
    assert r in RunIds(db, Selected(db, workflow)) <==> k in LinkedTo(db, Runs, Selected(db, workflow));
    assert r in RunIds(left, Selected(left, workflow)) <==> k in LinkedTo(left, Runs, Selected(left, workflow));
    if k in left {
      RunsLeft(db, workflow, stage, part, k);
    }
  }

  /** A document left by a failed purge is planned again exactly when it was planned before. */
  lemma ReplannedIff(db: Db, workflow: Option<Id>, stage: nat, part: set<Key>, k: Key)
    requires stage <= 5 && k in D.Crash(db, Stages(db, workflow), stage, part)
    ensures var left := D.Crash(db, Stages(db, workflow), stage, part);
            k in D.Union(Stages(left, workflow)) <==> k in D.Union(Stages(db, workflow))
  {
    var left := D.Crash(db, Stages(db, workflow), stage, part);
    Planned(db, workflow, k);
    Planned(left, workflow, k);
    match k.col
    case Definitions =>
      if k.id in Selected(db, workflow) { SelectedLeft(db, workflow, stage, part, k.id); }
    case Versions => VersionLeft(db, workflow, stage, part, k);
    case Runs => RunIdsLeft(db, workflow, stage, part, k.id);
    case NodeRuns => NodeRunLeft(db, workflow, stage, part, k);
    case Sessions => SessionLeft(db, workflow, stage, part, k);
  }

  lemma VersionLeft(db: Db, workflow: Option<Id>, stage: nat, part: set<Key>, k: Key)
    requires stage <= 5 && k in D.Crash(db, Stages(db, workflow), stage, part) && k.col.Versions?
    ensures var left := D.Crash(db, Stages(db, workflow), stage, part);
            Linked(db[k], Selected(left, workflow)) <==> Linked(db[k], Selected(db, workflow))
  {
    if Linked(db[k], Selected(db, workflow)) {
      var w := db[k].link.value;
      SelectedLeft(db, workflow, stage, part, w);
      ParentSurvives(db, Selected(db, workflow), stage, part, k, Key(Definitions, w));
    }
  }

  lemma NodeRunLeft(db: Db, workflow: Option<Id>, stage: nat, part: set<Key>, k: Key)
    requires stage <= 5 && k in D.Crash(db, Stages(db, workflow), stage, part) && k.col.NodeRuns?
    ensures var left := D.Crash(db, Stages(db, workflow), stage, part);
            Linked(db[k], RunIds(left, Selected(left, workflow))) <==> Linked(db[k], RunIds(db, Selected(db, workflow)))
  {
    if db[k].link.Some? {
      var r := db[k].link.value;
      RunIdsLeft(db, workflow, stage, part, r);
      if r in RunIds(db, Selected(db, workflow)) {
        ParentSurvives(db, Selected(db, workflow), stage, part, k, Key(Runs, r));
      }
    }
  }

  lemma SessionLeft(db: Db, workflow: Option<Id>, stage: nat, part: set<Key>, k: Key)
    requires stage <= 5 && k in D.Crash(db, Stages(db, workflow), stage, part) && k.col.Sessions?
    ensures var left := D.Crash(db, Stages(db, workflow), stage, part);
            Linked(db[k], SessionIds(RunIds(left, Selected(left, workflow)))) <==>
            Linked(db[k], SessionIds(RunIds(db, Selected(db, workflow))))
  {
    var left := D.Crash(db, Stages(db, workflow), stage, part);
    forall r ensures r in RunIds(left, Selected(left, workflow)) <==>
                     r in RunIds(db, Selected(db, workflow)) && Key(Runs, r) in left
    {
      RunIdsLeft(db, workflow, stage, part, r);
    }
    if Linked(db[k], SessionIds(RunIds(db, Selected(db, workflow)))) {
      var r :| r in RunIds(db, Selected(db, workflow)) && Text(Str(r)) == db[k].link.value;
      ParentSurvives(db, Selected(db, workflow), stage, part, k, Key(Runs, r));
    }
  }

  lemma CommandIsResumable(workflow: Option<Id>)
    ensures D.Resumable((d: Db) => Stages(d, workflow), (d: Db) => true)
  {
    var stages := (d: Db) => Stages(d, workflow);
    forall d: Db, k: nat, part: set<Key> | k <= |stages(d)|
      ensures D.Union(stages(D.Crash(d, stages(d), k, part))) == D.Union(stages(d)) - D.Removed(stages(d), k, part)
    {
      var left := D.Crash(d, stages(d), k, part);
      PlannedInDb(d, workflow);
      PlannedInDb(left, workflow);
      forall x | x in left ensures x in D.Union(stages(left)) <==> x in D.Union(stages(d)) {
        ReplannedIff(d, workflow, k, part, x);
      }
    }
  }

  /** Running the same command again after any number of failures ends where one clean run would. */
  lemma RestartsConverge(db: Db, workflow: Option<Id>, attempts: seq<D.Attempt<Key>>)
    ensures var d := D.AfterAttempts(db, (x: Db) => Stages(x, workflow), attempts);
            d - D.Union(Stages(d, workflow)) == db - D.Union(Stages(db, workflow))
  {
    CommandIsResumable(workflow);
    D.Converges(db, (x: Db) => Stages(x, workflow), (x: Db) => true, attempts);
  }

  /** A command naming one workflow can only be refused as "not found" once nothing of its plan is left. */
  lemma RefusedOnlyWhenDone(db: Db, workflow: Id, stage: nat, part: set<Key>)
    requires stage <= 5 && Key(Definitions, workflow) in db
    requires Key(Definitions, workflow) !in D.Crash(db, Stages(db, Some(workflow)), stage, part)
    ensures D.Crash(db, Stages(db, Some(workflow)), stage, part) == db - D.Union(Stages(db, Some(workflow)))
  {
    var left := D.Crash(db, Stages(db, Some(workflow)), stage, part);
    D.RemovedWithinPlan(Stages(db, Some(workflow)), stage, part);
    forall k | k in left ensures k !in D.Union(Stages(db, Some(workflow))) {
      ReplannedIff(db, Some(workflow), stage, part, k);
      Planned(left, Some(workflow), k);
      assert Selected(left, Some(workflow)) == {};
      assert RunIds(left, {}) == {};
    }
  }

  // ---------------------------------------------------------------- other writers between the stages

  /** `c` is in `d` and hangs from a definition or a run that the purge deletes. */
  predicate Hanging(d: Db, runs: set<Id>, workflows: set<Id>, c: Key) {
    c in d && match c.col
              case NodeRuns => Linked(d[c], runs)
              case Sessions => Linked(d[c], SessionIds(runs))
              case Runs => Linked(d[c], workflows)
              case Versions => Linked(d[c], workflows)
              case Definitions => false
  }

  ghost predicate Orphan(d: Db, c: Key) {
    c in d && !c.col.Definitions? && !HasParent(d, c, d[c])
  }

  /** The other writers orphan nothing themselves: whatever they leave without a parent was without one before, or
    * hangs from a document of the purge that they may still believe to be there. */
  ghost predicate Tidy(others: Writers, runs: set<Id>, workflows: set<Id>) {
    forall n, d, c ::
      Orphan(others(n, d), c) && !Hanging(others(n, d), runs, workflows, c) ==> Orphan(d, c) && others(n, d)[c] == d[c]
  }

  /** The first writers' turn that is too late for `c`: its stage is over, or it was not among the fetched runs. */
  function TooLate(c: Key, runs: set<Id>): nat {
    match c.col
    case NodeRuns => 1
    case Sessions => 2
    case Runs => if c.id in runs then 3 else First(runs)
    case Versions => 4
    case Definitions => 5
  }

  /** The writers' turn before stage `k` hung `c` below the purge, too late for its stage, and it was left there. */
  ghost predicate Newcomer(fetched: Db, runs: set<Id>, workflows: set<Id>, others: Writers, c: Key, k: nat) {
    && TooLate(c, runs) <= k <= 4
    && !Hanging(Before(fetched, runs, workflows, others, k), runs, workflows, c)
    && forall m :: k <= m <= 4 ==> Hanging(Met(fetched, runs, workflows, others, m), runs, workflows, c)
  }

  lemma StageDone(fetched: Db, runs: set<Id>, workflows: set<Id>, others: Writers, n: nat)
    requires n < 5
    ensures var met := Met(fetched, runs, workflows, others, n);
            First(runs) <= n ==> Before(fetched, runs, workflows, others, n + 1) == met - Query(met, runs, workflows, n)
  {
  }

  /** Nothing hangs from the purge once its stage is over. */
  lemma NothingHangsYet(fetched: Db, workflows: set<Id>, others: Writers, c: Key)
    ensures var runs := RunIds(fetched, workflows);
            !Hanging(Before(fetched, runs, workflows, others, TooLate(c, runs)), runs, workflows, c)
  {
    var runs := RunIds(fetched, workflows);
    match c.col
    case NodeRuns => StageDone(fetched, runs, workflows, others, 0);
    case Sessions => StageDone(fetched, runs, workflows, others, 1);
    case Runs =>
      if c.id in runs {
        StageDone(fetched, runs, workflows, others, 2);
      } else {
        assert c !in LinkedTo(fetched, Runs, workflows);
      }
    case Versions => StageDone(fetched, runs, workflows, others, 3);
    case Definitions =>
  }

  /** A stage hangs nothing. */
  lemma HungBefore(fetched: Db, runs: set<Id>, workflows: set<Id>, others: Writers, c: Key, n: nat)
    requires First(runs) <= n < 5 && Hanging(Before(fetched, runs, workflows, others, n + 1), runs, workflows, c)
    ensures Hanging(Met(fetched, runs, workflows, others, n), runs, workflows, c)
  {
    StageDone(fetched, runs, workflows, others, n);
    hide Before, Met, Query;
  }

  /** What hangs from the purge after its stage was hung there by a turn of the other writers. */
  lemma {:induction false} FindArrival(fetched: Db, runs: set<Id>, workflows: set<Id>, others: Writers, c: Key, n: nat)
    returns (k: nat)
    requires First(runs) <= TooLate(c, runs) <= n <= 5
    requires !Hanging(Before(fetched, runs, workflows, others, TooLate(c, runs)), runs, workflows, c)
    requires Hanging(Before(fetched, runs, workflows, others, n), runs, workflows, c)
    ensures TooLate(c, runs) <= k < n && !Hanging(Before(fetched, runs, workflows, others, k), runs, workflows, c)
    ensures forall m :: k <= m < n ==> Hanging(Met(fetched, runs, workflows, others, m), runs, workflows, c)
  {
    hide *;
    HungBefore(fetched, runs, workflows, others, c, n - 1);
    k := n - 1;
    if Hanging(Before(fetched, runs, workflows, others, n - 1), runs, workflows, c) {
      k := FindArrival(fetched, runs, workflows, others, c, n - 1);
    }
  }

  /** What hangs from the purge at its end are exactly the newcomers. */
  lemma LeftoversAreNewcomers(fetched: Db, workflows: set<Id>, others: Writers, c: Key)
    ensures var runs := RunIds(fetched, workflows);
            Hanging(Before(fetched, runs, workflows, others, 5), runs, workflows, c) <==>
            exists k :: Newcomer(fetched, runs, workflows, others, c, k)
  {
    var runs := RunIds(fetched, workflows);
    NothingHangsYet(fetched, workflows, others, c);
    StageDone(fetched, runs, workflows, others, 4);
    hide RunIds, Before, Met;
    if Hanging(Before(fetched, runs, workflows, others, 5), runs, workflows, c) {
      var k := FindArrival(fetched, runs, workflows, others, c, 5);
      assert Newcomer(fetched, runs, workflows, others, c, k);
    }
  }

  /** Whatever loses its parent to a stage hangs from the purge. */
  lemma StageOrphans(met: Db, runs: set<Id>, workflows: set<Id>, n: nat, c: Key)
    ensures var d := met - Query(met, runs, workflows, n);
            Orphan(d, c) && !Orphan(met, c) ==> Hanging(d, runs, workflows, c)
  {
    var d := met - Query(met, runs, workflows, n);
    if Orphan(d, c) && !Orphan(met, c) {
      var p :| p in met && Refers(c, met[c], p);
      assert p in Query(met, runs, workflows, n) && d[c] == met[c];
      assert if p.col.Runs? then p.id in runs else p.id in workflows;
    }
  }

  /** Tidy writers and the purge together leave no orphan but below the purge. */
  lemma {:induction false} OrphansHang(fetched: Db, runs: set<Id>, workflows: set<Id>, others: Writers, n: nat, c: Key)
    requires OrphanFree(fetched) && Tidy(others, runs, workflows) && n <= 5
    ensures var d := Before(fetched, runs, workflows, others, n); Orphan(d, c) ==> Hanging(d, runs, workflows, c)
  {
    if n > First(runs) {
      OrphansHang(fetched, runs, workflows, others, n - 1, c);
      var met := Met(fetched, runs, workflows, others, n - 1);
      var d := Before(fetched, runs, workflows, others, n);
      assert met == others(n, Before(fetched, runs, workflows, others, n - 1));
      StageDone(fetched, runs, workflows, others, n - 1);
      StageOrphans(met, runs, workflows, n - 1, c);
      hide Before, Met, Query, HasParent;
    }
  }

  /** Among tidy writers, a completed purge leaves no definition it was to delete, and its orphans are exactly the
    * newcomers below the purge, but for node runs and sessions whose run somebody put back. */
  lemma OrphansAreNewcomers(fetched: Db, workflows: set<Id>, others: Writers, c: Key)
    requires OrphanFree(fetched) && Tidy(others, RunIds(fetched, workflows), workflows)
    ensures var runs := RunIds(fetched, workflows);
            var left := Before(fetched, runs, workflows, others, 5);
            && (forall w <- workflows :: Key(Definitions, w) !in left)
            && (Orphan(left, c) <==>
                  && (exists k :: Newcomer(fetched, runs, workflows, others, c, k))
                  && (c.col.Runs? || c.col.Versions? || !HasParent(left, c, left[c])))
  {
    var runs := RunIds(fetched, workflows);
    OrphansHang(fetched, runs, workflows, others, 5, c);
    LeftoversAreNewcomers(fetched, workflows, others, c);
    StageDone(fetched, runs, workflows, others, 4);
    hide RunIds, Before, Met;
  }
}
