/** What a user purge leaves behind, complete or crashed, on a database nobody else writes to. */
module PurgeUsersSafety {
  import opened Ascii
  import opened BsonIds
  import opened Options
  import opened PurgePlan
  import opened PurgeUsers
  import D = StagedDeletion

  /** `child` belongs to `parent`: an entry on an authored resource, or a document owned by a user. */
  predicate Refers(child: Key, d: Doc, parent: Key) {
    || ((parent.col.Agents? || parent.col.McpServers?) && child.col.AclEntries? &&
        IsIn(Get(d, ResourceId), FormsOf(parent.id)))
    || (parent.col.Users? && !child.col.Users? && OwnedBy(child, d, FormsOf(parent.id)))
  }

  /** No access-control entry stands in the way. */
  predicate Unblocked(db: Db, targets: set<Id>) {
    BlockedAcls(db, IdForms(targets), Agents) == {} && BlockedAcls(db, IdForms(targets), McpServers) == {}
  }

  function Deletions(db: Db, targets: set<Id>): set<Key> {
    Cascade(db, IdForms(targets))
  }

  function Stages(db: Db, targets: set<Id>): seq<set<Key>> {
    StagesOf(Deletions(db, targets))
  }

  /** Entries on authored resources that may go are already owned by a target, so the plan built by the
    * tool is the ownership cascade alone, and it is blocked exactly when some entry is. */
  lemma PlanIsCascade(db: Db, targets: set<Id>, unmapped: set<(Field, Key)>)
    ensures PlanOf(db, targets, unmapped).deletions == Deletions(db, targets)
    ensures PlanOf(db, targets, unmapped).blocked == {} <==> Unblocked(db, targets)
  {
    forall k | k in ResourceAcls(db, IdForms(targets), Agents) + ResourceAcls(db, IdForms(targets), McpServers)
      ensures k in Cascade(db, IdForms(targets))
    {
      assert OwnedBy(k, db[k], IdForms(targets));
    }
  }

  /** The field holds the id of a target, or its spelling. */
  predicate NamesTarget(value: Option<Id>, targets: set<Id>) {
    exists t <- targets :: value == Some(t) || value == Some(Text(Str(t)))
  }

  /** Planned is exactly what belongs to a target, in the field that the collection has for it. */
  lemma PlannedExactly(db: Db, targets: set<Id>, report: set<(Field, Key)>, k: Key)
    requires AreTargets(targets)
    ensures k in PlanOf(db, targets, report).deletions <==>
            k in db &&
            match k.col
            case Transactions | Conversations | Messages | Files | SharedLinks => NamesTarget(Get(db[k], User), targets)
            case Keys | Tokens => NamesTarget(Get(db[k], UserId), targets)
            case Agents | McpServers => NamesTarget(Get(db[k], Author), targets)
            case AclEntries =>
              NamesTarget(Get(db[k], PrincipalId), targets) && Get(db[k], PrincipalType) == Some(Text("user"))
            case Users => NamesTarget(Some(k.id), targets)
            case Unmanaged(_) => false
  {
    PlanIsCascade(db, targets, report);
    if k in db && OwnerOf(k, db[k]).Some? {
      NamedIff(OwnerOf(k, db[k]).value, targets);
    }
    hide PlanOf, IdForms;
  }

  lemma NamedIff(id: Id, targets: set<Id>)
    requires AreTargets(targets)
    ensures id in IdForms(targets) <==> NamesTarget(Some(id), targets)
  {
    forall t | t in targets ensures id in FormsOf(t) <==> id == t || id == Text(Str(t)) { }
    hide FormsOf;
    if NamesTarget(Some(id), targets) {
      var t :| t in targets && (id == t || id == Text(Str(t)));
      assert id in FormsOf(t);
    }
  }

  /** The entry's resource id is this one in some stored form. */
  predicate IsOn(resourceId: Option<Id>, id: Id) {
    resourceId.Some? &&
    match resourceId.value
    case Text(text) => text == Str(id)
    case Oid(hex) => id == resourceId.value || (id.Text? && SpellsObjectId(id.text) && Lower(id.text) == hex)
  }

  /** An entry blocks the purge exactly when it is on an agent or server of a target, and is not an entry of its
    * kind for a target user. */
  lemma BlockedExactly(db: Db, targets: set<Id>, report: set<(Field, Key)>, k: Key)
    requires AreTargets(targets)
    ensures k in PlanOf(db, targets, report).blocked <==>
            k in db && k.col.AclEntries? && exists r <- db :: BlocksOn(db[k], r, db[r], targets)
  {
    PlanIsCascade(db, targets, report);
    BlockedOnExactly(db, targets, Agents, k);
    BlockedOnExactly(db, targets, McpServers, k);
    hide BlockedAcls, IdForms;
  }

  /** An entry on the agent or server `r` of a target that is not one of its kind for a target user. */
  predicate BlocksOn(entry: Doc, r: Key, d: Doc, targets: set<Id>) {
    && (r.col.Agents? || r.col.McpServers?) && NamesTarget(Get(d, Author), targets)
    && IsOn(Get(entry, ResourceId), r.id)
    && !(&& Get(entry, PrincipalType) == Some(Text("user")) && NamesTarget(Get(entry, PrincipalId), targets)
         && match Get(entry, ResourceType)
            case Some(Text(kind)) =>
              if r.col.McpServers? then kind == "mcpServer" else kind == "agent" || kind == "remoteAgent"
            case _ => false)
  }

  lemma BlockedOnExactly(db: Db, targets: set<Id>, col: Collection, k: Key)
    requires AreTargets(targets) && (col.Agents? || col.McpServers?)
    ensures k in BlockedAcls(db, IdForms(targets), col) <==>
            k in db && k.col.AclEntries? && exists r <- db :: r.col == col && BlocksOn(db[k], r, db[r], targets)
  {
    if k in db && k.col.AclEntries? {
      TouchingIff(db, targets, col, k);
      if Get(db[k], PrincipalId).Some? {
        NamedIff(Get(db[k], PrincipalId).value, targets);
      }
      hide IdForms, Touching, NamesTarget, IsOn;
    }
  }

  lemma TouchingIff(db: Db, targets: set<Id>, col: Collection, k: Key)
    requires AreTargets(targets) && (col.Agents? || col.McpServers?) && k in db && k.col.AclEntries?
    ensures k in Touching(db, IdForms(targets), col) <==>
            exists r <- db :: r.col == col && NamesTarget(Get(db[r], Author), targets) &&
                              IsOn(Get(db[k], ResourceId), r.id)
  {
    var owned := InCollection(Cascade(db, IdForms(targets)), col);
    forall r | r in db && r.col == col ensures r in owned <==> NamesTarget(Get(db[r], Author), targets) {
      if Get(db[r], Author).Some? {
        NamedIff(Get(db[r], Author).value, targets);
      }
    }
    forall r, id | r in owned ensures id in FormsOf(r.id) <==> IsOn(Some(id), r.id) {
      FormsIff(id, r.id);
    }
    hide FormsOf, IsOn, NamesTarget;
    if k in Touching(db, IdForms(targets), col) {
      var id :| id in IdsOf(owned) && Get(db[k], ResourceId).value in FormsOf(id);
      var r :| r in owned && r.id == id;
    }
  }

  lemma FormsIff(form: Id, id: Id)
    ensures form in FormsOf(id) <==> IsOn(Some(form), id)
  {
  }

  /** The vector phase is about exactly the servers whose documents go. */
  lemma ServersExactly(db: Db, targets: set<Id>, report: set<(Field, Key)>)
    ensures ServerIds(PlanOf(db, targets, report)) ==
            set k | k in PlanOf(db, targets, report).deletions && k.col.McpServers? :: Str(k.id)
  {
    PlanIsCascade(db, targets, report);
  }

  lemma InStage(deletions: set<Key>, k: Key)
    requires k in deletions && !k.col.Unmanaged?
    ensures Rank(k.col) < |StagesOf(deletions)| && k in StagesOf(deletions)[Rank(k.col)]
  {
    assert DELETE_ORDER[Rank(k.col)] == k.col;
  }

  lemma StageRank(deletions: set<Key>, j: nat, k: Key)
    requires j < |StagesOf(deletions)| && k in StagesOf(deletions)[j]
    ensures k in deletions && Rank(k.col) == j
  {
    assert Rank(DELETE_ORDER[j]) == j;
  }

  lemma UnionOfStages(db: Db, targets: set<Id>)
    ensures D.Union(Stages(db, targets)) == Deletions(db, targets)
  {
    var deletions := Deletions(db, targets);
    var stages := Stages(db, targets);
    forall k | k in deletions ensures k in D.Union(stages) {
      InStage(deletions, k);
      D.UnionContains(stages, Rank(k.col));
    }
    forall k | k in D.Union(stages) ensures k in deletions {
      var j := D.UnionMember(stages, k);
      StageRank(deletions, j, k);
    }
  }

  lemma ChildOfResourcePlanned(db: Db, targets: set<Id>, child: Key, parent: Key)
    requires Unblocked(db, targets) && parent in Deletions(db, targets)
    requires parent.col.Agents? || parent.col.McpServers?
    requires child in db && Refers(child, db[child], parent)
    ensures child in Deletions(db, targets)
  {
    var references := IdForms(targets);
    assert parent in InCollection(Cascade(db, references), parent.col);
    assert parent.id in IdsOf(InCollection(Cascade(db, references), parent.col));
    assert child in Touching(db, references, parent.col);
    assert child !in BlockedAcls(db, references, parent.col);
  }

  lemma ChildOfUserPlanned(db: Db, targets: set<Id>, child: Key, parent: Key)
    requires AreTargets(targets) && parent in Deletions(db, targets) && parent.col.Users?
    requires child in db && Refers(child, db[child], parent)
    ensures child in Deletions(db, targets)
  {
    ObjectIdFormsClosed(targets, parent.id);
    assert OwnedBy(child, db[child], IdForms(targets));
  }

  /** What depends on a planned document is planned for an earlier stage. */
  lemma ChildRank(db: Db, targets: set<Id>, child: Key, parent: Key)
    requires AreTargets(targets) && Unblocked(db, targets) && parent in Deletions(db, targets)
    requires child in db && Refers(child, db[child], parent)
    ensures child in Deletions(db, targets) && Rank(child.col) < Rank(parent.col)
  {
    if parent.col.Users? {
      ChildOfUserPlanned(db, targets, child, parent);
    } else {
      ChildOfResourcePlanned(db, targets, child, parent);
    }
  }

  lemma EarlierStage(deletions: set<Key>, j: nat, k: Key)
    requires k in deletions && Rank(k.col) < j <= |StagesOf(deletions)|
    ensures k in D.Union(StagesOf(deletions)[..j])
  {
    InStage(deletions, k);
    D.UnionContains(StagesOf(deletions)[..j], Rank(k.col));
  }

  /** The deletion order puts every dependent document of the plan before what it depends on. */
  lemma PlanIsChildrenFirst(db: Db, targets: set<Id>)
    requires AreTargets(targets) && Unblocked(db, targets)
    ensures D.ChildrenFirst(db, Stages(db, targets), Refers)
  {
    forall c, p, j | c in db && 0 <= j < |Stages(db, targets)| && p in Stages(db, targets)[j] && Refers(c, db[c], p)
      ensures c in D.Union(Stages(db, targets)[..j])
    {
      StageRank(Deletions(db, targets), j, p);
      ChildRank(db, targets, c, p);
      EarlierStage(Deletions(db, targets), j, c);
    }
  }

  // ---------------------------------------------------------------- main results

  /** Wherever a purge stops, part-way through a batch included, no entry on a deleted resource and no
    * document owned by a deleted user is left. */
  lemma CrashLeavesNoDangling(db: Db, targets: set<Id>, stage: nat, part: set<Key>, child: Key, parent: Key)
    requires AreTargets(targets) && Unblocked(db, targets) && stage <= |Stages(db, targets)|
    requires var left := D.Crash(db, Stages(db, targets), stage, part);
             child in left && parent in db && parent !in left
    ensures !Refers(child, db[child], parent)
  {
    PlanIsChildrenFirst(db, targets);
    if Refers(child, db[child], parent) {
      D.NoOrphans(db, Stages(db, targets), Refers, stage, part, child, parent);
    }
  }

  /** Planning again after any loss of documents plans exactly the old deletions still present, and
    * finds no entry to block on that was not blocked before. */
  lemma ReplanShrinks(db: Db, targets: set<Id>, lost: set<Key>)
    ensures Deletions(db - lost, targets) == Deletions(db, targets) - lost
    ensures BlockedAcls(db - lost, IdForms(targets), Agents) <= BlockedAcls(db, IdForms(targets), Agents)
    ensures BlockedAcls(db - lost, IdForms(targets), McpServers) <= BlockedAcls(db, IdForms(targets), McpServers)
    ensures ResourcesOf(db - lost, Deletions(db - lost, targets)) == ResourcesOf(db, Deletions(db, targets)) - lost
  {
    CascadeShrinks(db, IdForms(targets), lost);
    BlockedShrinks(db, IdForms(targets), lost, Agents);
    BlockedShrinks(db, IdForms(targets), lost, McpServers);
    ResourcesShrink(db, Cascade(db, IdForms(targets)), lost);
  }

  lemma CascadeShrinks(db: Db, references: set<Id>, lost: set<Key>)
    ensures Cascade(db - lost, references) == Cascade(db, references) - lost
  {
  }

  lemma ResourcesShrink(db: Db, keys: set<Key>, lost: set<Key>)
    ensures ResourcesOf(db - lost, keys - lost) == ResourcesOf(db, keys) - lost
  {
  }

  lemma BlockedShrinks(db: Db, references: set<Id>, lost: set<Key>, col: Collection)
    ensures BlockedAcls(db - lost, references, col) <= BlockedAcls(db, references, col)
  {
    var few := InCollection(Cascade(db - lost, references), col);
    var all := InCollection(Cascade(db, references), col);
    assert few <= all;
    assert IdsOf(few) <= IdsOf(all);
    assert Touching(db - lost, references, col) <= Touching(db, references, col);
  }

  lemma PurgeIsResumable(targets: set<Id>)
    ensures D.Resumable((d: Db) => Stages(d, targets), (d: Db) => Unblocked(d, targets))
  {
    var stages := (d: Db) => Stages(d, targets);
    var good := (d: Db) => Unblocked(d, targets);
    forall d: Db, k: nat, part: set<Key> | good(d) && k <= |stages(d)|
      ensures good(D.Crash(d, stages(d), k, part))
      ensures D.Union(stages(D.Crash(d, stages(d), k, part))) == D.Union(stages(d)) - D.Removed(stages(d), k, part)
    {
      ReplanShrinks(d, targets, D.Removed(stages(d), k, part));
      UnionOfStages(d, targets);
      UnionOfStages(D.Crash(d, stages(d), k, part), targets);
    }
  }

  /** However many times a purge crashes and is planned and run again, the run that completes ends in
    * the database an uninterrupted run would have left, and is never blocked. */
  lemma RestartsConverge(db: Db, targets: set<Id>, attempts: seq<D.Attempt<Key>>)
    requires Unblocked(db, targets)
    ensures var d := D.AfterAttempts(db, (x: Db) => Stages(x, targets), attempts);
            && Unblocked(d, targets)
            && Deletions(d, targets) <= Deletions(db, targets)
            && d - Deletions(d, targets) == db - Deletions(db, targets)
  {
    var stages := (x: Db) => Stages(x, targets);
    var good := (x: Db) => Unblocked(x, targets);
    PurgeIsResumable(targets);
    D.Converges(db, stages, good, attempts);
    UnionOfStages(db, targets);
    UnionOfStages(D.AfterAttempts(db, stages, attempts), targets);
  }

  /** A completed purge deleted exactly the plan; nothing in the cascade refers to a target in either
    * stored form, no entry names a deleted resource, and planning again finds nothing. */
  lemma CompletedPurgeIsClean(db: Db, targets: set<Id>)
    requires AreTargets(targets) && Unblocked(db, targets)
    ensures var final := D.Crash(db, Stages(db, targets), |Stages(db, targets)|, {});
            && final == db - Deletions(db, targets)
            && Deletions(final, targets) == {}
            && (forall k, t :: k in final && t in targets ==> !OwnedBy(k, final[k], FormsOf(t)))
            && (forall a, r ::
                  a in final && a.col.AclEntries? && r in Deletions(db, targets) &&
                  (r.col.Agents? || r.col.McpServers?) ==>
                    !IsIn(Get(final[a], ResourceId), FormsOf(r.id)))
  {
    var stages := Stages(db, targets);
    var final := D.Crash(db, stages, |stages|, {});
    assert stages[..|stages|] == stages;
    UnionOfStages(db, targets);
    ReplanShrinks(db, targets, Deletions(db, targets));
    forall k, t | k in final && t in targets ensures !OwnedBy(k, final[k], FormsOf(t)) {
      assert FormsOf(t) <= IdForms(targets);
      assert k !in Cascade(final, IdForms(targets));
    }
    forall a, r | a in final && a.col.AclEntries? && r in Deletions(db, targets) && (r.col.Agents? || r.col.McpServers?)
      ensures !IsIn(Get(final[a], ResourceId), FormsOf(r.id))
    {
      CrashLeavesNoDangling(db, targets, |stages|, {}, a, r);
    }
  }

  /** What `ApplyPlan` promises of its last state, on a quiet database, is enough for all of the above: nothing left
    * refers to a document that is gone, and a complete run leaves nothing of a target. */
  lemma AppliedPlanIsSafe(db: Db, plan: Plan, stage: nat, part: set<Key>, child: Key, parent: Key)
    requires AreTargets(plan.targets) && stage <= |StagesOf(plan.deletions)|
    requires plan.deletions == PlanOf(db, plan.targets, {}).deletions && PlanOf(db, plan.targets, {}).blocked == {}
    ensures var left := D.Crash(db, StagesOf(plan.deletions), stage, part);
            && (child in left && parent in db && parent !in left ==> !Refers(child, db[child], parent))
            && (stage == |StagesOf(plan.deletions)| ==> Deletions(left, plan.targets) == {})
  {
    PlanIsCascade(db, plan.targets, {});
    var left := D.Crash(db, StagesOf(plan.deletions), stage, part);
    if child in left && parent in db && parent !in left {
      CrashLeavesNoDangling(db, plan.targets, stage, part, child, parent);
    }
    if stage == |StagesOf(plan.deletions)| {
      CompletedPurgeIsClean(db, plan.targets);
      assert D.Removed(StagesOf(plan.deletions), stage, part) == D.Removed(StagesOf(plan.deletions), stage, {});
    }
  }

  /** Documents outside the plan survive every run, crashed or not, unchanged. */
  lemma OthersSurvive(db: Db, targets: set<Id>, stage: nat, part: set<Key>, k: Key)
    requires stage <= |Stages(db, targets)| && k in db && k !in Deletions(db, targets)
    ensures var left := D.Crash(db, Stages(db, targets), stage, part);
            k in left && left[k] == db[k] && !OwnedBy(k, db[k], IdForms(targets))
  {
    UnionOfStages(db, targets);
    D.RemovedWithinPlan(Stages(db, targets), stage, part);
  }
}
