/** What the user purge plans to delete: ownership references, access-control entries of authored
  * resources, and the checks made before anything is written. */
module PurgePlan {
  import opened Options
  import opened BsonIds

  datatype Collection =
    | Transactions | Conversations | Messages | Files | SharedLinks | Keys | Tokens
    | AclEntries | Agents | McpServers | Users | Unmanaged(name: string)

  /** The fields the purge looks at; other fields and values that are not ids do not matter to it. */
  datatype Field =
    | User | UserId | Author | PrincipalId | PrincipalType | ResourceId | ResourceType | ServerName
    | OtherField(name: string)

  type Doc = map<Field, Id>

  datatype Key = Key(col: Collection, id: Id)

  type Db = map<Key, Doc>

  /** Collections in the order they are deleted. */
  const DELETE_ORDER: seq<Collection> :=
    [Transactions, Conversations, Messages, Files, SharedLinks, Keys, Tokens, AclEntries, Agents, McpServers, Users]

  function Rank(col: Collection): nat {
    match col
    case Transactions => 0
    case Conversations => 1
    case Messages => 2
    case Files => 3
    case SharedLinks => 4
    case Keys => 5
    case Tokens => 6
    case AclEntries => 7
    case Agents => 8
    case McpServers => 9
    case Users => 10
    case Unmanaged(_) => 11
  }

  function Get(d: Doc, f: Field): Option<Id> {
    if f in d then Some(d[f]) else None
  }

  /** The owner reference the cascade map names for the document's collection. */
  function OwnerOf(key: Key, d: Doc): Option<Id> {
    match key.col
    case Keys => Get(d, UserId)
    case Tokens => Get(d, UserId)
    case Agents => Get(d, Author)
    case McpServers => Get(d, Author)
    case AclEntries => Get(d, PrincipalId)
    case Users => Some(key.id)
    case Unmanaged(_) => None
    case _ => Get(d, User)
  }

  predicate IsIn(value: Option<Id>, ids: set<Id>) {
    value.Some? && value.value in ids
  }

  predicate IsUserAcl(d: Doc) {
    Get(d, PrincipalType) == Some(Text("user"))
  }

  predicate OwnedBy(key: Key, d: Doc, ids: set<Id>) {
    IsIn(OwnerOf(key, d), ids) && (key.col.AclEntries? ==> IsUserAcl(d))
  }

  predicate ExpectedType(col: Collection, resourceType: Option<Id>) {
    if col.Agents? then resourceType == Some(Text("agent")) || resourceType == Some(Text("remoteAgent"))
    else resourceType == Some(Text("mcpServer"))
  }

  /** An entry on an authored resource that the purge may delete. */
  predicate AclAllowed(d: Doc, col: Collection, references: set<Id>) {
    ExpectedType(col, Get(d, ResourceType)) && IsUserAcl(d) && IsIn(Get(d, PrincipalId), references)
  }

  // ---------------------------------------------------------------- the plan as a function of the data

  function Cascade(db: Db, references: set<Id>): set<Key> {
    set k | k in db && OwnedBy(k, db[k], references)
  }

  function InCollection(keys: set<Key>, col: Collection): set<Key> {
    set k | k in keys && k.col == col
  }

  function IdsOf(keys: set<Key>): set<Id> {
    set k | k in keys :: k.id
  }

  /** Access-control entries that name an authored resource of `col`, in any stored form. */
  function Touching(db: Db, references: set<Id>, col: Collection): set<Key> {
    var forms := IdForms(IdsOf(InCollection(Cascade(db, references), col)));
    set k | k in db && k.col.AclEntries? && IsIn(Get(db[k], ResourceId), forms)
  }

  function ResourceAcls(db: Db, references: set<Id>, col: Collection): set<Key> {
    set k | k in Touching(db, references, col) && AclAllowed(db[k], col, references)
  }

  function BlockedAcls(db: Db, references: set<Id>, col: Collection): set<Key> {
    Touching(db, references, col) - ResourceAcls(db, references, col)
  }

  datatype Resource = Resource(author: Option<Id>, serverName: Option<Id>)

  function ResourceOf(d: Doc): Resource {
    Resource(Get(d, Author), Get(d, ServerName))
  }

  function ResourcesOf(db: Db, keys: set<Key>): map<Key, Resource> {
    map k | k in keys && k in db && (k.col.Agents? || k.col.McpServers?) :: ResourceOf(db[k])
  }

  /** `unmapped` is the report of references outside the cascade, which depends on field sampling. */
  datatype Plan = Plan(
    targets: set<Id>,
    deletions: set<Key>,
    resources: map<Key, Resource>,
    blocked: set<Key>,
    unmapped: set<(Field, Key)>)

  function PlanOf(db: Db, targets: set<Id>, unmapped: set<(Field, Key)>): Plan {
    var references := IdForms(targets);
    var cascade := Cascade(db, references);
    Plan(targets,
         cascade + ResourceAcls(db, references, Agents) + ResourceAcls(db, references, McpServers),
         ResourcesOf(db, cascade),
         BlockedAcls(db, references, Agents) + BlockedAcls(db, references, McpServers),
         unmapped)
  }

  datatype SafetyError = ForeignAcls | UnmappedReferences | PlanChanged | VectorsNotCleaned

  function CheckPlan(plan: Plan, allowUnmapped: bool): Option<SafetyError> {
    if plan.blocked != {} then Some(ForeignAcls)
    else if plan.unmapped != {} && !allowUnmapped then Some(UnmappedReferences)
    else None
  }

  /** The ids given on the command line are parsed into object ids. */
  predicate AreTargets(targets: set<Id>) {
    forall t :: t in targets ==> t.Oid?
  }

  // ---------------------------------------------------------------- building it in loops

  method FindKeys(db: Db, col: Collection, references: set<Id>) returns (found: set<Key>)
    ensures found == InCollection(Cascade(db, references), col)
  {
    found := {};
    var rest := db.Keys;
    while rest != {}
      invariant rest <= db.Keys
      invariant found == set k | k in db.Keys - rest && k.col == col && OwnedBy(k, db[k], references)
      decreases rest
    {
      var k :| k in rest;
      if k.col == col && OwnedBy(k, db[k], references) {
        found := found + {k};
      }
      rest := rest - {k};
    }
  }

  method SortAcls(db: Db, col: Collection, resources: set<Key>, references: set<Id>)
    returns (deletable: set<Key>, blocked: set<Key>)
    requires resources == InCollection(Cascade(db, references), col)
    ensures deletable == ResourceAcls(db, references, col) && blocked == BlockedAcls(db, references, col)
  {
    deletable, blocked := {}, {};
    if resources == {} {
      return;
    }
    var forms := IdForms(IdsOf(resources));
    var rest := set k | k in db && k.col.AclEntries? && IsIn(Get(db[k], ResourceId), forms);
    while rest != {}
      invariant rest <= Touching(db, references, col)
      invariant deletable == ResourceAcls(db, references, col) - rest
      invariant blocked == BlockedAcls(db, references, col) - rest
      decreases rest
    {
      var k :| k in rest;
      if !ExpectedType(col, Get(db[k], ResourceType)) || !IsUserAcl(db[k]) ||
          !IsIn(Get(db[k], PrincipalId), references) {
        blocked := blocked + {k};
      } else {
        deletable := deletable + {k};
      }
      rest := rest - {k};
    }
  }

  function Before(keys: set<Key>, rank: nat): set<Key> {
    set k | k in keys && Rank(k.col) < rank
  }

  lemma BeforeNext(keys: set<Key>, i: nat)
    requires i < |DELETE_ORDER|
    ensures Before(keys, i + 1) == Before(keys, i) + InCollection(keys, DELETE_ORDER[i])
  {
    assert forall k: Key :: Rank(k.col) == i <==> k.col == DELETE_ORDER[i];
  }

  lemma ResourcesSplit(db: Db, a: set<Key>, b: set<Key>)
    ensures ResourcesOf(db, a + b) == ResourcesOf(db, a) + ResourcesOf(db, b)
  {
  }

  method BuildPlan(db: Db, targets: set<Id>, sampled: set<(Field, Key)>) returns (plan: Plan)
    ensures plan == PlanOf(db, targets, sampled)
  {
    var references := IdForms(targets);
    ghost var cascade := Cascade(db, references);
    var deletions: set<Key> := {};
    var resources: map<Key, Resource> := map[];
    for i := 0 to |DELETE_ORDER|
      invariant deletions == Before(cascade, i)
      invariant resources == ResourcesOf(db, Before(cascade, i))
    {
      var found := FindKeys(db, DELETE_ORDER[i], references);
      BeforeNext(cascade, i);
      ResourcesSplit(db, deletions, found);
      deletions := deletions + found;
      resources := resources + ResourcesOf(db, found);
    }
    assert deletions == cascade;
    var agentAcls, blockedAgents := SortAcls(db, Agents, InCollection(deletions, Agents), references);
    var serverAcls, blockedServers := SortAcls(db, McpServers, InCollection(deletions, McpServers), references);
    plan := Plan(targets, deletions + agentAcls + serverAcls, resources, blockedAgents + blockedServers, sampled);
  }
}
