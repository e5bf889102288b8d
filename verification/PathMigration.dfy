/** Migrating agent paths to slugs, one update at a time, after a check for conflicts. */
module PathMigration {
  import opened Options
  import opened AgentPaths

  type AgentId = nat

  datatype Agent = Agent(id: AgentId, path: Option<string>, hasSlug: bool)

  /** The stored agents, in the order in which a query lists them. */
  type Agents = seq<Agent>

  predicate DistinctIds(agents: Agents) {
    forall i, j :: 0 <= i < j < |agents| ==> agents[i].id != agents[j].id
  }

  predicate DistinctPaths(agents: Agents) {
    forall i, j :: 0 <= i < j < |agents| ==> agents[i].path != agents[j].path
  }

  /** The path agent `i` will be given; None when the normaliser rejects what it has. */
  function Target(agents: Agents, i: nat): Option<string>
    requires i < |agents|
  {
    Normalize(agents[i].path)
  }

  predicate AllNormalizable(agents: Agents) {
    forall i :: 0 <= i < |agents| ==> Target(agents, i).Some?
  }

  /** Two different agents would be given path `p`. */
  predicate Contested(agents: Agents, p: string) {
    exists i, j :: 0 <= i < j < |agents| && Target(agents, i) == Some(p) && Target(agents, j) == Some(p)
  }

  predicate DistinctTargets(agents: Agents) {
    forall i, j :: 0 <= i < j < |agents| ==> Target(agents, i) != Target(agents, j)
  }

  // ---------------------------------------------------------------- the conflict report

  /** The agents that would be given path `p`, in order. */
  function Claimants(agents: Agents, p: string): seq<AgentId> {
    if agents == [] then []
    else
      var last := |agents| - 1;
      Claimants(agents[..last], p) + if Target(agents, last) == Some(p) then [agents[last].id] else []
  }

  lemma {:induction false} ClaimantIff(agents: Agents, p: string)
    ensures Claimants(agents, p) != [] <==> exists i :: 0 <= i < |agents| && Target(agents, i) == Some(p)
  {
    if agents != [] {
      var last := |agents| - 1;
      ClaimantIff(agents[..last], p);
      forall i | 0 <= i < last ensures Target(agents, i) == Target(agents[..last], i) { }
    }
  }

  /** A path has several claimants just when two different agents would be given it. */
  lemma {:induction false} SeveralClaimantsIff(agents: Agents, p: string)
    ensures |Claimants(agents, p)| > 1 <==> Contested(agents, p)
  {
    if agents != [] {
      var last := |agents| - 1;
      SeveralClaimantsIff(agents[..last], p);
      ClaimantIff(agents[..last], p);
      forall i | 0 <= i < last ensures Target(agents, i) == Target(agents[..last], i) { }
    }
  }

  /** `check_path_conflicts`: `invalid` is the `ValueError` of the first path that cannot be normalised. */
  method CheckPathConflicts(agents: Agents) returns (invalid: bool, conflicts: map<string, seq<AgentId>>)
    ensures invalid <==> !AllNormalizable(agents)
    ensures !invalid ==> forall p :: p in conflicts <==> Contested(agents, p)
    ensures !invalid ==> forall p :: p in conflicts ==> conflicts[p] == Claimants(agents, p)
  {
    hide Normalize, Claimants, Contested;
    NoClaimants(agents);
    var pathMap: map<string, seq<AgentId>> := map[];
    conflicts := map[];
    for i := 0 to |agents|
      invariant forall k :: 0 <= k < i ==> Target(agents, k).Some?
      invariant forall p :: Claimants(agents[..i], p) == if p in pathMap then pathMap[p] else []
    {
      var normalized := Target(agents, i);
      if normalized.None? {
        return true, map[];
      }
      ClaimantsGrow(agents, i);
      var path := normalized.value;
      var holders := if path in pathMap then pathMap[path] else [];
      pathMap := pathMap[path := holders + [agents[i].id]];
    }
    assert agents[..|agents|] == agents;
    invalid := false;
    conflicts := map p | p in pathMap && |pathMap[p]| > 1 :: pathMap[p];
    forall p ensures p in conflicts <==> Contested(agents, p) {
      SeveralClaimantsIff(agents, p);
      assert Claimants(agents, p) == if p in pathMap then pathMap[p] else [];
    }
  }

  lemma NoClaimants(agents: Agents)
    ensures forall p :: Claimants(agents[..0], p) == []
  {
  }

  lemma ClaimantsGrow(agents: Agents, i: nat)
    requires i < |agents|
    ensures forall p :: Claimants(agents[..i + 1], p) ==
                        Claimants(agents[..i], p) + if Target(agents, i) == Some(p) then [agents[i].id] else []
  {
    assert agents[..i + 1][..i] == agents[..i];
  }

  /** No reported conflict means that all target paths differ. */
  lemma UncontestedIff(agents: Agents)
    requires AllNormalizable(agents)
    ensures DistinctTargets(agents) <==> forall p :: !Contested(agents, p)
  {
    if !DistinctTargets(agents) {
      var i, j :| 0 <= i < j < |agents| && Target(agents, i) == Target(agents, j);
      assert Contested(agents, Target(agents, i).value);
    }
  }

  // ---------------------------------------------------------------- the update loop

  /** The collection once the first `n` agents have been handled. */
  function After(agents: Agents, n: nat): (r: Agents)
    requires n <= |agents|
  {
    seq(|agents|, i requires 0 <= i < |agents| =>
          if i < n then agents[i].(path := Target(agents, i)) else agents[i])
  }

  function WithoutSlugs(agents: Agents): Agents {
    seq(|agents|, i requires 0 <= i < |agents| => agents[i].(hasSlug := false))
  }

  /** How many of the first `n` agents have a path that normalisation changes. */
  function Changing(agents: Agents, n: nat): nat
    requires n <= |agents|
  {
    if n == 0 then 0
    else Changing(agents, n - 1) + if agents[n - 1].path != Target(agents, n - 1) then 1 else 0
  }

  function Slugs(agents: Agents, n: nat): nat
    requires n <= |agents|
  {
    if n == 0 then 0 else Slugs(agents, n - 1) + if agents[n - 1].hasSlug then 1 else 0
  }

  datatype Stats = Stats(total: nat, updated: nat, normalized: nat, slugsRemoved: nat, conflicts: nat)

  datatype Outcome = InvalidPath | Conflicts(stats: Stats) | Migrated(stats: Stats)

  class AgentCollection {
    var stored: Agents

    constructor (stored: Agents)
      ensures this.stored == stored
    {
      this.stored := stored;
    }

    /** `update_one` on the agent with this id, setting its path. */
    method SetPath(id: AgentId, path: Option<string>, ghost k: nat)
      requires DistinctIds(stored) && k < |stored| && stored[k].id == id
      modifies this
      ensures stored == old(stored)[k := old(stored)[k].(path := path)]
    {
      var i := 0;
      while stored[i].id != id
        invariant i <= k && stored == old(stored)
        decreases k - i
      {
        i := i + 1;
      }
      stored := stored[i := stored[i].(path := path)];
    }

    /** `update_many` removing the slug field wherever it exists. */
    method RemoveSlugs() returns (modified: nat)
      modifies this
      ensures stored == WithoutSlugs(old(stored)) && modified == Slugs(old(stored), |old(stored)|)
    {
      modified := 0;
      for i := 0 to |stored|
        invariant |stored| == |old(stored)|
        invariant forall k :: 0 <= k < i ==> stored[k] == old(stored)[k].(hasSlug := false)
        invariant forall k :: i <= k < |stored| ==> stored[k] == old(stored)[k]
        invariant modified == Slugs(old(stored), i)
      {
        if stored[i].hasSlug {
          stored := stored[i := stored[i].(hasSlug := false)];
          modified := modified + 1;
        }
      }
      assert stored == WithoutSlugs(old(stored));
    }

    /**
     * `migrate_agents`. A conflict, an invalid path or a dry run means no write at all. `trace` lists the
     * collection before the loop and after each turn of it.
     */
    method MigrateAgents(dryRun: bool) returns (outcome: Outcome, ghost trace: seq<Agents>)
      requires DistinctIds(stored)
      modifies this
      ensures outcome.InvalidPath? <==> !AllNormalizable(old(stored))
      ensures outcome.Conflicts? <==> AllNormalizable(old(stored)) && !DistinctTargets(old(stored))
      ensures !outcome.Migrated? || dryRun ==> stored == old(stored)
      ensures outcome.Migrated? && !dryRun ==>
                && stored == WithoutSlugs(After(old(stored), |old(stored)|))
                && trace == seq(|old(stored)| + 1, n requires 0 <= n <= |old(stored)| => After(old(stored), n))
      ensures outcome.Migrated? ==> outcome.stats == Summary(old(stored), dryRun)
      ensures outcome.Migrated? ==>
                && outcome.stats.total == |old(stored)| && outcome.stats.conflicts == 0
                && outcome.stats.normalized == |Renamed(old(stored), |old(stored)|)|
                && outcome.stats.updated == (if dryRun then 0 else |Renamed(old(stored), |old(stored)|)|)
                && outcome.stats.slugsRemoved == if dryRun then 0 else |Slugged(old(stored), |old(stored)|)|
      ensures outcome.Conflicts? ==>
                exists contested: set<string> ::
                  && outcome.stats == Stats(|old(stored)|, 0, 0, 0, |contested|)
                  && forall p :: p in contested <==> Contested(old(stored), p)
    {
      hide Normalize, Contested, Claimants, After, Changing, Slugs;
      var agents := stored;
      trace := [];
      var invalid, conflicts := CheckPathConflicts(agents);
      if invalid {
        return InvalidPath, trace;
      }
      UncontestedIff(agents);
      if conflicts != map[] {
        assert exists p :: p in conflicts;
        assert |conflicts| == |conflicts.Keys|;
        return Conflicts(Stats(|agents|, 0, 0, 0, |conflicts|)), trace;
      }
      var updated, normalized, slugsRemoved := 0, 0, 0;
      NothingHandled(agents);
      trace := [stored];
      for i := 0 to |agents|
        invariant stored == if dryRun then agents else After(agents, i)
        invariant normalized == Changing(agents, i)
        invariant updated == if dryRun then 0 else normalized
        invariant !dryRun ==> trace == seq(i + 1, n requires 0 <= n <= i => After(agents, n))
      {
        NextAfter(agents, i);
        if agents[i].path != Target(agents, i) {
          normalized := normalized + 1;
          if !dryRun {
            SetPath(agents[i].id, Target(agents, i), i);
            updated := updated + 1;
          }
        }
        trace := trace + [stored];
      }
      if !dryRun {
        slugsRemoved := RemoveSlugs();
        SlugsKept(agents, |agents|);
        AfterKeepsLength(agents);
      }
      ChangingExactly(agents, |agents|);
      SlugsExactly(agents, |agents|);
      outcome := Migrated(Stats(|agents|, updated, normalized, slugsRemoved, 0));
    }
  }

  /** The places, among the first `n`, of the agents whose path normalisation changes. */
  function Renamed(agents: Agents, n: nat): set<nat>
    requires n <= |agents|
  {
    set i: nat | i < n && agents[i].path != Normalize(agents[i].path)
  }

  function Slugged(agents: Agents, n: nat): set<nat>
    requires n <= |agents|
  {
    set i: nat | i < n && agents[i].hasSlug
  }

  lemma {:induction false} ChangingExactly(agents: Agents, n: nat)
    requires n <= |agents|
    ensures Changing(agents, n) == |Renamed(agents, n)|
  {
    hide Normalize;
    if n > 0 {
      ChangingExactly(agents, n - 1);
      var before := Renamed(agents, n - 1);
      assert n - 1 !in before;
      assert Renamed(agents, n) == if agents[n - 1].path != Target(agents, n - 1) then before + {n - 1} else before;
      hide Renamed;
    }
  }

  lemma {:induction false} SlugsExactly(agents: Agents, n: nat)
    requires n <= |agents|
    ensures Slugs(agents, n) == |Slugged(agents, n)|
  {
    if n > 0 {
      SlugsExactly(agents, n - 1);
      var before := Slugged(agents, n - 1);
      assert n - 1 !in before;
      assert Slugged(agents, n) == if agents[n - 1].hasSlug then before + {n - 1} else before;
      hide Slugged;
    }
  }

  /** Only the paths that really change are counted, and a dry run counts no write. */
  function Summary(agents: Agents, dryRun: bool): Stats {
    var changing := Changing(agents, |agents|);
    Stats(|agents|, if dryRun then 0 else changing, changing, if dryRun then 0 else Slugs(agents, |agents|), 0)
  }

  lemma NothingHandled(agents: Agents)
    ensures After(agents, 0) == agents && Changing(agents, 0) == 0
  {
  }

  /** One turn of the loop, whether or not it writes. */
  lemma NextAfter(agents: Agents, i: nat)
    requires i < |agents| && DistinctIds(agents)
    ensures |After(agents, i)| == |agents| && DistinctIds(After(agents, i)) && After(agents, i)[i] == agents[i]
    ensures Changing(agents, i + 1) == Changing(agents, i) + if agents[i].path != Target(agents, i) then 1 else 0
    ensures After(agents, i + 1) == After(agents, i)[i := agents[i].(path := Target(agents, i))]
    ensures agents[i].path == Target(agents, i) ==> After(agents, i + 1) == After(agents, i)
  {
    forall j | 0 <= j < |agents| ensures After(agents, i)[j].id == agents[j].id { }
  }

  lemma AfterKeepsLength(agents: Agents)
    ensures |After(agents, |agents|)| == |agents|
  {
  }

  lemma {:induction false} SlugsKept(agents: Agents, n: nat)
    requires n <= |agents|
    ensures Slugs(After(agents, |agents|), n) == Slugs(agents, n)
  {
    if n > 0 {
      SlugsKept(agents, n - 1);
    }
  }

  // ---------------------------------------------------------------- main results

  /** In every state of the loop, an agent's target is what it was at the start. */
  lemma TargetsAreKept(agents: Agents, n: nat, i: nat)
    requires AllNormalizable(agents) && n <= |agents| && i < |agents|
    ensures Target(After(agents, n), i) == Target(agents, i)
  {
    if i < n {
      assert Target(agents, i).Some?;
      NormalizeIsIdempotent(agents[i].path);
    }
  }

  /** Without a reported conflict, paths are pairwise distinct after every single update. */
  lemma DistinctAfterEveryUpdate(agents: Agents, n: nat)
    requires AllNormalizable(agents) && DistinctTargets(agents) && n <= |agents|
    ensures DistinctPaths(After(agents, n))
  {
    forall i, j | 0 <= i < j < |agents| ensures After(agents, n)[i].path != After(agents, n)[j].path {
      TargetsAreKept(agents, n, i);
      TargetsAreKept(agents, n, j);
      assert Target(agents, i) != Target(agents, j);
    }
  }

  /** The check refuses exactly the collections that would end with a shared path. */
  lemma RefusedIffCollision(agents: Agents)
    requires AllNormalizable(agents)
    ensures DistinctPaths(After(agents, |agents|)) <==> DistinctTargets(agents)
  {
    if DistinctTargets(agents) {
      DistinctAfterEveryUpdate(agents, |agents|);
    } else {
      var i, j :| 0 <= i < j < |agents| && Target(agents, i) == Target(agents, j);
      assert After(agents, |agents|)[i].path == After(agents, |agents|)[j].path;
    }
  }

  /** A run that stopped after any number of turns can be restarted: it is accepted and ends in the same place. */
  lemma InterruptedRunResumes(agents: Agents, n: nat)
    requires AllNormalizable(agents) && n <= |agents|
    ensures var half := After(agents, n);
            && AllNormalizable(half)
            && (DistinctTargets(half) <==> DistinctTargets(agents))
            && After(half, |half|) == After(agents, |agents|)
  {
    forall i | 0 <= i < |agents| ensures Target(After(agents, n), i) == Target(agents, i) {
      TargetsAreKept(agents, n, i);
    }
  }

  /** A second run is accepted, and changes no path. */
  lemma SecondRunChangesNothing(agents: Agents)
    requires AllNormalizable(agents) && DistinctTargets(agents)
    ensures var done := WithoutSlugs(After(agents, |agents|));
            && AllNormalizable(done) && DistinctTargets(done)
            && After(done, |done|) == done && Summary(done, false) == Stats(|agents|, 0, 0, 0, 0)
  {
    var done := WithoutSlugs(After(agents, |agents|));
    forall i | 0 <= i < |agents| ensures Target(done, i) == Target(agents, i) == done[i].path {
      assert Target(agents, i).Some?;
      NormalizeIsIdempotent(agents[i].path);
    }
    NothingLeft(done, |done|);
  }

  lemma {:induction false} NothingLeft(done: Agents, n: nat)
    requires n <= |done| && forall i :: 0 <= i < n ==> Target(done, i) == done[i].path && !done[i].hasSlug
    ensures Changing(done, n) == 0 && Slugs(done, n) == 0
  {
    if n > 0 {
      NothingLeft(done, n - 1);
    }
  }
}
