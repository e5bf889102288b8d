/** Vector deletion fenced by the embedding generation, against a concurrent reindexer.
  *
  * `Cluster` is what other processes change under the purge: the active generation, whether a reindex
  * job holds a live lease, and the vector collections, one for each generation.  Every await gives
  * the other processes one turn, taken from an arbitrary schedule that may depend on the world: they
  * may write vectors of any server, a planned one included, into any collection, and install a fresh
  * generation at any moment.  The cluster keeps the trail of all worlds it went through. */
module VectorCleanup {
  import opened Options
  import B = BsonIds

  type Generation = Option<string>

  /** A vector collection: its properties, and the server id stored with each vector document. */
  datatype VectorCollection = VectorCollection(properties: set<string>, docs: map<nat, string>)

  datatype Action =
    | Install(generation: string)
    | SetJob(active: bool)
    | Create(collection: Generation, properties: set<string>)
    | Drop(collection: Generation)
    | Write(collection: Generation, doc: nat, serverId: string)
    | Erase(collection: Generation, doc: nat)

  /** `history` lists every generation that was ever active, the active one last; `added` lists, for every
    * vector that other processes wrote, its collection and its server; `ticks` counts their turns. */
  datatype World = World(
    history: seq<Generation>,
    jobActive: bool,
    stores: map<Generation, VectorCollection>,
    added: seq<(Generation, string)>,
    ticks: nat)

  predicate ValidWorld(w: World) {
    w.history != [] && forall i, j :: 0 <= i < j < |w.history| ==> w.history[i] != w.history[j]
  }

  function Active(w: World): Generation
    requires w.history != []
  {
    w.history[|w.history| - 1]
  }

  /** Installing a generation that was ever active before is impossible: generations are fresh job ids. */
  function Act(w: World, action: Action): World {
    match action
    case Install(g) => if Some(g) in w.history then w else w.(history := w.history + [Some(g)])
    case SetJob(active) => w.(jobActive := active)
    case Create(c, properties) =>
      if c in w.stores then w else w.(stores := w.stores[c := VectorCollection(properties, map[])])
    case Drop(c) => w.(stores := w.stores - {c})
    case Write(c, doc, serverId) =>
      if c in w.stores
      then w.(stores := w.stores[c := w.stores[c].(docs := w.stores[c].docs[doc := serverId])],
          added := w.added + [(c, serverId)])
      else w
    case Erase(c, doc) =>
      if c in w.stores then w.(stores := w.stores[c := w.stores[c].(docs := w.stores[c].docs - {doc})]) else w
  }

  function ActAll(w: World, actions: seq<Action>): World {
    if actions == [] then w
    else Act(ActAll(w, actions[..|actions| - 1]), actions[|actions| - 1])
  }

  /** The turns of the other processes, from the worlds they meet. */
  type Schedule = World -> seq<Action>

  function Turned(schedule: Schedule, w: World): World {
    ActAll(w, schedule(w)).(ticks := w.ticks + 1)
  }

  /** The purge's own deletion of a server's vectors; `survivors` are the documents it fails to delete. */
  function Deleted(w: World, g: Generation, serverId: string, survivors: set<nat>): World {
    if g !in w.stores then w
    else
      var store := w.stores[g];
      w.(stores := w.stores[g := store.(docs := store.docs - (Matching(store, serverId) - survivors))])
  }

  function Matching(c: VectorCollection, serverId: string): set<nat> {
    set doc | doc in c.docs && c.docs[doc] == serverId
  }

  datatype Move = Turn | Delete(collection: Generation, serverId: string, survivors: set<nat>)

  /** No vector of `serverId` is left in the collection of `g`; a missing collection holds none. */
  predicate Clean(w: World, g: Generation, serverId: string) {
    g in w.stores ==> serverId !in w.stores[g].docs.Values
  }

  /** Since `w`, somebody else wrote a vector of the server into this collection. */
  ghost predicate AddedSince(w: World, t: World, g: Generation, serverId: string) {
    exists i :: |w.added| <= i < |t.added| && t.added[i] == (g, serverId)
  }

  /** Everything the other processes preserve: the history only grows, and a server that is clean in a
    * collection stays clean there unless somebody writes its vectors into that very collection. */
  ghost predicate Later(w: World, t: World) {
    && ValidWorld(w) && ValidWorld(t) && w.history <= t.history && w.added <= t.added
    && (forall g, s :: Clean(w, g, s) && !AddedSince(w, t, g, s) ==> Clean(t, g, s))
  }

  lemma {:induction false} TurnKeeps(w: World, actions: seq<Action>)
    requires ValidWorld(w)
    ensures Later(w, ActAll(w, actions))
  {
    if actions != [] {
      var before := ActAll(w, actions[..|actions| - 1]);
      TurnKeeps(w, actions[..|actions| - 1]);
      ActKeeps(before, actions[|actions| - 1]);
      LaterTwice(w, before, ActAll(w, actions));
    }
  }

  lemma LaterTwice(w: World, t: World, u: World)
    requires Later(w, t) && Later(t, u)
    ensures Later(w, u)
  {
    forall g, s | Clean(w, g, s) && !AddedSince(w, u, g, s) ensures Clean(u, g, s) {
      AddedGrows(w, t, u, g, s);
    }
  }

  lemma AddedGrows(w: World, t: World, u: World, g: Generation, serverId: string)
    requires w.added <= t.added <= u.added
    ensures AddedSince(w, t, g, serverId) || AddedSince(t, u, g, serverId) ==> AddedSince(w, u, g, serverId)
  {
    if AddedSince(w, t, g, serverId) {
      var i :| |w.added| <= i < |t.added| && t.added[i] == (g, serverId);
      assert u.added[i] == (g, serverId);
    }
  }

  lemma ActKeeps(w: World, action: Action)
    requires ValidWorld(w)
    ensures Later(w, Act(w, action))
  {
    var t := Act(w, action);
    if action.Write? && action.collection in w.stores {
      assert t.added[|w.added|] == (action.collection, action.serverId);
    }
    forall g, s | Clean(w, g, s) && !AddedSince(w, t, g, s) ensures Clean(t, g, s) {
      if g in t.stores && g in w.stores {
        forall doc | doc in t.stores[g].docs ensures t.stores[g].docs[doc] != s {
          assert doc in w.stores[g].docs ==> w.stores[g].docs[doc] in w.stores[g].docs.Values;
        }
      }
    }
  }

  /** Every move of the run is made from the world before it, so the whole trail is fixed by its start. */
  function Apply(schedule: Schedule, w: World, move: Move): World {
    match move
    case Turn => Turned(schedule, w)
    case Delete(g, serverId, survivors) => Deleted(w, g, serverId, survivors)
  }

  lemma ApplyKeeps(schedule: Schedule, w: World, move: Move)
    requires ValidWorld(w)
    ensures Later(w, Apply(schedule, w, move))
  {
    match move
    case Turn =>
      TurnKeeps(w, schedule(w));
      LaterTick(w, ActAll(w, schedule(w)));
    case Delete(g, serverId, survivors) =>
      var t := Deleted(w, g, serverId, survivors);
      assert forall c, s :: !AddedSince(w, t, c, s);
      forall c, s | Clean(w, c, s) ensures Clean(t, c, s) {
        assert c in w.stores && c in t.stores ==>
            forall v :: v in t.stores[c].docs.Values ==> v in w.stores[c].docs.Values;
      }
  }

  lemma LaterTick(w: World, t: World)
    requires Later(w, t)
    ensures Later(w, t.(ticks := w.ticks + 1))
  {
    var u := t.(ticks := w.ticks + 1);
    forall g, s | Clean(w, g, s) && !AddedSince(w, u, g, s) ensures Clean(u, g, s) {
      assert AddedSince(w, t, g, s) ==> AddedSince(w, u, g, s);
      assert Clean(t, g, s);
    }
  }

  /** A trail that starts in a valid world and follows its moves. */
  ghost predicate IsTrail(schedule: Schedule, trail: seq<World>, moves: seq<Move>) {
    && |trail| == |moves| + 1
    && (forall i :: 0 <= i < |trail| ==> ValidWorld(trail[i]))
    && (forall i :: 0 <= i < |moves| ==> trail[i + 1] == Apply(schedule, trail[i], moves[i]))
  }

  /** Later worlds of a trail keep what earlier ones had. */
  lemma {:induction false} LaterAlong(schedule: Schedule, trail: seq<World>, moves: seq<Move>, i: nat, j: nat)
    requires IsTrail(schedule, trail, moves) && i <= j < |trail|
    ensures Later(trail[i], trail[j])
  {
    if i < j {
      LaterAlong(schedule, trail, moves, i, j - 1);
      ApplyKeeps(schedule, trail[j - 1], moves[j - 1]);
      assert trail[j - 1 + 1] == Apply(schedule, trail[j - 1], moves[j - 1]);
      LaterTwice(trail[i], trail[j - 1], trail[j]);
    }
  }

  /** Generations are never reused, so reading the same one twice means nothing was installed between. */
  lemma SameReadSameHistory(before: World, after: World)
    requires ValidWorld(before) && ValidWorld(after) && before.history <= after.history
    ensures Active(before) == Active(after) <==> before.history == after.history
  {
    if before.history != after.history {
      assert after.history[|before.history| - 1] == Active(before);
    }
  }

  datatype VectorError =
    | ReindexActive | BadGeneration | GenerationChanged | NoServerIdProperty | DeleteFailed | VectorsLeft

  /** What the verified delete comes to in the worlds that it meets: when it deletes, and when it looks for vectors
    * that are left. */
  function FilterVerdict(schedule: Schedule, start: World, g: Generation, serverId: string, survivors: set<nat>)
    : Option<VectorError>
  {
    var met := Turned(schedule, start);
    var left := Turned(schedule, Deleted(met, g, serverId, survivors));
    if g !in met.stores || Matching(met.stores[g], serverId) * survivors != {} || g !in left.stores
    then Some(DeleteFailed)
    else if !Clean(left, g, serverId) then Some(VectorsLeft) else None
  }

  /** And the deletion of one server, which first looks at the collection. */
  function Verdict(schedule: Schedule, start: World, g: Generation, serverId: string, survivors: set<nat>)
    : Option<VectorError>
  {
    var checked := Turned(schedule, start);
    if g !in checked.stores then None
    else if "server_id" !in checked.stores[g].properties then Some(NoServerIdProperty)
    else FilterVerdict(schedule, checked, g, serverId, survivors)
  }

  /** Some vector of the server is in the collection, among these documents. */
  ghost predicate Holds(w: World, g: Generation, serverId: string, within: set<nat>) {
    g in w.stores && exists doc :: doc in w.stores[g].docs && w.stores[g].docs[doc] == serverId && doc in within
  }

  /** The four worlds decide: a collection that is missing at the first holds nothing and is left alone; one without the
    * property is refused; a delete that misses the collection or leaves a vector that it was to delete fails, and so
    * does the query after it without the collection; and a vector found by that query was written in between. */
  lemma VerdictMeans(schedule: Schedule, start: World, g: Generation, serverId: string, survivors: set<nat>)
    ensures var checked := Turned(schedule, start);
            var met := Turned(schedule, checked);
            var deleted := Deleted(met, g, serverId, survivors);
            var left := Turned(schedule, deleted);
            var verdict := Verdict(schedule, start, g, serverId, survivors);
            var proceeds := g in checked.stores && "server_id" in checked.stores[g].properties;
            var fails := g !in met.stores || Holds(met, g, serverId, survivors) || g !in left.stores;
            && (verdict == Some(NoServerIdProperty) <==> g in checked.stores && !proceeds)
            && (verdict == Some(DeleteFailed) <==> proceeds && fails)
            && (verdict == Some(VectorsLeft) <==>
                  proceeds && !fails &&
                  exists doc :: doc in left.stores[g].docs && left.stores[g].docs[doc] == serverId)
            && (verdict == None <==>
                  || g !in checked.stores
                  || (proceeds && !fails &&
                      forall doc :: doc in left.stores[g].docs ==> left.stores[g].docs[doc] != serverId))
            && (g in met.stores ==>
                  && deleted.stores.Keys == met.stores.Keys
                  && (forall c :: c in met.stores && c != g ==> deleted.stores[c] == met.stores[c])
                  && forall doc :: doc in deleted.stores[g].docs <==>
                       doc in met.stores[g].docs && (met.stores[g].docs[doc] != serverId || doc in survivors))
  {
    hide Turned;
    var met := Turned(schedule, Turned(schedule, start));
    var left := Turned(schedule, Deleted(met, g, serverId, survivors));
    if g in met.stores && Holds(met, g, serverId, survivors) {
      var doc :| doc in met.stores[g].docs && met.stores[g].docs[doc] == serverId && doc in survivors;
      assert doc in Matching(met.stores[g], serverId) * survivors;
    }
    if g in left.stores {
      MatchingIff(left, g, serverId);
    }
  }

  /** What other processes can do to the world, and that nothing but a generation used before stops them. */
  lemma ActsMean(w: World, g: string, c: Generation, doc: nat, serverId: string, properties: set<string>, active: bool)
    ensures Act(w, SetJob(active)) == w.(jobActive := active)
    ensures Some(g) !in w.history ==> Act(w, Install(g)) == w.(history := w.history + [Some(g)])
    ensures c !in w.stores ==>
              Act(w, Create(c, properties)).stores == w.stores[c := VectorCollection(properties, map[])]
    ensures Act(w, Drop(c)).stores == w.stores - {c}
    ensures c in w.stores ==>
              && Act(w, Write(c, doc, serverId)).stores ==
                 w.stores[c := VectorCollection(w.stores[c].properties, w.stores[c].docs[doc := serverId])]
              && Act(w, Erase(c, doc)).stores ==
                 w.stores[c := VectorCollection(w.stores[c].properties, w.stores[c].docs - {doc})]
  {
  }

  /** A read of the generation is refused for what the last world shows. */
  ghost predicate ReadRefused(trail: seq<World>, error: VectorError) {
    && trail != []
    && var w := trail[|trail| - 1];
       match error
       case ReindexActive => w.jobActive
       case BadGeneration => w.history != [] && Active(w).Some? && !B.SpellsObjectId(Active(w).value)
       case _ => false
  }

  /** So is the deletion of a server. */
  ghost predicate DeleteRefused(trail: seq<World>, moves: seq<Move>, g: Generation, serverId: string,
                                error: VectorError)
  {
    && trail != []
    && var w := trail[|trail| - 1];
       match error
       case NoServerIdProperty => g in w.stores && "server_id" !in w.stores[g].properties
       case DeleteFailed => g !in w.stores || (moves != [] && SomeSurvived(w, moves[|moves| - 1], g, serverId))
       case VectorsLeft =>
         && g in w.stores && !Clean(w, g, serverId) && |trail| > 1 && Clean(trail[|trail| - 2], g, serverId)
         && |moves| > 1 && moves[|moves| - 1] == Turn
         && moves[|moves| - 2].Delete? && moves[|moves| - 2].serverId == serverId
       case _ => false
  }

  ghost predicate IsJustified(trail: seq<World>, moves: seq<Move>, g: Generation, servers: seq<string>,
                              error: VectorError)
  {
    || ReadRefused(trail, error)
    || (error.GenerationChanged? && trail != [] && trail[|trail| - 1].history != [] && Active(trail[|trail| - 1]) != g)
    || exists serverId <- servers :: DeleteRefused(trail, moves, g, serverId, error)
  }

  lemma JustifiedForAll(trail: seq<World>, moves: seq<Move>, g: Generation, servers: seq<string>, serverId: string,
                        error: VectorError)
    requires IsJustified(trail, moves, g, [serverId], error) && serverId in servers
    ensures IsJustified(trail, moves, g, servers, error)
  {
  }

  /** The move was to delete the server's vectors, and some that it was to delete are still there. */
  predicate SomeSurvived(w: World, move: Move, g: Generation, serverId: string) {
    && move.Delete? && move.collection == g && move.serverId == serverId && g in w.stores
    && Matching(w.stores[g], serverId) * move.survivors != {}
  }

  lemma MatchingIff(w: World, g: Generation, serverId: string)
    requires g in w.stores
    ensures Clean(w, g, serverId) <==> Matching(w.stores[g], serverId) == {}
  {
    if serverId in w.stores[g].docs.Values {
      var doc :| doc in w.stores[g].docs && w.stores[g].docs[doc] == serverId;
      assert doc in Matching(w.stores[g], serverId);
    }
  }

  lemma DeletedIsClean(w: World, g: Generation, serverId: string, survivors: set<nat>)
    requires g in w.stores
    ensures var t := Deleted(w, g, serverId, survivors);
            && g in t.stores
            && (Clean(t, g, serverId) <==> Matching(w.stores[g], serverId) * survivors == {})
            && Matching(t.stores[g], serverId) * survivors == Matching(w.stores[g], serverId) * survivors
  {
    MatchingIff(Deleted(w, g, serverId, survivors), g, serverId);
  }

  class Cluster {
    var world: World
    const schedule: Schedule
    /** Every world so far, the present one last, and the moves between them. */
    ghost var trail: seq<World>
    ghost var moves: seq<Move>

    constructor (world: World, schedule: Schedule)
      requires ValidWorld(world)
      ensures this.world == world && this.schedule == schedule && Valid() && trail == [world]
    {
      trail, moves := [world], [];
      this.world := world;
      this.schedule := schedule;
    }

    ghost predicate Valid()
      reads this
    {
      IsTrail(schedule, trail, moves) && trail[|moves|] == world
    }

    /** The other processes take their turn. */
    method Await()
      requires Valid()
      modifies this
      ensures Valid() && world == Turned(schedule, old(world))
      ensures trail == old(trail) + [world] && moves == old(moves) + [Turn]
    {
      ApplyKeeps(schedule, world, Turn);
      world := ActAll(world, schedule(world)).(ticks := world.ticks + 1);
      trail, moves := trail + [world], moves + [Turn];
    }

    /** The active generation.  The first turn's world shows whether a reindex holds its lease, the second's
      * which generation is active: the read is refused exactly for a live reindex, or when that is no object
      * id. */
    method VectorGeneration() returns (error: Option<VectorError>, generation: Generation)
      requires Valid()
      modifies this
      ensures Valid()
      ensures var first := Turned(schedule, old(world));
              var second := Turned(schedule, first);
              && trail == old(trail) + (if first.jobActive then [first] else [first, second])
              && moves == old(moves) + (if first.jobActive then [Turn] else [Turn, Turn])
              && error == (if first.jobActive then Some(ReindexActive)
                           else if Active(world).Some? && !B.SpellsObjectId(Active(world).value)
                           then Some(BadGeneration) else None)
      ensures error.None? ==> generation == Active(world) && IsRead(trail, |trail| - 1, generation)
      ensures error.Some? ==> ReadRefused(trail, error.value)
    {
      Await();
      if world.jobActive {
        return Some(ReindexActive), None;
      }
      Await();
      generation := Active(world);
      if generation.Some? && !B.SpellsObjectId(generation.value) {
        return Some(BadGeneration), None;
      }
      error := None;
    }

    /** `delete_many`, which fails when some matching document survives it. */
    method DeleteMatching(g: Generation, serverId: string, survivors: set<nat>) returns (failed: bool)
      requires Valid() && g in world.stores
      modifies this
      ensures Valid() && world == Deleted(old(world), g, serverId, survivors)
      ensures trail == old(trail) + [world] && moves == old(moves) + [Delete(g, serverId, survivors)]
      ensures failed <==> Matching(old(world).stores[g], serverId) * survivors != {}
    {
      var matching := Matching(world.stores[g], serverId);
      ApplyKeeps(schedule, world, Delete(g, serverId, survivors));
      var left := world.stores[g].docs - (matching - survivors);
      world := world.(stores := world.stores[g := world.stores[g].(docs := left)]);
      trail, moves := trail + [world], moves + [Delete(g, serverId, survivors)];
      failed := matching * survivors != {};
    }

    /** `delete_by_filter`: the delete, and the query that verifies it. */
    method DeleteByFilter(g: Generation, serverId: string, survivors: set<nat>) returns (error: Option<VectorError>)
      requires Valid()
      modifies this
      ensures Valid() && old(trail) < trail && old(moves) < moves
      ensures forall i :: |old(moves)| <= i < |moves| ==> moves[i] == Turn || moves[i] == Delete(g, serverId, survivors)
      ensures error.None? ==> Clean(world, g, serverId)
      ensures error == FilterVerdict(schedule, old(world), g, serverId, survivors)
      ensures error.Some? ==> DeleteRefused(trail, moves, g, serverId, error.value)
    {
      hide IsTrail, Turned, Deleted, Clean;
      Await();
      if g !in world.stores {
        return Some(DeleteFailed);
      }
      ghost var met := world;
      var failed := DeleteMatching(g, serverId, survivors);
      DeletedIsClean(met, g, serverId, survivors);
      if failed {
        return Some(DeleteFailed);
      }
      Await();
      if g !in world.stores {
        return Some(DeleteFailed);
      }
      if Matching(world.stores[g], serverId) != {} {
        MatchingIff(world, g, serverId);
        return Some(VectorsLeft);
      }
      MatchingIff(world, g, serverId);
      error := None;
    }

    /** `ensure_collection`, `has_property` and the verified delete for one server. */
    method DeleteByServerId(g: Generation, serverId: string, survivors: set<nat>) returns (error: Option<VectorError>)
      requires Valid()
      modifies this
      ensures Valid() && old(trail) < trail && old(moves) < moves
      ensures forall i :: |old(moves)| <= i < |moves| ==> moves[i] == Turn || moves[i] == Delete(g, serverId, survivors)
      ensures error.None? ==> Clean(world, g, serverId)
      ensures error == Verdict(schedule, old(world), g, serverId, survivors)
      ensures error.Some? ==> DeleteRefused(trail, moves, g, serverId, error.value)
    {
      hide IsTrail, Turned, FilterVerdict;
      Await();
      var present := g in world.stores;
      if present && "server_id" !in world.stores[g].properties {
        return Some(NoServerIdProperty);
      }
      if !present {
        return None;
      }
      error := DeleteByFilter(g, serverId, survivors);
    }
  }

  /** One round of the loop: read the generation again, then delete under it. */
  method PurgeServer(cluster: Cluster, generation: Generation, serverId: string, survivors: set<nat>)
    returns (error: Option<VectorError>)
    requires cluster.Valid()
    modifies cluster
    ensures cluster.Valid() && old(cluster.trail) < cluster.trail && old(cluster.moves) < cluster.moves
    ensures forall i :: |old(cluster.moves)| <= i < |cluster.moves| ==>
              cluster.moves[i] == Turn || cluster.moves[i] == Delete(generation, serverId, survivors)
    ensures error.None? ==>
              && |cluster.trail| > |old(cluster.trail)| + 2
              && IsRead(cluster.trail, |old(cluster.trail)| + 1, generation)
              && Clean(cluster.world, generation, serverId)
    ensures error.Some? ==> IsJustified(cluster.trail, cluster.moves, generation, [serverId], error.value)
  {
    var again: Generation;
    error, again := cluster.VectorGeneration();
    if error.Some? {
      return;
    }
    TrailEnds(cluster);
    if again != generation {
      error := Some(GenerationChanged);
      return;
    }
    error := cluster.DeleteByServerId(generation, serverId, survivors);
  }

  /** At this place of the trail the generation was read: no reindex was live just before. */
  ghost predicate IsRead(trail: seq<World>, at: nat, generation: Generation) {
    0 < at < |trail| && !trail[at - 1].jobActive && trail[at].history != [] && Active(trail[at]) == generation
  }

  /** The phase so far, from place `from` of the trail: the same generation was read first and before each of the
    * servers handled, and after its own read and before the next each of them had no vector left in the
    * generation's collection. */
  ghost predicate IsPhaseSoFar(trail: seq<World>, from: nat, servers: seq<string>, generation: Generation,
                               readings: seq<nat>, verified: seq<nat>) {
    && |readings| == |verified| + 1 <= |servers| + 1
    && (forall i :: 0 <= i < |readings| ==> from + 1 < readings[i] && IsRead(trail, readings[i], generation))
    && (forall k :: 0 <= k < |verified| ==>
          readings[k] < readings[k + 1] < verified[k] < |trail| && Clean(trail[verified[k]], generation, servers[k]))
    && (forall k :: 0 <= k < |verified| - 1 ==> verified[k] < readings[k + 2])
  }

  /** A completed phase: all servers were handled, the generation was read once more at the end of the trail, and
    * nothing was installed in between. */
  ghost predicate IsPhase(trail: seq<World>, from: nat, servers: seq<string>, generation: Generation,
                          readings: seq<nat>, verified: seq<nat>) {
    && IsPhaseSoFar(trail, from, servers, generation, readings, verified)
    && |verified| == |servers|
    && (forall k :: 0 <= k < |verified| ==> verified[k] < |trail| - 1)
    && |trail| > 0 && IsRead(trail, |trail| - 1, generation)
    && (forall i :: readings[0] <= i < |trail| ==> trail[i].history == trail[readings[0]].history)
  }

  /** At the end of the trail each server has no vector in the collection, unless somebody else wrote one into that
    * very collection after the server was verified. */
  ghost predicate IsStillClean(trail: seq<World>, servers: seq<string>, generation: Generation, verified: seq<nat>) {
    |verified| == |servers| &&
    forall k :: 0 <= k < |servers| ==>
      && verified[k] < |trail|
      && (|| Clean(trail[|trail| - 1], generation, servers[k])
          || AddedSince(trail[verified[k]], trail[|trail| - 1], generation, servers[k]))
  }

  lemma TrailEnds(cluster: Cluster)
    requires cluster.Valid()
    ensures |cluster.trail| > 0 && cluster.trail[|cluster.trail| - 1] == cluster.world && cluster.world.history != []
  {
  }

  lemma PhaseStarts(cluster: Cluster, from: nat, servers: seq<string>, generation: Generation)
    requires cluster.Valid() && |cluster.trail| == from + 3
    requires IsRead(cluster.trail, from + 2, generation)
    ensures IsPhaseSoFar(cluster.trail, from, servers, generation, [from + 2], [])
  {
  }

  lemma PhaseEnds(cluster: Cluster, before: seq<World>, from: nat, servers: seq<string>, generation: Generation,
                  readings: seq<nat>, verified: seq<nat>)
    requires cluster.Valid() && before < cluster.trail && |verified| == |servers|
    requires IsPhaseSoFar(before, from, servers, generation, readings, verified)
    requires IsRead(cluster.trail, |cluster.trail| - 1, generation)
    ensures IsPhase(cluster.trail, from, servers, generation, readings, verified)
    ensures IsStillClean(cluster.trail, servers, generation, verified)
  {
    var trail := cluster.trail;
    ReadingsInTrail(before, readings, generation, from, servers, verified);
    PhaseGoesOn(before, trail, from, servers, generation, readings, verified);
    hide AddedSince, IsTrail;
    assert forall k :: 0 <= k < |verified| ==> verified[k] < |before|;
    assert IsRead(trail, readings[0], generation);
    NothingInstalled(cluster.schedule, trail, cluster.moves, readings[0]);
    forall k | 0 <= k < |servers|
      ensures || Clean(trail[|trail| - 1], generation, servers[k])
              || AddedSince(trail[verified[k]], trail[|trail| - 1], generation, servers[k])
    {
      LaterAlong(cluster.schedule, trail, cluster.moves, verified[k], |trail| - 1);
    }
  }

  lemma PhaseGeneration(cluster: Cluster, from: nat, servers: seq<string>, generation: Generation,
                        readings: seq<nat>, verified: seq<nat>)
    requires cluster.Valid() && IsPhase(cluster.trail, from, servers, generation, readings, verified)
    ensures generation == Active(cluster.world)
  {
  }

  lemma PhaseGoesOn(trail: seq<World>, longer: seq<World>, from: nat, servers: seq<string>, generation: Generation,
                    readings: seq<nat>, verified: seq<nat>)
    requires IsPhaseSoFar(trail, from, servers, generation, readings, verified) && trail <= longer
    ensures IsPhaseSoFar(longer, from, servers, generation, readings, verified)
  {
    hide Clean, Active;
    assert forall i :: 0 <= i < |trail| ==> longer[i] == trail[i];
  }

  lemma PhaseGrows(trail: seq<World>, longer: seq<World>, from: nat, servers: seq<string>, generation: Generation,
                   readings: seq<nat>, verified: seq<nat>)
    requires IsPhaseSoFar(trail, from, servers, generation, readings, verified) && trail <= longer
    requires |verified| < |servers| && from < |trail| && |longer| > |trail| + 2
    requires IsRead(longer, |trail| + 1, generation) && Clean(longer[|longer| - 1], generation, servers[|verified|])
    ensures IsPhaseSoFar(longer, from, servers, generation, readings + [|trail| + 1], verified + [|longer| - 1])
  {
    PhaseGoesOn(trail, longer, from, servers, generation, readings, verified);
    hide Clean, IsRead;
    assert forall i :: 0 <= i < |readings| ==> readings[i] < |trail| by {
      ReadingsInTrail(trail, readings, generation, from, servers, verified);
    }
  }

  lemma ReadingsInTrail(trail: seq<World>, readings: seq<nat>, generation: Generation, from: nat, servers: seq<string>,
                        verified: seq<nat>)
    requires IsPhaseSoFar(trail, from, servers, generation, readings, verified)
    ensures forall i :: 0 <= i < |readings| ==> readings[i] < |trail|
  {
    hide Clean;
  }

  /** Deletes the vectors of every planned server under the generation read first, whatever other processes do,
    * and deletes nothing else.  A vector of a planned server that is in the collection after success was written
    * there by somebody else after that server was verified. */
  method DeleteVectors(cluster: Cluster, servers: seq<string>, survivors: nat -> set<nat>)
    returns (error: Option<VectorError>, generation: Generation, ghost readings: seq<nat>, ghost verified: seq<nat>)
    requires cluster.Valid()
    modifies cluster
    ensures cluster.Valid() && old(cluster.trail) < cluster.trail && old(cluster.moves) < cluster.moves
    ensures forall i :: |old(cluster.moves)| <= i < |cluster.moves| ==>
              cluster.moves[i] == Turn ||
              (cluster.moves[i].collection == generation && cluster.moves[i].serverId in servers)
    ensures error.None? ==> IsPhase(cluster.trail, |old(cluster.trail)| - 1, servers, generation, readings, verified)
    ensures error.None? ==> IsStillClean(cluster.trail, servers, generation, verified)
    ensures error.Some? ==> IsJustified(cluster.trail, cluster.moves, generation, servers, error.value)
  {
    hide Clean, AddedSince, Cluster.Valid, IsPhaseSoFar, IsPhase, IsStillClean, IsRead, Turned, ReadRefused,
         DeleteRefused;
    ghost var from := |cluster.trail| - 1;
    TrailEnds(cluster);
    error, generation := cluster.VectorGeneration();
    readings, verified := [|cluster.trail| - 1], [];
    if error.Some? {
      return;
    }
    TrailEnds(cluster);
    PhaseStarts(cluster, from, servers, generation);
    for i := 0 to |servers|
      invariant cluster.Valid() && old(cluster.trail) < cluster.trail && old(cluster.moves) < cluster.moves
      invariant forall m :: |old(cluster.moves)| <= m < |cluster.moves| ==>
                  cluster.moves[m] == Turn ||
                  (cluster.moves[m].collection == generation && cluster.moves[m].serverId in servers)
      invariant |verified| == i && IsPhaseSoFar(cluster.trail, from, servers, generation, readings, verified)
    {
      ghost var before := cluster.trail;
      error := PurgeServer(cluster, generation, servers[i], survivors(i));
      if error.Some? {
        JustifiedForAll(cluster.trail, cluster.moves, generation, servers, servers[i], error.value);
        return;
      }
      TrailEnds(cluster);
      PhaseGrows(before, cluster.trail, from, servers, generation, readings, verified);
      readings, verified := readings + [|before| + 1], verified + [|cluster.trail| - 1];
    }
    ghost var before := cluster.trail;
    var last: Generation;
    error, last := cluster.VectorGeneration();
    if error.Some? {
      return;
    }
    if last != generation {
      error := Some(GenerationChanged);
      return;
    }
    TrailEnds(cluster);
    PhaseEnds(cluster, before, from, servers, generation, readings, verified);
  }

  /** If the first and the last world of a stretch have the same generation active, all its worlds have the same
    * history. */
  lemma NothingInstalled(schedule: Schedule, trail: seq<World>, moves: seq<Move>, start: nat)
    requires IsTrail(schedule, trail, moves) && start < |trail|
    requires Active(trail[start]) == Active(trail[|trail| - 1])
    ensures forall i :: start <= i < |trail| ==> trail[i].history == trail[start].history
  {
    LaterAlong(schedule, trail, moves, start, |trail| - 1);
    SameReadSameHistory(trail[start], trail[|trail| - 1]);
    forall i | start <= i < |trail| ensures trail[i].history == trail[start].history {
      LaterAlong(schedule, trail, moves, start, i);
      LaterAlong(schedule, trail, moves, i, |trail| - 1);
    }
  }
}
