/** Following runtime ARNs shared by several documents, in one pass. */
module SharedArns {
  import opened MetadataModel

  function Min(a: nat, b: nat): nat {
    if a < b then a else b
  }

  function Max(a: nat, b: nat): nat {
    if a < b then b else a
  }

  function Take<T>(s: seq<T>, n: nat): seq<T> {
    s[..Min(|s|, n)]
  }

  /** The documents that share a key, in order. */
  function Group(seen: seq<Sighting>, key: Key): seq<string> {
    if seen == [] then []
    else
      var last := seen[|seen| - 1];
      Group(seen[..|seen| - 1], key) + if last.key == key then [last.id] else []
  }

  /** The keys with a second document, in the order in which that second document was met. */
  function Shared(seen: seq<Sighting>): seq<Key> {
    if seen == [] then []
    else
      var key := seen[|seen| - 1].key;
      var before := seen[..|seen| - 1];
      Shared(before) + if |Group(before, key)| == 1 then [key] else []
  }

  datatype Duplicate = Duplicate(key: Key, ids: seq<string>)

  /** The first `limit` shared keys, each with its first documents: at least two, at most `limit`. */
  function DuplicateSamples(seen: seq<Sighting>, limit: nat): seq<Duplicate> {
    var keys := Take(Shared(seen), limit);
    seq(|keys|, j requires 0 <= j < |keys| => Duplicate(keys[j], Take(Group(seen, keys[j]), Max(2, limit))))
  }

  /** A key is listed once, and just when at least two documents have it. */
  lemma {:induction false} SharedIff(seen: seq<Sighting>, key: Key)
    ensures key in Shared(seen) <==> |Group(seen, key)| >= 2
  {
    if seen != [] {
      SharedIff(seen[..|seen| - 1], key);
    }
  }

  lemma {:induction false} SharedOnce(seen: seq<Sighting>)
    ensures forall i, j :: 0 <= i < j < |Shared(seen)| ==> Shared(seen)[i] != Shared(seen)[j]
  {
    if seen != [] {
      var before := seen[..|seen| - 1];
      SharedOnce(before);
      SharedIff(before, seen[|seen| - 1].key);
    }
  }

  lemma GroupGrows(seen: seq<Sighting>, s: Sighting, key: Key)
    ensures Group(seen + [s], key) == Group(seen, key) + if s.key == key then [s.id] else []
    ensures Shared(seen + [s]) == Shared(seen) + if |Group(seen, s.key)| == 1 then [s.key] else []
  {
    assert (seen + [s])[..|seen|] == seen;
  }

  /** Counters and first documents agree with the sightings. */
  ghost predicate Counted(counts: map<Key, nat>, first: map<Key, string>, seen: seq<Sighting>) {
    forall k :: if k in counts then k in first && |Group(seen, k)| == counts[k] >= 1 && first[k] == Group(seen, k)[0]
                else Group(seen, k) == []
  }

  /** Each sampled key points at its own sample. */
  ghost predicate Indexed(duplicates: seq<Duplicate>, sampledAt: map<Key, nat>) {
    && (forall k :: k in sampledAt ==> sampledAt[k] < |duplicates| && duplicates[sampledAt[k]].key == k)
    && (forall j :: 0 <= j < |duplicates| ==> duplicates[j].key in sampledAt && sampledAt[duplicates[j].key] == j)
  }

  /** The counters and samples of `_audit_collection` that follow shared runtime ARNs. */
  class ArnTracker {
    const limit: nat
    var counts: map<Key, nat>
    var first: map<Key, string>
    var duplicates: seq<Duplicate>
    var sampledAt: map<Key, nat>
    var shared: nat
    ghost var seen: seq<Sighting>

    ghost predicate Valid()
      reads this
    {
      && Counted(counts, first, seen) && Indexed(duplicates, sampledAt)
      && shared == |Shared(seen)| && duplicates == DuplicateSamples(seen, limit)
    }

    constructor (limit: nat)
      ensures this.limit == limit && seen == [] && Valid()
    {
      this.limit := limit;
      counts, first, duplicates, sampledAt, shared, seen := map[], map[], [], map[], 0, [];
    }

    /** One more document with this key. */
    method Record(key: Key, id: string)
      requires Valid()
      modifies this
      ensures Valid() && seen == old(seen) + [Sighting(key, id)]
    {
      hide Group, Shared, DuplicateSamples, Counted, Indexed;
      ghost var s := Sighting(key, id);
      CountOne(counts, first, seen, s);
      SightingAdded(seen, s, limit);
      IndexKnows(duplicates, sampledAt, key);
      var n := (if key in counts then counts[key] else 0) + 1;
      counts := counts[key := n];
      if n == 1 {
        first := first[key := id];
      } else if n == 2 {
        shared := shared + 1;
        assert Group(seen, key) + [id] == [first[key], id];
        if |duplicates| < limit {
          IndexOpened(duplicates, sampledAt, Duplicate(key, [first[key], id]));
          sampledAt := sampledAt[key := |duplicates|];
          duplicates := duplicates + [Duplicate(key, [first[key], id])];
        }
      } else if key in sampledAt {
        var j := sampledAt[key];
        if |duplicates[j].ids| < limit {
          duplicates := duplicates[j := duplicates[j].(ids := duplicates[j].ids + [id])];
        }
      }
      seen := seen + [s];
      assert duplicates == DuplicateSamples(seen, limit);
    }
  }

  lemma IndexOpened(duplicates: seq<Duplicate>, sampledAt: map<Key, nat>, duplicate: Duplicate)
    requires Indexed(duplicates, sampledAt) && forall j :: 0 <= j < |duplicates| ==> duplicates[j].key != duplicate.key
    ensures Indexed(duplicates + [duplicate], sampledAt[duplicate.key := |duplicates|])
  {
  }

  /** The index finds the one sample of a key, if it has one; its documents do not matter to the index. */
  lemma IndexKnows(duplicates: seq<Duplicate>, sampledAt: map<Key, nat>, key: Key)
    requires Indexed(duplicates, sampledAt)
    ensures key in sampledAt ==> sampledAt[key] < |duplicates|
    ensures forall j :: 0 <= j < |duplicates| ==>
              (duplicates[j].key == key <==> key in sampledAt && sampledAt[key] == j) &&
              forall ids :: Indexed(duplicates[j := duplicates[j].(ids := ids)], sampledAt)
  {
  }

  lemma CountOne(counts: map<Key, nat>, first: map<Key, string>, seen: seq<Sighting>, s: Sighting)
    requires Counted(counts, first, seen)
    ensures var group := Group(seen, s.key);
            if s.key in counts then s.key in first && |group| == counts[s.key] >= 1 && group[0] == first[s.key]
            else group == []
    ensures var n := (if s.key in counts then counts[s.key] else 0) + 1;
            Counted(counts[s.key := n], if n == 1 then first[s.key := s.id] else first, seen + [s])
  {
    assert if s.key in counts then s.key in first && |Group(seen, s.key)| == counts[s.key] >= 1
           else Group(seen, s.key) == [];
    hide Group;
    forall k ensures Group(seen + [s], k) == Group(seen, k) + if s.key == k then [s.id] else [] {
      GroupGrows(seen, s, k);
    }
  }

  /** What one more sighting changes in the specification. */
  lemma SightingAdded(seen: seq<Sighting>, s: Sighting, limit: nat)
    ensures forall k :: Group(seen + [s], k) == Group(seen, k) + if s.key == k then [s.id] else []
    ensures |Shared(seen + [s])| == |Shared(seen)| + if |Group(seen, s.key)| == 1 then 1 else 0
    ensures |Group(seen, s.key)| == 0 ==> DuplicateSamples(seen + [s], limit) == DuplicateSamples(seen, limit)
    ensures |Group(seen, s.key)| == 1 ==> Opened(seen, s, limit)
    ensures |Group(seen, s.key)| >= 2 ==> Extended(seen, s, limit)
  {
    hide DuplicateSamples;
    forall k ensures Group(seen + [s], k) == Group(seen, k) + if s.key == k then [s.id] else [] {
      GroupGrows(seen, s, k);
    }
    GroupGrows(seen, s, s.key);
    if |Group(seen, s.key)| == 0 {
      SampleKept(seen, s, limit);
    } else if |Group(seen, s.key)| == 1 {
      SampleOpened(seen, s, limit);
    } else {
      SampleExtended(seen, s, limit);
    }
  }

  /** The second document of a key makes it a sampled duplicate while there is room. */
  ghost predicate Opened(seen: seq<Sighting>, s: Sighting, limit: nat) {
    var was := DuplicateSamples(seen, limit);
    && (forall j :: 0 <= j < |was| ==> was[j].key != s.key)
    && DuplicateSamples(seen + [s], limit) ==
       was + if |was| < limit then [Duplicate(s.key, Group(seen, s.key) + [s.id])] else []
  }

  /** A later document of a key joins its sample, if it has one with room left. */
  ghost predicate Extended(seen: seq<Sighting>, s: Sighting, limit: nat) {
    var was := DuplicateSamples(seen, limit);
    var now := DuplicateSamples(seen + [s], limit);
    && |now| == |was|
    && forall j :: 0 <= j < |was| ==>
         now[j] == if was[j].key == s.key && |was[j].ids| < limit then was[j].(ids := was[j].ids + [s.id]) else was[j]
  }

  lemma SampleKept(seen: seq<Sighting>, s: Sighting, limit: nat)
    requires |Group(seen, s.key)| == 0
    ensures DuplicateSamples(seen + [s], limit) == DuplicateSamples(seen, limit)
  {
    GroupGrows(seen, s, s.key);
    var keys := Take(Shared(seen), limit);
    forall j | 0 <= j < |keys| ensures Group(seen + [s], keys[j]) == Group(seen, keys[j]) {
      SharedIff(seen, keys[j]);
      GroupGrows(seen, s, keys[j]);
    }
  }

  lemma SampleOpened(seen: seq<Sighting>, s: Sighting, limit: nat)
    requires |Group(seen, s.key)| == 1
    ensures Opened(seen, s, limit)
  {
    GroupGrows(seen, s, s.key);
    var was := DuplicateSamples(seen, limit);
    var now := DuplicateSamples(seen + [s], limit);
    assert |now| == |was| + if |was| < limit then 1 else 0;
    if |was| < limit {
      assert now[|was|] == Duplicate(s.key, Group(seen, s.key) + [s.id]);
    }
    forall j | 0 <= j < |was| ensures now[j] == was[j] && was[j].key != s.key {
      SampleUnchanged(seen, s, limit, j);
    }
    hide Group, Shared, Take, DuplicateSamples;
  }

  lemma SampleUnchanged(seen: seq<Sighting>, s: Sighting, limit: nat, j: nat)
    requires |Group(seen, s.key)| == 1 && j < |DuplicateSamples(seen, limit)| <= |DuplicateSamples(seen + [s], limit)|
    ensures DuplicateSamples(seen + [s], limit)[j] == DuplicateSamples(seen, limit)[j]
    ensures DuplicateSamples(seen, limit)[j].key != s.key
  {
    var key := Shared(seen)[j];
    SharedIff(seen, key);
    GroupGrows(seen, s, key);
    GroupGrows(seen, s, s.key);
    hide Group, Shared;
  }

  lemma SampleExtended(seen: seq<Sighting>, s: Sighting, limit: nat)
    requires |Group(seen, s.key)| >= 2
    ensures Extended(seen, s, limit)
  {
    hide Group, Shared, Take;
    GroupGrows(seen, s, s.key);
    assert Shared(seen + [s]) == Shared(seen);
    forall j | 0 <= j < |DuplicateSamples(seen, limit)|
      ensures var was := DuplicateSamples(seen, limit)[j];
              DuplicateSamples(seen + [s], limit)[j] ==
              if was.key == s.key && |was.ids| < limit then was.(ids := was.ids + [s.id]) else was
    {
      GroupGrows(seen, s, DuplicateSamples(seen, limit)[j].key);
      TakeGrows(Group(seen, s.key), s.id, limit);
      var key := DuplicateSamples(seen, limit)[j].key;
      assert DuplicateSamples(seen + [s], limit)[j] == Duplicate(key, Take(Group(seen + [s], key), Max(2, limit)));
      assert key != s.key ==> Group(seen + [s], key) == Group(seen, key);
    }
  }

  /** A list of at least two that is cut to `limit`, but never below two. */
  lemma TakeGrows(ids: seq<string>, id: string, limit: nat)
    requires |ids| >= 2
    ensures var was := Take(ids, Max(2, limit));
            Take(ids + [id], Max(2, limit)) == if |was| < limit then was + [id] else was
  {
  }
}
