/** Deleting a database in stages, children first, without transactions.
  *
  * A stage is a set of keys.  A crash during stage `k` leaves every earlier stage deleted, an
  * arbitrary part of stage `k` deleted, and every later stage untouched. */
module StagedDeletion {
  import opened Options

  function Union<K>(stages: seq<set<K>>): set<K> {
    if stages == [] then {} else Union(stages[..|stages| - 1]) + stages[|stages| - 1]
  }

  /** What is gone after a crash in stage `k`; `k == |stages|` is completion. */
  function Removed<K>(stages: seq<set<K>>, k: nat, part: set<K>): set<K>
    requires k <= |stages|
  {
    Union(stages[..k]) + if k < |stages| then part * stages[k] else {}
  }

  function Crash<K, V>(db: map<K, V>, stages: seq<set<K>>, k: nat, part: set<K>): map<K, V>
    requires k <= |stages|
  {
    db - Removed(stages, k, part)
  }

  function Finish<K, V>(db: map<K, V>, stages: seq<set<K>>): map<K, V> {
    db - Union(stages)
  }

  /** Every document that refers to a key of a stage is itself a key of an earlier stage. */
  ghost predicate ChildrenFirst<K(!new), V>(db: map<K, V>, stages: seq<set<K>>, refers: (K, V, K) -> bool) {
    forall c, p, j :: c in db && 0 <= j < |stages| && p in stages[j] && refers(c, db[c], p) ==> c in Union(stages[..j])
  }

  lemma {:induction false} UnionMember<K>(stages: seq<set<K>>, key: K) returns (j: nat)
    requires key in Union(stages)
    ensures j < |stages| && key in stages[j]
  {
    if key in stages[|stages| - 1] {
      j := |stages| - 1;
    } else {
      j := UnionMember(stages[..|stages| - 1], key);
    }
  }

  lemma {:induction false} UnionContains<K>(stages: seq<set<K>>, j: nat)
    requires j < |stages|
    ensures stages[j] <= Union(stages)
  {
    if j < |stages| - 1 {
      UnionContains(stages[..|stages| - 1], j);
    }
  }

  lemma {:induction false} UnionMonotone<K>(stages: seq<set<K>>, i: nat, j: nat)
    requires i <= j <= |stages|
    ensures Union(stages[..i]) <= Union(stages[..j])
  {
    if i < j {
      UnionMonotone(stages, i, j - 1);
      assert stages[..j][..j - 1] == stages[..j - 1];
    }
  }

  /** Whenever the deletion stops, no document left refers to a planned key that is gone. */
  lemma NoOrphans<K(!new), V>(db: map<K, V>, stages: seq<set<K>>, refers: (K, V, K) -> bool,
                              k: nat, part: set<K>, child: K, parent: K)
    requires ChildrenFirst(db, stages, refers) && k <= |stages|
    requires child in Crash(db, stages, k, part) && refers(child, db[child], parent)
    ensures parent !in Removed(stages, k, part)
  {
    if parent in Removed(stages, k, part) {
      var j: nat;
      if parent in Union(stages[..k]) {
        j := UnionMember(stages[..k], parent);
      } else {
        j := k;
      }
      assert parent in stages[j] && child in Union(stages[..j]);
      UnionMonotone(stages, j, k);
    }
  }

  lemma RemovedWithinPlan<K>(stages: seq<set<K>>, k: nat, part: set<K>)
    requires k <= |stages|
    ensures Removed(stages, k, part) <= Union(stages)
  {
    UnionMonotone(stages, k, |stages|);
    assert stages[..|stages|] == stages;
    if k < |stages| {
      UnionContains(stages, k);
    }
  }

  // ---------------------------------------------------------------- running again after crashes

  /** After any crash the planner plans exactly what is left of its previous plan. */
  ghost predicate Resumable<K(!new), V(!new)>(stages: map<K, V> -> seq<set<K>>, good: map<K, V> -> bool) {
    forall d, k: nat, part ::
      good(d) && k <= |stages(d)| ==>
        && good(Crash(d, stages(d), k, part))
        && Union(stages(Crash(d, stages(d), k, part))) == Union(stages(d)) - Removed(stages(d), k, part)
  }

  datatype Attempt<K> = Attempt(stage: nat, part: set<K>)

  /** Runs that crash one after the other, each planning afresh; an impossible stage means completion. */
  function AfterAttempts<K, V>(db: map<K, V>, stages: map<K, V> -> seq<set<K>>, attempts: seq<Attempt<K>>): map<K, V> {
    if attempts == [] then db
    else
      var d := AfterAttempts(db, stages, attempts[..|attempts| - 1]);
      var a := attempts[|attempts| - 1];
      Crash(d, stages(d), if a.stage <= |stages(d)| then a.stage else |stages(d)|, a.part)
  }

  /** However often it crashes, finishing at last gives the database of one uninterrupted run. */
  lemma {:induction false} Converges<K(!new), V(!new)>(db: map<K, V>, stages: map<K, V> -> seq<set<K>>,
                                                      good: map<K, V> -> bool, attempts: seq<Attempt<K>>)
    requires good(db) && Resumable(stages, good)
    ensures var d := AfterAttempts(db, stages, attempts);
            && good(d)
            && Finish(d, stages(d)) == Finish(db, stages(db))
            && Union(stages(d)) <= Union(stages(db))
  {
    if attempts != [] {
      Converges(db, stages, good, attempts[..|attempts| - 1]);
      var d := AfterAttempts(db, stages, attempts[..|attempts| - 1]);
      var a := attempts[|attempts| - 1];
      var k := if a.stage <= |stages(d)| then a.stage else |stages(d)|;
      RemovedWithinPlan(stages(d), k, a.part);
      var crashed := Crash(d, stages(d), k, a.part);
      assert Finish(crashed, stages(crashed)) == Finish(d, stages(d));
    }
  }

  // ---------------------------------------------------------------- the database object

  /** A document store whose `delete_many` may fail after removing part of what it was asked for.
    * `gone` collects the keys of the documents those calls removed. */
  class Store<K(==), V> {
    var docs: map<K, V>
    var gone: set<K>

    constructor (docs: map<K, V>)
      ensures this.docs == docs && gone == {}
    {
      this.docs := docs;
      gone := {};
    }

    /** `survivors`, when given, are the keys a failing call leaves behind. */
    method DeleteMany(keys: set<K>, survivors: Option<set<K>>) returns (deleted: Option<nat>)
      modifies this
      ensures survivors.None? ==> docs == old(docs) - keys && deleted == Some(|old(docs).Keys * keys|)
      ensures survivors.Some? ==> docs == old(docs) - (keys - survivors.value) && deleted == None
      ensures gone == old(gone) + (old(docs).Keys - docs.Keys)
    {
      var hit := docs.Keys * if survivors.None? then keys else keys - survivors.value;
      gone := gone + hit;
      docs := docs - hit;
      deleted := if survivors.None? then Some(|hit|) else None;
    }

    /** Some other writer replaces the contents. */
    method Interfere(docs: map<K, V>)
      modifies this`docs
      ensures this.docs == docs
    {
      this.docs := docs;
    }
  }

  /** Deleting part of the next stage moves a crash state on, the whole of it to the next boundary. */
  lemma CrashNext<K, V>(start: map<K, V>, stages: seq<set<K>>, n: nat, part: set<K>)
    requires n < |stages| && part <= stages[n]
    ensures Crash(start, stages, n, {}) - part == Crash(start, stages, n, part)
    ensures part == stages[n] ==> Crash(start, stages, n, part) == Crash(start, stages, n + 1, {})
  {
    var done := Union(stages[..n]);
    assert Removed(stages, n, {}) == done;
    assert Removed(stages, n, part) == done + part by {
      assert part * stages[n] == part;
    }
    if part == stages[n] {
      assert stages[..n + 1][..n] == stages[..n];
      assert Removed(stages, n + 1, {}) == Union(stages[..n + 1]) == done + part;
    }
  }
}
