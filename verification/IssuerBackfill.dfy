/** Backfilling the OpenID issuer of historical users, and unsetting their empty OpenID ids. */
module IssuerBackfill {
  import opened Options

  /** A stored field: absent, an explicit null, or a string, which may be empty. */
  datatype Field = Missing | Null | Text(text: string)

  datatype User = User(provider: Field, openidIssuer: Field, openidId: Field, idOnTheSource: Field)

  type UserId = nat
  type Users = map<UserId, User>

  predicate IsOpenId(u: User) {
    u.provider == Text("openid")
  }

  /** `MISSING_ISSUER_FILTER`; `$nin: ["", null]` also rejects an absent field. */
  predicate LacksIssuer(u: User) {
    && IsOpenId(u) && u.openidIssuer.Missing?
    && ((u.openidId.Text? && u.openidId.text != "") || !u.idOnTheSource.Missing?)
  }

  /** `EMPTY_ID_FILTER`. */
  predicate HasEmptyId(u: User) {
    u.openidId == Text("")
  }

  datatype Changes = Changes(issuerIds: set<UserId>, emptyIds: set<UserId>)

  /** `distinct`: the values present among OpenID users, an explicit null included. */
  function Issuers(users: Users): set<Field> {
    set id | id in users && IsOpenId(users[id]) && !users[id].openidIssuer.Missing? :: users[id].openidIssuer
  }

  function LackingIds(users: Users): set<UserId> {
    set id | id in users && LacksIssuer(users[id])
  }

  function EmptyIds(users: Users): set<UserId> {
    set id | id in users && HasEmptyId(users[id])
  }

  /** None when some OpenID user has another issuer, or a null one. */
  function Pending(users: Users, issuer: string): Option<Changes> {
    if Issuers(users) != {} && Issuers(users) != {Text(issuer)} then None
    else Some(Changes(LackingIds(users), EmptyIds(users)))
  }

  /** The conditional update of the issuer, restricted to `ids`. */
  function Filled(users: Users, ids: set<UserId>, issuer: string): Users {
    map id | id in users :: if id in ids && LacksIssuer(users[id])
                            then users[id].(openidIssuer := Text(issuer)) else users[id]
  }

  function Unset(users: Users, ids: set<UserId>): Users {
    map id | id in users :: if id in ids && HasEmptyId(users[id]) then users[id].(openidId := Missing) else users[id]
  }

  function Completed(users: Users, issuer: string, changes: Changes): Users {
    Unset(Filled(users, changes.issuerIds, issuer), changes.emptyIds)
  }

  /** The users that an update really altered. */
  function Altered(before: Users, after: Users): set<UserId> {
    set id | id in before && id in after && after[id] != before[id]
  }

  datatype Outcome = Refused | Failed | Applied(issuerCount: nat, emptyCount: nat)

  class UserStore {
    var users: Users

    constructor (users: Users)
      ensures this.users == users
    {
      this.users := users;
    }

    method Interfere(users: Users)
      modifies this
      ensures this.users == users
    {
      this.users := users;
    }

    method CollectChanges(issuer: string) returns (changes: Option<Changes>)
      ensures changes == Pending(users, issuer)
    {
      var existing: set<Field>, lacking: set<UserId>, empty: set<UserId> := {}, {}, {};
      var rest := users.Keys;
      while rest != {}
        invariant rest <= users.Keys
        invariant existing == set id | id in users.Keys - rest && IsOpenId(users[id]) &&
            !users[id].openidIssuer.Missing?
                                     :: users[id].openidIssuer
        invariant lacking == LackingIds(users) - rest && empty == EmptyIds(users) - rest
        decreases rest
      {
        var id :| id in rest;
        if IsOpenId(users[id]) && !users[id].openidIssuer.Missing? {
          existing := existing + {users[id].openidIssuer};
        }
        if LacksIssuer(users[id]) {
          lacking := lacking + {id};
        }
        if HasEmptyId(users[id]) {
          empty := empty + {id};
        }
        rest := rest - {id};
      }
      assert existing == Issuers(users) && lacking == LackingIds(users) && empty == EmptyIds(users);
      if existing != {} && existing != {Text(issuer)} {
        return None;
      }
      changes := Some(Changes(lacking, empty));
    }

    /** A conditional `update_many`; a failing one reaches only the ids outside `missed`. */
    method FillIssuer(ids: set<UserId>, issuer: string, missed: Option<set<UserId>>) returns (modified: Option<nat>)
      modifies this
      ensures users == Filled(old(users), if missed.None? then ids else ids - missed.value, issuer)
      ensures missed.Some? <==> modified.None?
      ensures modified.Some? ==> modified.value == |Altered(old(users), users)|
    {
      CountsAreWrites(users, ids, issuer);
      if missed.None? {
        modified := Some(|ids * LackingIds(users)|);
        users := Filled(users, ids, issuer);
      } else {
        modified := None;
        users := Filled(users, ids - missed.value, issuer);
      }
    }

    method UnsetEmptyId(ids: set<UserId>, missed: Option<set<UserId>>) returns (modified: Option<nat>)
      modifies this
      ensures users == Unset(old(users), if missed.None? then ids else ids - missed.value)
      ensures missed.Some? <==> modified.None?
      ensures modified.Some? ==> modified.value == |Altered(old(users), users)|
    {
      CountsAreWrites(users, ids, "");
      if missed.None? {
        modified := Some(|ids * EmptyIds(users)|);
        users := Unset(users, ids);
      } else {
        modified := None;
        users := Unset(users, ids - missed.value);
      }
    }

    /** `apply_changes`.  Other writers run before the recheck and before each update; either update may
      * fail part-way.  Every write is `Filled` or `Unset` of the state met at that moment. */
    method ApplyChanges(issuer: string, changes: Changes, others: (nat, Users) -> Users,
                        missedIssuer: Option<set<UserId>>, missedEmpty: Option<set<UserId>>)
      returns (outcome: Outcome)
      modifies this
      ensures outcome.Refused? <==> Pending(others(0, old(users)), issuer) != Some(changes)
      ensures outcome.Refused? ==> users == others(0, old(users))
      ensures outcome.Failed? <==>
                && !outcome.Refused?
                && ((changes.issuerIds != {} && missedIssuer.Some?) || (changes.emptyIds != {} && missedEmpty.Some?))
      ensures outcome.Applied? ==>
                var first := MetByFill(old(users), changes, others);
                var second := MetByUnset(old(users), issuer, changes, others);
                && users == Unset(second, changes.emptyIds)
                && outcome.issuerCount == |Altered(first, Filled(first, changes.issuerIds, issuer))|
                && outcome.emptyCount == |Altered(second, users)|
      ensures outcome.Applied? && (forall n, u :: others(n, u) == u) ==>
                && users == Completed(old(users), issuer, changes)
                && Pending(users, issuer) == Some(Changes({}, {}))
      ensures outcome.Failed? ==>
                || (missedIssuer.Some? &&
                    users == Filled(MetByFill(old(users), changes, others), changes.issuerIds - missedIssuer.value,
                        issuer))
                || (missedEmpty.Some? &&
                    users == Unset(MetByUnset(old(users), issuer, changes, others),
                        changes.emptyIds - missedEmpty.value))
    {
      Interfere(others(0, users));
      var again := CollectChanges(issuer);
      if again != Some(changes) {
        return Refused;
      }
      outcome := Applied(0, 0);
      NoIdsNoChange(users, issuer);
      if changes.issuerIds != {} {
        Interfere(others(1, users));
        var modified := FillIssuer(changes.issuerIds, issuer, missedIssuer);
        if modified.None? {
          return Failed;
        }
        outcome := outcome.(issuerCount := modified.value);
      }
      NoIdsNoChange(users, issuer);
      if changes.emptyIds != {} {
        Interfere(others(2, users));
        var modified := UnsetEmptyId(changes.emptyIds, missedEmpty);
        if modified.None? {
          return Failed;
        }
        outcome := outcome.(emptyCount := modified.value);
      }
      if forall n, u :: others(n, u) == u {
        QuietRunCompletes(old(users), issuer, changes, others);
        CompletedRunIsFinal(old(users), issuer);
      }
    }
  }

  /** The state the issuer update meets. */
  function MetByFill(users: Users, changes: Changes, others: (nat, Users) -> Users): Users {
    var rechecked := others(0, users);
    if changes.issuerIds == {} then rechecked else others(1, rechecked)
  }

  /** The state the empty-id update meets. */
  function MetByUnset(users: Users, issuer: string, changes: Changes, others: (nat, Users) -> Users): Users {
    var filled := Filled(MetByFill(users, changes, others), changes.issuerIds, issuer);
    if changes.emptyIds == {} then filled else others(2, filled)
  }

  lemma NoIdsNoChange(users: Users, issuer: string)
    ensures Filled(users, {}, issuer) == users && Unset(users, {}) == users
    ensures Altered(users, users) == {}
  {
  }

  /** With no other writers an applied run is the completed one. */
  lemma QuietRunCompletes(users: Users, issuer: string, changes: Changes, others: (nat, Users) -> Users)
    requires forall n, u :: others(n, u) == u
    ensures Unset(MetByUnset(users, issuer, changes, others), changes.emptyIds) == Completed(users, issuer, changes)
  {
  }

  // ---------------------------------------------------------------- main results

  /** Refused is exactly a database in which some OpenID user has an issuer that is not this one, be it null; otherwise
    * the issuer is due to the OpenID users that have none but an id of one kind, and an empty OpenID id is unset
    * whoever has it. */
  lemma PendingExactly(users: Users, issuer: string)
    ensures Pending(users, issuer).None? <==>
            exists id <- users :: users[id].provider == Text("openid") &&
                                  users[id].openidIssuer != Missing && users[id].openidIssuer != Text(issuer)
    ensures Pending(users, issuer).Some? ==>
              var changes := Pending(users, issuer).value;
              && (forall id :: id in changes.issuerIds <==>
                    && id in users && users[id].provider == Text("openid") && users[id].openidIssuer == Missing
                    && match (users[id].openidId, users[id].idOnTheSource)
                       case (Text(text), source) => text != "" || source != Missing
                       case (_, source) => source != Missing)
              && (forall id :: id in changes.emptyIds <==> id in users && users[id].openidId == Text(""))
  {
    PendingIff(users, issuer);
    if Pending(users, issuer).None? {
      var f :| f in Issuers(users) && f != Text(issuer);
      var id :| id in users && IsOpenId(users[id]) && users[id].openidIssuer == f && f != Missing;
    } else {
      assert forall id :: id in users && IsOpenId(users[id]) && !users[id].openidIssuer.Missing? ==>
          users[id].openidIssuer in Issuers(users);
    }
  }

  /** Whatever state an update meets, it writes only listed ids that match its filter then; an issuer
    * that is present, even a null one, is never overwritten, and no other field changes. */
  lemma UpdatesOnlyFillGaps(users: Users, issuerIds: set<UserId>, emptyIds: set<UserId>, issuer: string, id: UserId)
    requires id in users
    ensures var filled := Filled(users, issuerIds, issuer)[id];
            && filled.(openidIssuer := users[id].openidIssuer) == users[id]
            && (filled != users[id] <==> id in issuerIds && LacksIssuer(users[id]))
            && (filled != users[id] ==> filled.openidIssuer == Text(issuer))
            && (!users[id].openidIssuer.Missing? ==> filled == users[id])
    ensures var unset := Unset(users, emptyIds)[id];
            && unset.(openidId := users[id].openidId) == users[id]
            && (unset != users[id] <==> id in emptyIds && users[id].openidId == Text(""))
            && (unset != users[id] ==> unset.openidId == Missing)
  {
  }

  /** So the counts reported are those of the users really altered. */
  lemma CountsAreWrites(users: Users, ids: set<UserId>, issuer: string)
    ensures Altered(users, Filled(users, ids, issuer)) == ids * LackingIds(users)
    ensures Altered(users, Unset(users, ids)) == ids * EmptyIds(users)
  {
    forall id | id in users
      ensures id in Altered(users, Filled(users, ids, issuer)) <==> id in ids * LackingIds(users)
      ensures id in Altered(users, Unset(users, ids)) <==> id in ids * EmptyIds(users)
    {
      UpdatesOnlyFillGaps(users, ids, ids, issuer, id);
    }
  }

  /** Neither update creates or removes work for the other, and each removes exactly its own. */
  lemma UpdatesAreIndependent(users: Users, p: set<UserId>, q: set<UserId>, issuer: string)
    ensures var after := Unset(Filled(users, p, issuer), q);
            LackingIds(after) == LackingIds(users) - p && EmptyIds(after) == EmptyIds(users) - q
    ensures Issuers(users) <= {Text(issuer)} ==> Issuers(Unset(Filled(users, p, issuer), q)) <= {Text(issuer)}
  {
  }

  lemma PendingIff(users: Users, issuer: string)
    ensures Pending(users, issuer).Some? <==> Issuers(users) <= {Text(issuer)}
  {
    if Issuers(users) <= {Text(issuer)} && Issuers(users) != {} {
      var f :| f in Issuers(users);
      assert f == Text(issuer);
      assert Issuers(users) == {Text(issuer)};
    }
  }

  /** A run stopped part-way leaves exactly the rest of its work pending, and completing that work gives
    * the users an uninterrupted run would have left. */
  lemma InterruptedRunResumes(users: Users, issuer: string, p: set<UserId>, q: set<UserId>)
    requires Pending(users, issuer).Some?
    ensures var changes := Pending(users, issuer).value;
            var left := Unset(Filled(users, p * changes.issuerIds, issuer), q * changes.emptyIds);
            && Pending(left, issuer) == Some(Changes(changes.issuerIds - p, changes.emptyIds - q))
            && Completed(left, issuer, Pending(left, issuer).value) == Completed(users, issuer, changes)
  {
    var changes := Pending(users, issuer).value;
    var p', q' := p * changes.issuerIds, q * changes.emptyIds;
    var left := Unset(Filled(users, p', issuer), q');
    PendingIff(users, issuer);
    UpdatesAreIndependent(users, p', q', issuer);
    PendingIff(left, issuer);
    assert changes.issuerIds - p' == changes.issuerIds - p && changes.emptyIds - q' == changes.emptyIds - q;
    SplitUpdates(users, issuer, p', changes.issuerIds - p, q', changes.emptyIds - q);
    assert p' + (changes.issuerIds - p) == changes.issuerIds && q' + (changes.emptyIds - q) == changes.emptyIds;
  }

  lemma SplitUpdates(users: Users, issuer: string, p: set<UserId>, more: set<UserId>, q: set<UserId>, rest: set<UserId>)
    ensures Unset(Filled(Unset(Filled(users, p, issuer), q), more, issuer), rest) ==
            Unset(Filled(users, p + more, issuer), q + rest)
  {
  }

  /** A completed run leaves nothing to do: the next one finds no changes. */
  lemma CompletedRunIsFinal(users: Users, issuer: string)
    requires Pending(users, issuer).Some?
    ensures Pending(Completed(users, issuer, Pending(users, issuer).value), issuer) == Some(Changes({}, {}))
  {
    var changes := Pending(users, issuer).value;
    PendingIff(users, issuer);
    UpdatesAreIndependent(users, changes.issuerIds, changes.emptyIds, issuer);
    PendingIff(Completed(users, issuer, changes), issuer);
    assert changes.issuerIds - changes.issuerIds == {} && changes.emptyIds - changes.emptyIds == {};
  }
}
