/** Document ids as MongoDB stores them: object ids, or the strings that spell them. */
module BsonIds {
  import opened Ascii

  predicate IsHexDigit(c: char) {
    '0' <= c <= '9' || 'a' <= c <= 'f' || 'A' <= c <= 'F'
  }

  /** What `ObjectId.is_valid` accepts of a string. */
  predicate SpellsObjectId(s: string) {
    |s| == 24 && forall i :: 0 <= i < |s| ==> IsHexDigit(s[i])
  }

  lemma SpellsExactly(s: string)
    ensures SpellsObjectId(s) <==> |s| == 24 && forall c <- s :: c in "0123456789abcdefABCDEF"
  {
    forall c ensures IsHexDigit(c) <==> c in "0123456789abcdefABCDEF" { }
    if |s| == 24 && forall c <- s :: c in "0123456789abcdefABCDEF" {
      assert forall i :: 0 <= i < |s| ==> s[i] in s;
    }
  }

  /** The canonical spelling: `str` of an object id. */
  predicate IsCanonical(s: string) {
    SpellsObjectId(s) && Lower(s) == s
  }

  type Hex = s: string | IsCanonical(s) ghost witness seq(24, _ => '0')

  datatype Id = Oid(hex: Hex) | Text(text: string)

  function Str(id: Id): string {
    match id
    case Oid(hex) => hex
    case Text(text) => text
  }

  predicate IsValid(id: Id) {
    id.Oid? || SpellsObjectId(id.text)
  }

  lemma LowerIsCanonical(s: string)
    requires SpellsObjectId(s)
    ensures IsCanonical(Lower(s))
  {
  }

  function ToOid(id: Id): Id
    requires IsValid(id)
  {
    match id
    case Oid(_) => id
    case Text(text) => LowerIsCanonical(text); Oid(Lower(text))
  }

  /** The stored forms a reference to `id` is looked up under. */
  function FormsOf(id: Id): set<Id> {
    {id, Text(Str(id))} + if IsValid(id) then {ToOid(id)} else {}
  }

  function IdForms(ids: set<Id>): set<Id> {
    set id, form | id in ids && form in FormsOf(id) :: form
  }

  function Elements(ids: seq<Id>): set<Id> {
    set id | id in ids
  }

  lemma IdFormsAdd(ids: set<Id>, id: Id)
    ensures IdForms(ids + {id}) == IdForms(ids) + FormsOf(id)
  {
    forall f | f in IdForms(ids) + FormsOf(id) ensures f in IdForms(ids + {id}) {
      if f in FormsOf(id) {
        assert id in ids + {id};
      } else {
        var j :| j in ids && f in FormsOf(j);
        assert j in ids + {id};
      }
    }
  }

  method CollectIdForms(ids: seq<Id>) returns (forms: set<Id>)
    ensures forms == IdForms(Elements(ids))
  {
    forms := {};
    for i := 0 to |ids|
      invariant forms == IdForms(Elements(ids[..i]))
    {
      var value := ids[i];
      forms := forms + {value};
      forms := forms + {Text(Str(value))};
      if IsValid(value) {
        forms := forms + {ToOid(value)};
      }
      assert Elements(ids[..i + 1]) == Elements(ids[..i]) + {value};
      IdFormsAdd(Elements(ids[..i]), value);
    }
    assert ids[..|ids|] == ids;
  }

  /** Object ids and their spellings are closed under expansion, so expanding a reference again finds
    * nothing that was not looked up already. */
  lemma ObjectIdFormsClosed(ids: set<Id>, form: Id)
    requires forall id :: id in ids ==> id.Oid?
    requires form in IdForms(ids)
    ensures FormsOf(form) <= IdForms(ids)
    ensures form.Oid? || (SpellsObjectId(form.text) && ToOid(form) in ids)
  {
    var id :| id in ids && form in FormsOf(id);
    assert FormsOf(form) == FormsOf(id);
  }

  /** For arbitrary ids expansion is closed exactly when every string that spells an object id has
    * its canonical spelling, or the object id itself, among them. */
  lemma IdFormsClosedIff(ids: set<Id>)
    ensures IdForms(IdForms(ids)) == IdForms(ids) <==>
            forall id :: id in ids && id.Text? && SpellsObjectId(id.text) ==>
              Text(Lower(id.text)) in ids || ToOid(id) in ids
  {
    if forall id :: id in ids && id.Text? && SpellsObjectId(id.text) ==>
        Text(Lower(id.text)) in ids || ToOid(id) in ids {
      forall f | f in IdForms(IdForms(ids)) ensures f in IdForms(ids) {
        var g :| g in IdForms(ids) && f in FormsOf(g);
        var id :| id in ids && g in FormsOf(id);
        if f !in FormsOf(id) {
          assert id.Text? && g == ToOid(id) && f == Text(Lower(id.text));
          assert f in FormsOf(g) && f in FormsOf(f);
        }
      }
      forall f | f in IdForms(ids) ensures f in IdForms(IdForms(ids)) {
        assert f in FormsOf(f);
      }
    } else {
      var id :| id in ids && id.Text? && SpellsObjectId(id.text) && Text(Lower(id.text)) !in ids && ToOid(id) !in ids;
      var o := ToOid(id);
      assert o in FormsOf(id) && Text(Lower(id.text)) in FormsOf(o);
      assert Text(Lower(id.text)) in IdForms(IdForms(ids));
      forall j | j in ids ensures Text(Lower(id.text)) !in FormsOf(j) {
        assert j != Text(Lower(id.text)) && j != o;
      }
    }
  }

  /** An object id spelled in upper case alone is such a string: its lower-case form is found only the second time. */
  lemma UpperCaseIsNotClosed(id: Id)
    requires id.Text? && SpellsObjectId(id.text) && Lower(id.text) != id.text
    ensures IdForms(IdForms({id})) != IdForms({id})
  {
    IdFormsClosedIff({id});
  }
}
