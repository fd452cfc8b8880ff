/** The field collection of the form builder (hooks/useFormFields.ts):
    field records, their type tags, and the two pure operations that build
    a new collection from the old one. */
module FieldModel {

  datatype Option<T> = None | Some(value: T)

  /** The seven type tags the add-field form offers. */
  datatype FieldType = Text | Email | Password | Number | Textarea | Select | Date

  /** The tag as it appears in the source (the `type` string). */
  function ToString(t: FieldType): string
  {
    match t
    case Text => "text"
    case Email => "email"
    case Password => "password"
    case Number => "number"
    case Textarea => "textarea"
    case Select => "select"
    case Date => "date"
  }

  /** Reads back a type string chosen in the form's type selector. */
  function Parse(s: string): (r: Option<FieldType>)
    ensures r.Some? ==> ToString(r.value) == s
  {
    if s == "text" then Some(Text)
    else if s == "email" then Some(Email)
    else if s == "password" then Some(Password)
    else if s == "number" then Some(Number)
    else if s == "textarea" then Some(Textarea)
    else if s == "select" then Some(Select)
    else if s == "date" then Some(Date)
    else None
  }

  /** Every tag's string reads back as that tag, so `ToString` is injective. */
  lemma ParseToString(t: FieldType)
    ensures Parse(ToString(t)) == Some(t)
  {
  }

  lemma ToStringInjective(t: FieldType, u: FieldType)
    requires ToString(t) == ToString(u)
    ensures t == u
  {
    ParseToString(t);
    ParseToString(u);
  }

  /** A field definition without its id: what the add-field form emits. */
  datatype FieldDraft = FieldDraft(
    name: string,
    fieldType: FieldType,
    labelText: string,
    placeholder: string,
    options: seq<string>)

  /** A field definition in the collection. */
  datatype FormField = FormField(
    id: string,
    name: string,
    fieldType: FieldType,
    labelText: string,
    placeholder: string,
    options: seq<string>)
  {
    /** The record without its id. */
    function Content(): FieldDraft
    {
      FieldDraft(name, fieldType, labelText, placeholder, options)
    }
  }

  /** `{ ...field, id }`: the draft's components with the given id. */
  function WithId(d: FieldDraft, id: string): (f: FormField)
    ensures f.id == id && f.Content() == d
  {
    FormField(id, d.name, d.fieldType, d.labelText, d.placeholder, d.options)
  }

  /** The ids used in a collection. */
  function Ids(fields: seq<FormField>): set<string>
  {
    set f | f in fields :: f.id
  }

  /** The invariant the collection keeps: no id occurs twice. */
  ghost predicate DistinctIds(fields: seq<FormField>)
  {
    forall i, j :: 0 <= i < j < |fields| ==> fields[i].id != fields[j].id
  }

  /** `addField`: the old collection with one new record at the end.  The id
      the source reads from the clock is a parameter here. */
  function AddField(fields: seq<FormField>, d: FieldDraft, id: string): (r: seq<FormField>)
    ensures |r| == |fields| + 1
    ensures r[..|fields|] == fields
    ensures r[|fields|].id == id && r[|fields|].Content() == d
  {
    fields + [WithId(d, id)]
  }

  /** Adding grows the id set by exactly the supplied id. */
  lemma AddFieldIds(fields: seq<FormField>, d: FieldDraft, id: string)
    ensures Ids(AddField(fields, d, id)) == Ids(fields) + {id}
  {
    var r := AddField(fields, d, id);
    assert r == fields + [WithId(d, id)];
    assert forall f :: f in r <==> f in fields || f == WithId(d, id);
  }

  /** A fresh id keeps the ids distinct. */
  lemma AddFieldKeepsIdsDistinct(fields: seq<FormField>, d: FieldDraft, id: string)
    requires DistinctIds(fields)
    requires id !in Ids(fields)
    ensures DistinctIds(AddField(fields, d, id))
  {
    var r := AddField(fields, d, id);
    forall i, j | 0 <= i < j < |r|
      ensures r[i].id != r[j].id
    {
      if j == |fields| {
        assert r[i] == fields[i];
        assert fields[i] in fields;
      } else {
        assert r[i] == fields[i] && r[j] == fields[j];
      }
    }
  }

  /** `removeField`: `fields.filter(f => f.id !== id)`. */
  function RemoveField(fields: seq<FormField>, id: string): (r: seq<FormField>)
    ensures |r| <= |fields|
  {
    if |fields| == 0 then []
    else (if fields[0].id == id then [] else [fields[0]]) + RemoveField(fields[1..], id)
  }

  /** Exactly the records whose id differs survive. */
  lemma {:induction false} RemoveFieldMembers(fields: seq<FormField>, id: string)
    ensures forall f :: f in RemoveField(fields, id) <==> f in fields && f.id != id
  {
    if |fields| > 0 {
      RemoveFieldMembers(fields[1..], id);
      assert fields == [fields[0]] + fields[1..];
    }
  }

  /** After removal the id is gone. */
  lemma RemoveFieldGone(fields: seq<FormField>, id: string)
    ensures id !in Ids(RemoveField(fields, id))
  {
    RemoveFieldMembers(fields, id);
  }

  /** Removing an absent id returns the collection unchanged. */
  lemma {:induction false} RemoveFieldAbsent(fields: seq<FormField>, id: string)
    requires id !in Ids(fields)
    ensures RemoveField(fields, id) == fields
  {
    if |fields| > 0 {
      var tail := fields[1..];
      assert fields[0] in fields;
      assert id !in Ids(tail) by {
        forall f | f in tail
          ensures f.id != id
        {
          assert f in fields;
        }
      }
      RemoveFieldAbsent(tail, id);
      assert fields == [fields[0]] + tail;
    }
  }

  /** Removing a present id shortens the collection. */
  lemma {:induction false} RemoveFieldShrinks(fields: seq<FormField>, id: string)
    requires id in Ids(fields)
    ensures |RemoveField(fields, id)| < |fields|
  {
    var tail := fields[1..];
    if fields[0].id != id {
      assert id in Ids(tail) by {
        var f :| f in fields && f.id == id;
        var k :| 0 <= k < |fields| && fields[k] == f;
        assert k != 0;
        assert tail[k - 1] == f;
      }
      RemoveFieldShrinks(tail, id);
    }
  }

  /** Filtering distributes over concatenation: survivors keep their
      relative order. */
  lemma {:induction false} RemoveFieldAppend(a: seq<FormField>, b: seq<FormField>, id: string)
    ensures RemoveField(a + b, id) == RemoveField(a, id) + RemoveField(b, id)
  {
    if |a| == 0 {
      assert a + b == b;
    } else {
      assert (a + b)[0] == a[0];
      assert (a + b)[1..] == a[1..] + b;
      RemoveFieldAppend(a[1..], b, id);
    }
  }

  /** A one-element collection keeps its element exactly when the id differs. */
  lemma RemoveFieldSingleton(f: FormField, id: string)
    ensures RemoveField([f], id) == if f.id == id then [] else [f]
  {
    assert [f][1..] == [];
  }

  /** Removing the same id twice is removing it once. */
  lemma {:induction false} RemoveFieldIdempotent(fields: seq<FormField>, id: string)
    ensures RemoveField(RemoveField(fields, id), id) == RemoveField(fields, id)
  {
    if |fields| > 0 {
      var rest := RemoveField(fields[1..], id);
      RemoveFieldIdempotent(fields[1..], id);
      if fields[0].id != id {
        var r := [fields[0]] + rest;
        assert RemoveField(fields, id) == r;
        assert r[0] == fields[0] && r[1..] == rest;
        assert RemoveField(r, id) == [fields[0]] + RemoveField(rest, id);
      } else {
        assert RemoveField(fields, id) == [] + rest;
        assert [] + rest == rest;
      }
    }
  }

  /** With distinct ids, removing a present id removes exactly one record. */
  lemma {:induction false} RemoveFieldCount(fields: seq<FormField>, id: string)
    requires DistinctIds(fields)
    requires id in Ids(fields)
    ensures |RemoveField(fields, id)| == |fields| - 1
  {
    var tail := fields[1..];
    TailDistinct(fields);
    if fields[0].id == id {
      RemoveFieldAbsent(tail, id);
      assert RemoveField(fields, id) == [] + tail;
    } else {
      assert id in Ids(tail) by {
        var f :| f in fields && f.id == id;
        var k :| 0 <= k < |fields| && fields[k] == f;
        assert k != 0;
        assert tail[k - 1] == f;
      }
      RemoveFieldCount(tail, id);
    }
  }

  /** The tail of a collection with distinct ids has distinct ids, none of
      them the head's. */
  lemma TailDistinct(fields: seq<FormField>)
    requires DistinctIds(fields) && |fields| > 0
    ensures DistinctIds(fields[1..])
    ensures fields[0].id !in Ids(fields[1..])
  {
    var tail := fields[1..];
    forall i, j | 0 <= i < j < |tail|
      ensures tail[i].id != tail[j].id
    {
      assert tail[i] == fields[i + 1] && tail[j] == fields[j + 1];
    }
    forall f | f in tail
      ensures f.id != fields[0].id
    {
      var k :| 0 <= k < |tail| && tail[k] == f;
      assert fields[k + 1] == f;
    }
  }

  /** Putting a record with a fresh id in front keeps the ids distinct. */
  lemma ConsDistinct(f: FormField, rest: seq<FormField>)
    requires DistinctIds(rest) && f.id !in Ids(rest)
    ensures DistinctIds([f] + rest)
  {
    var r := [f] + rest;
    forall i, j | 0 <= i < j < |r|
      ensures r[i].id != r[j].id
    {
      assert r[j] == rest[j - 1] && rest[j - 1] in rest;
      if i > 0 {
        assert r[i] == rest[i - 1];
      }
    }
  }

  /** Removal keeps the ids distinct. */
  lemma {:induction false} RemoveFieldKeepsIdsDistinct(fields: seq<FormField>, id: string)
    requires DistinctIds(fields)
    ensures DistinctIds(RemoveField(fields, id))
  {
    if |fields| > 0 {
      var tail := fields[1..];
      TailDistinct(fields);
      RemoveFieldKeepsIdsDistinct(tail, id);
      var rest := RemoveField(tail, id);
      RemoveFieldMembers(tail, id);
      if fields[0].id != id {
        assert fields[0].id !in Ids(rest);
        ConsDistinct(fields[0], rest);
      } else {
        assert RemoveField(fields, id) == [] + rest;
        assert [] + rest == rest;
      }
    }
  }

  /** Adding two records and removing the first by id leaves the old
      collection followed by the second record, id and content unchanged. */
  lemma AddTwoRemoveFirst(fields: seq<FormField>, d1: FieldDraft, id1: string, d2: FieldDraft, id2: string)
    requires id1 !in Ids(fields)
    requires id2 != id1
    ensures RemoveField(AddField(AddField(fields, d1, id1), d2, id2), id1) == fields + [WithId(d2, id2)]
  {
    var f1, f2 := WithId(d1, id1), WithId(d2, id2);
    assert AddField(AddField(fields, d1, id1), d2, id2) == fields + [f1] + [f2];
    RemoveFieldAppend(fields + [f1], [f2], id1);
    RemoveFieldAppend(fields, [f1], id1);
    RemoveFieldSingleton(f1, id1);
    RemoveFieldSingleton(f2, id1);
    RemoveFieldAbsent(fields, id1);
  }

  /** The collection starts empty; adding two fields to it and removing the
      first leaves exactly the second. */
  lemma AddTwoRemoveFirstFromEmpty(d1: FieldDraft, id1: string, d2: FieldDraft, id2: string)
    requires id2 != id1
    ensures RemoveField(AddField(AddField([], d1, id1), d2, id2), id1) == [WithId(d2, id2)]
  {
    AddTwoRemoveFirst([], d1, id1, d2, id2);
  }
}
