/** The add-field form (components/AddFieldForm.tsx): a draft field and a
    pending option string, stepped by the form's event handlers.  Each
    handler replaces the draft by an edited copy; the class keeps the two
    pieces of state and its invariant is that the draft's options hold no
    duplicate. */
module DraftEditor {
  import opened FieldModel

  /** The blank draft the form starts with and returns to after a submit. */
  const InitialDraft: FieldDraft := FieldDraft("", Text, "", "", [])

  predicate NoDuplicates(s: seq<string>)
  {
    forall i, j :: 0 <= i < j < |s| ==> s[i] != s[j]
  }

  /** The guard of `addOption`: the pending option is non-empty and not yet
      among the options (exact, case-sensitive comparison). */
  predicate Accepts(options: seq<string>, option: string)
  {
    option != "" && option !in options
  }

  /** The options after `addOption`. */
  function AddOptionTo(options: seq<string>, option: string): (r: seq<string>)
    ensures r == options || r == options + [option]
    ensures r != options <==> Accepts(options, option)
    ensures forall x :: x in r <==> x in options || (x == option && option != "")
    ensures NoDuplicates(options) ==> NoDuplicates(r)
  {
    if Accepts(options, option) then options + [option] else options
  }

  /** Offering the same option twice adds it once. */
  lemma AddOptionToIdempotent(options: seq<string>, option: string)
    ensures AddOptionTo(AddOptionTo(options, option), option) == AddOptionTo(options, option)
  {
  }

  /** `options.filter((_, i) => i !== index)`. */
  function RemoveAt(s: seq<string>, index: int): (r: seq<string>)
    ensures 0 <= index < |s| ==> r == s[..index] + s[index + 1..]
    ensures !(0 <= index < |s|) ==> r == s
    ensures forall x :: x in r ==> x in s
    ensures NoDuplicates(s) ==> NoDuplicates(r)
  {
    if |s| == 0 then []
    else (if index == 0 then [] else [s[0]]) + RemoveAt(s[1..], index - 1)
  }

  /** Removing element `i` shifts the later ones down by one and leaves the
      earlier ones in place. */
  lemma RemoveAtShifts(s: seq<string>, i: nat, k: nat)
    requires i < |s| && k < |s| - 1
    ensures |RemoveAt(s, i)| == |s| - 1
    ensures RemoveAt(s, i)[k] == if k < i then s[k] else s[k + 1]
  {
  }

  /** One edit of the option list: offering the pending option, or the
      Remove button at an index. */
  datatype OptionEdit = Offer(option: string) | Drop(index: int)

  /** The option list after a run of edits, applied left to right. */
  function ApplyEdits(options: seq<string>, edits: seq<OptionEdit>): seq<string>
    decreases |edits|
  {
    if |edits| == 0 then options
    else
      var next := match edits[0]
        case Offer(o) => AddOptionTo(options, o)
        case Drop(i) => RemoveAt(options, i);
      ApplyEdits(next, edits[1..])
  }

  /** No run of offers and removals introduces a duplicate option. */
  lemma {:induction false} EditsKeepNoDuplicates(options: seq<string>, edits: seq<OptionEdit>)
    requires NoDuplicates(options)
    ensures NoDuplicates(ApplyEdits(options, edits))
    decreases |edits|
  {
    if |edits| > 0 {
      var next := match edits[0]
        case Offer(o) => AddOptionTo(options, o)
        case Drop(i) => RemoveAt(options, i);
      EditsKeepNoDuplicates(next, edits[1..]);
    }
  }

  /** Every option that survives a run of edits was there before or was
      offered, non-empty, along the way. */
  lemma {:induction false} EditsOnlyAddOffered(options: seq<string>, edits: seq<OptionEdit>, x: string)
    requires x in ApplyEdits(options, edits)
    ensures x in options || (x != "" && Offer(x) in edits)
    decreases |edits|
  {
    if |edits| > 0 {
      var next := match edits[0]
        case Offer(o) => AddOptionTo(options, o)
        case Drop(i) => RemoveAt(options, i);
      EditsOnlyAddOffered(next, edits[1..], x);
      if Offer(x) in edits[1..] {
        assert Offer(x) in edits;
      }
    }
  }

  /** The browser's check of the `required` name and label inputs. */
  predicate Submittable(d: FieldDraft)
  {
    d.name != "" && d.labelText != ""
  }

  /** The blank draft cannot be submitted. */
  lemma InitialDraftBlocked()
    ensures !Submittable(InitialDraft)
  {
  }

  class DraftForm {
    var field: FieldDraft
    var option: string

    ghost predicate Valid()
      reads this
    {
      NoDuplicates(field.options)
    }

    /** The initial state: the blank draft and an empty pending option. */
    constructor ()
      ensures Valid()
      ensures field == InitialDraft && option == ""
    {
      field := InitialDraft;
      option := "";
    }

    /** The name input's change handler. */
    method SetName(name: string)
      requires Valid()
      modifies this
      ensures Valid()
      ensures field == old(field).(name := name) && option == old(option)
    {
      field := field.(name := name);
    }

    /** The type selector's change handler; the options are kept whatever
      the new type. */
    method SetType(t: FieldType)
      requires Valid()
      modifies this
      ensures Valid()
      ensures field == old(field).(fieldType := t) && option == old(option)
    {
      field := field.(fieldType := t);
    }

    /** The label input's change handler. */
    method SetLabel(text: string)
      requires Valid()
      modifies this
      ensures Valid()
      ensures field == old(field).(labelText := text) && option == old(option)
    {
      field := field.(labelText := text);
    }

    /** The placeholder input's change handler. */
    method SetPlaceholder(text: string)
      requires Valid()
      modifies this
      ensures Valid()
      ensures field == old(field).(placeholder := text) && option == old(option)
    {
      field := field.(placeholder := text);
    }

    /** The option input's change handler. */
    method SetOption(text: string)
      requires Valid()
      modifies this
      ensures Valid()
      ensures field == old(field) && option == text
    {
      option := text;
    }

    /** `addOption`: an accepted option goes at the end and the pending
      option is cleared; a rejected one changes nothing. */
    method AddOption()
      requires Valid()
      modifies this
      ensures Valid()
      ensures field == old(field).(options := AddOptionTo(old(field.options), old(option)))
      ensures option == if Accepts(old(field.options), old(option)) then "" else old(option)
      ensures !Accepts(old(field.options), old(option)) ==> field == old(field) && option == old(option)
    {
      if Accepts(field.options, option) {
        field := field.(options := field.options + [option]);
        option := "";
      }
    }

    /** The Remove button of the option at `index`. */
    method RemoveOption(index: int)
      requires Valid()
      modifies this
      ensures Valid()
      ensures field == old(field).(options := RemoveAt(old(field.options), index))
      ensures option == old(option)
    {
      field := field.(options := RemoveAt(field.options, index));
    }

    /** The submit button.  The name and label inputs are `required`, so
      while either is empty the submission is blocked and nothing changes;
      otherwise `handleSubmit` hands the draft to the caller and resets the
      form. */
    method Submit() returns (emitted: Option<FieldDraft>)
      requires Valid()
      modifies this
      ensures Valid()
      ensures emitted.Some? <==> Submittable(old(field))
      ensures emitted.Some? ==> emitted.value == old(field) && field == InitialDraft && option == ""
      ensures emitted.None? ==> field == old(field) && option == old(option)
    {
      if Submittable(field) {
        emitted := Some(field);
        field := InitialDraft;
        option := "";
      } else {
        emitted := None;
      }
    }
  }

  /** Offering "A", "A" again, nothing, and "B" on an empty option list
      leaves the options A, B and an empty pending option. */
  method OfferAB(form: DraftForm)
    requires form.Valid() && form.field.options == []
    modifies form
    ensures form.Valid()
    ensures form.field == old(form.field).(options := ["A", "B"]) && form.option == ""
  {
    form.SetOption("A");
    form.AddOption();
    assert form.field.options == ["A"];
    form.SetOption("A");
    form.AddOption();
    form.SetOption("");
    form.AddOption();
    assert form.field == old(form.field).(options := ["A"]);
    form.SetOption("B");
    form.AddOption();
    assert ["A"] + ["B"] == ["A", "B"];
  }

  /** A session of the form: a submit before the label is filled in is
      blocked; then a select field with options "A" and "B" is built, where a
      repeated "A" and an empty option are turned away, and submitted. */
  method SelectDraftSession() returns (blocked: Option<FieldDraft>, emitted: Option<FieldDraft>, after: FieldDraft)
    ensures blocked == None
    ensures emitted == Some(FieldDraft("color", Select, "Color", "", ["A", "B"]))
    ensures after == InitialDraft
  {
    var form := new DraftForm();
    form.SetName("color");
    blocked := form.Submit();
    form.SetType(Select);
    form.SetLabel("Color");
    OfferAB(form);
    emitted := form.Submit();
    after := form.field;
  }
}
