/** The live preview (components/PreviewModal.tsx): a value store keyed by
    field name, updated one key per change event, and the dispatch that
    picks one control per field from its type. */
module Preview {
  import opened Strings
  import opened FieldModel

  /** `formData[name] || ""`: a missing key reads as the empty string. */
  function ValueOf(formData: map<string, string>, name: string): (r: string)
    ensures r == (if name in formData then formData[name] else "")
    ensures r != "" <==> name in formData && formData[name] != ""
  {
    if name in formData && formData[name] != "" then formData[name] else ""
  }

  /** The interactive part of a control. */
  datatype Widget =
    | SelectWidget(choices: seq<string>, placeholder: string)
    | TextareaWidget(placeholder: string)
    | InputWidget(inputType: string, hint: Option<string>)

  /** One rendered field: its key, the target and caption of its label, the
      element id of its control (the select carries none), the value it
      shows and its widget. */
  datatype Control = Control(
    key: string,
    labelFor: string,
    caption: string,
    controlId: Option<string>,
    value: string,
    widget: Widget)

  /** `renderField`: the switch on the field's type. */
  function RenderField(f: FormField, formData: map<string, string>): (c: Control)
    ensures c.key == f.id && c.labelFor == f.name && c.caption == f.labelText
    ensures c.value == ValueOf(formData, f.name)
    ensures c.widget.SelectWidget? <==> f.fieldType == Select
    ensures c.widget.TextareaWidget? <==> f.fieldType == Textarea
    ensures c.widget.SelectWidget? ==> c.widget.choices == f.options
    ensures c.widget.InputWidget? ==> Parse(c.widget.inputType) == Some(f.fieldType)
    ensures c.widget.InputWidget? ==> (c.widget.hint.None? <==> f.fieldType == Date)
    ensures c.widget.SelectWidget? || c.widget.TextareaWidget? ==> c.widget.placeholder == f.placeholder
    ensures c.widget.InputWidget? && c.widget.hint.Some? ==> c.widget.hint.value == f.placeholder
    ensures c.controlId == if f.fieldType == Select then None else Some(f.name)
  {
    var value := ValueOf(formData, f.name);
    var widget :=
      match f.fieldType
      case Select => SelectWidget(f.options, f.placeholder)
      case Textarea => TextareaWidget(f.placeholder)
      case Date => InputWidget("date", None)
      case _ => InputWidget(ToString(f.fieldType), Some(f.placeholder));
    ParseToString(f.fieldType);
    Control(f.id, f.name, f.labelText, if f.fieldType == Select then None else Some(f.name), value, widget)
  }

  /** `fields.map(renderField)`: one control per field, in field order. */
  function Render(fields: seq<FormField>, formData: map<string, string>): (r: seq<Control>)
    ensures |r| == |fields|
    ensures forall k :: 0 <= k < |fields| ==> r[k] == RenderField(fields[k], formData)
  {
    MapSeq(fields, (f: FormField) => RenderField(f, formData))
  }

  /** A change on a field shows its value on every control with that name. */
  lemma ChangeShows(g: FormField, formData: map<string, string>, name: string, value: string)
    requires g.name == name
    ensures RenderField(g, formData[name := value]).value == value
  {
  }

  /** A change under one name leaves every control of another name as it was. */
  lemma ChangeLeavesOthers(g: FormField, formData: map<string, string>, name: string, value: string)
    requires g.name != name
    ensures RenderField(g, formData[name := value]) == RenderField(g, formData)
  {
  }

  /** A change under `name` re-renders the whole form with the new value on
      exactly the controls of fields named `name`; every other control is as
      before. */
  lemma {:induction false} RenderChange(fields: seq<FormField>, formData: map<string, string>, name: string, value: string)
    ensures forall k :: 0 <= k < |fields| ==>
      Render(fields, formData[name := value])[k] ==
        if fields[k].name == name then Render(fields, formData)[k].(value := value)
        else Render(fields, formData)[k]
  {
    forall k | 0 <= k < |fields|
      ensures Render(fields, formData[name := value])[k] ==
        if fields[k].name == name then Render(fields, formData)[k].(value := value)
        else Render(fields, formData)[k]
    {
      if fields[k].name == name {
        ChangeShows(fields[k], formData, name, value);
      } else {
        ChangeLeavesOthers(fields[k], formData, name, value);
      }
    }
  }

  /** A select field with options A, B, C offers exactly those three
      choices, in that order. */
  lemma SelectABCChoices(f: FormField, formData: map<string, string>)
    requires f.fieldType == Select && f.options == ["A", "B", "C"]
    ensures RenderField(f, formData).widget.choices == ["A", "B", "C"]
  {
  }

  /** The value store of one preview component. */
  class PreviewSession {
    var formData: map<string, string>

    /** `useState({})`: the store starts empty. */
    constructor ()
      ensures formData == map[]
    {
      formData := map[];
    }

    /** The change handler of the control of `f`. */
    method Change(f: FormField, value: string)
      modifies this
      ensures formData == old(formData)[f.name := value]
      ensures forall n :: n != f.name ==> (n in formData <==> n in old(formData))
      ensures forall n :: n != f.name && n in formData ==> formData[n] == old(formData)[n]
    {
      formData := formData[f.name := value];
    }

    /** The controls for the current store. */
    function Controls(fields: seq<FormField>): (r: seq<Control>)
      reads this
      ensures |r| == |fields|
      ensures forall k :: 0 <= k < |fields| ==> r[k].key == fields[k].id && r[k].value == ValueOf(formData, fields[k].name)
    {
      Render(fields, formData)
    }

    /** `handleSubmit`: reports the whole store and leaves it as it is. */
    method Submit() returns (snapshot: map<string, string>)
      ensures snapshot == formData
    {
      snapshot := formData;
    }
  }

  /** Editing one field and submitting twice reports exactly that value
      under that field's name, nothing for the others, and the same snapshot
      both times. */
  method EditThenSubmit(f: FormField, value: string, others: seq<FormField>)
    returns (first: map<string, string>, second: map<string, string>)
    ensures first == map[f.name := value]
    ensures forall g :: g in others && g.name != f.name ==> ValueOf(first, g.name) == ""
    ensures second == first
  {
    var session := new PreviewSession();
    session.Change(f, value);
    first := session.Submit();
    second := session.Submit();
  }
}
