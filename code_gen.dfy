/** The code generator (the `generateCode` closure of
    components/GeneratedCode.tsx): a deterministic text template that turns
    the field collection and the form title into the source of a form
    component.  Every literal below is the template's text character for
    character, including its trailing spaces, the `<Datepicker` tag (the
    import names `DatePicker`) and the never-imported `parseDate`; labels,
    placeholders and options are inserted without escaping. */
module CodeGen {
  import opened Strings
  import opened FieldModel

  // ---------------------------------------------------------------------
  // Setter names

  predicate IsLowerAscii(c: char) { 'a' <= c <= 'z' }

  predicate IsUpperAscii(c: char) { 'A' <= c <= 'Z' }

  /** `toUpperCase` on one character, restricted to ASCII letters. */
  function UpperAscii(c: char): char
  {
    if IsLowerAscii(c) then (c as int - 32) as char else c
  }

  /** `toLowerCase` on one character, restricted to ASCII letters. */
  function LowerAscii(c: char): char
  {
    if IsUpperAscii(c) then (c as int + 32) as char else c
  }

  /** Lower-casing undoes upper-casing on every character that is not an
      upper-case letter already. */
  lemma LowerUpperAscii(c: char)
    requires !IsUpperAscii(c)
    ensures LowerAscii(UpperAscii(c)) == c
  {
  }

  /** `name.charAt(0).toUpperCase() + name.slice(1)`: the first character
      upper-cased, the rest unchanged, the empty name left empty. */
  function Capitalize(name: string): (r: string)
    ensures |r| == |name|
    ensures |name| == 0 ==> r == ""
    ensures |name| > 0 ==> r[0] == UpperAscii(name[0]) && r[1..] == name[1..]
  {
    if |name| == 0 then "" else [UpperAscii(name[0])] + name[1..]
  }

  /** The setter of the state pair generated for `name`: "set", then the
      capitalized name. */
  function SetterName(name: string): (r: string)
    ensures |r| == |name| + 3
    ensures r[..3] == "set" && r[3..] == Capitalize(name)
  {
    "set" + Capitalize(name)
  }

  /** Reads the state name back from a setter name (the inverse direction). */
  function NameOfSetter(setter: string): string
  {
    if |setter| <= 3 then "" else [LowerAscii(setter[3])] + setter[4..]
  }

  /** For a name that does not start with an upper-case letter, the setter
      name determines the name. */
  lemma SetterNameRoundTrip(name: string)
    requires |name| == 0 || !IsUpperAscii(name[0])
    ensures NameOfSetter(SetterName(name)) == name
  {
    if |name| > 0 {
      var setter, cap := SetterName(name), Capitalize(name);
      assert setter[3] == cap[0] && setter[4..] == cap[1..];
      LowerUpperAscii(name[0]);
      assert name == [name[0]] + name[1..];
    }
  }

  lemma SetterNameInjective(a: string, b: string)
    requires |a| == 0 || !IsUpperAscii(a[0])
    requires |b| == 0 || !IsUpperAscii(b[0])
    requires SetterName(a) == SetterName(b)
    ensures a == b
  {
    SetterNameRoundTrip(a);
    SetterNameRoundTrip(b);
  }

  /** Distinct names alone do not give distinct setters: "email" and "Email"
      both yield "setEmail". */
  lemma SetterNameCollision()
    ensures "email" != "Email" && SetterName("email") == SetterName("Email") == "setEmail"
  {
    SetterNameEmail();
    assert Capitalize("Email") == "Email" by {
      assert "Email"[1..] == "mail";
    }
  }

  /** The setter of "email" is "setEmail". */
  lemma SetterNameEmail()
    ensures SetterName("email") == "setEmail"
  {
    assert Capitalize("email") == "Email" by {
      assert "email"[1..] == "mail";
    }
  }

  /** The setter of a camel-case name upper-cases only its first letter. */
  lemma SetterNameFirstName()
    ensures SetterName("firstName") == "setFirstName"
  {
    assert Capitalize("firstName") == "FirstName" by {
      assert "firstName"[1..] == "irstName";
    }
  }

  // ---------------------------------------------------------------------
  // The import preamble (`imports`)

  const Imports: string :=
    "import { useState } from 'react'\n" +
    "      import { Input } from '@heroui/input'\n" +
    "      import {Autocomplete, AutocompleteItem, Button, CalendarDate} from \"@heroui/react\";\n" +
    "      import {Textarea} from \"@heroui/input\";\n" +
    "      import {DatePicker} from \"@heroui/date-picker\";\n" +
    "      import {Select, SelectSection, SelectItem} from \"@heroui/select\";\n" +
    "      import { Card, CardContent, CardDescription, CardFooter, CardHeader, CardTitle } from '@/components/ui/card'"

  // ---------------------------------------------------------------------
  // State declarations (`formFields`)

  /** One `useState` pair for a field named `name`. */
  function StateDecl(name: string): string
  {
    Concat(["\n          const [", name, ", ", SetterName(name), "] = useState('')"])
  }

  function StateDecls(fields: seq<FormField>): seq<string>
  {
    MapSeq(fields, (f: FormField) => StateDecl(f.name))
  }

  /** `fields.map(...).join("")`. */
  function FormFieldsSection(fields: seq<FormField>): string
  {
    Join(StateDecls(fields), "")
  }

  // ---------------------------------------------------------------------
  // The submit handler (`handleSubmit`)

  function Names(fields: seq<FormField>): seq<string>
  {
    MapSeq(fields, (f: FormField) => f.name)
  }

  /** The logged object: the names joined by ", " inside braces. */
  function LogStatement(fields: seq<FormField>): string
  {
    Concat(["console.log({ ", Join(Names(fields), ", "), " })"])
  }

  const HandlerOpen: string :=
    "\n  const handleSubmit = (e: React.FormEvent) => {\n" +
    "    e.preventDefault()\n" +
    "    // Handle form submission here\n" +
    "    "

  function HandleSubmit(fields: seq<FormField>): string
  {
    Concat([HandlerOpen, LogStatement(fields), "\n  }"])
  }

  // ---------------------------------------------------------------------
  // Markup blocks (`formInputs`)

  const BlockOpen: string := "\n        <div className=\"grid w-full items-center gap-1.5\">\n"

  const BlockClose: string := "\n        </div>"

  function SelectItem(option: string): string
  {
    Concat(["<SelectItem key=\"", option, "\" value=\"", option, "\">", option, "</SelectItem>"])
  }

  const ItemSeparator: string := "\n              "

  /** The choice items of a select block: `options.map(...).join(...)`. */
  function SelectItems(options: seq<string>): string
  {
    Join(MapSeq(options, SelectItem), ItemSeparator)
  }

  /** The tag of the control each kind of block uses. */
  function ControlTag(t: FieldType): string
  {
    match t
    case Select => "<Select"
    case Textarea => "<Textarea"
    case Date => "<Datepicker"
    case _ => "<Input"
  }

  /** The indentation before the control's tag. */
  function ControlIndent(t: FieldType): string
  {
    if t == Select then "            " else "          "
  }

  // The attribute texts around the values a block binds to its field.

  const ValueOpen: string := "value={"

  const BraceClose: string := "}"

  const LabelOpen: string := "label=\""

  const PlaceholderOpen: string := "placeholder=\""

  const Quote: string := "\""

  const CallOpen: string := "("

  // Attribute lines the textarea, date and input blocks have in common.

  const IdAttr: string := "\n            id=\""

  const ValueAttr: string := Quote + "\n            " + ValueOpen

  const OnChangeAttr: string := BraceClose + "\n            onChange={(e) => "

  const LabelAttr: string := CallOpen + "e.target.value)}\n            " + LabelOpen

  const StyleAttrs: string :=
    Quote + "\n" +
    "            labelPlacement=\"outside\"\n" +
    "            radius=\"sm\"\n" +
    "            " + PlaceholderOpen

  const RequiredClose: string :=
    Quote + "\n" +
    "            required\n" +
    "          />"

  /** The pieces of the markup block of a field: the shared opening of the
      row and the control's tag, then the rest of the control. */
  function BlockPieces(f: FieldDraft): seq<string>
  {
    [BlockOpen, ControlIndent(f.fieldType), ControlTag(f.fieldType)] + ControlPieces(f)
  }

  /** The control after its tag, by the four-way dispatch on the type. */
  function ControlPieces(f: FieldDraft): seq<string>
  {
    match f.fieldType
    case Select => SelectPieces(f)
    case Textarea => TextareaPieces(f)
    case Date => DatePieces(f)
    case _ => InputPieces(f)
  }

  function SelectPieces(f: FieldDraft): seq<string>
  {
    [ " className=\"max-w-xs\" \n" +
      "                    labelPlacement=\"outside\" \n" +
      "                    radius=\"sm\" \n" +
      "                    " + LabelOpen,
      f.labelText,
      Quote + " \n" +
      "                    " + ValueOpen,
      f.name,
      BraceClose + " \n" +
      "                    " + PlaceholderOpen,
      f.placeholder,
      Quote + " \n" +
      "                    onSelectionChange={(value) => ",
      SetterName(f.name),
      CallOpen + "value)}\n" +
      "                    >\n" +
      "            ",
      SelectItems(f.options),
      "\n            </Select>",
      BlockClose ]
  }

  function TextareaPieces(f: FieldDraft): seq<string>
  {
    [ IdAttr, f.name, ValueAttr, f.name, OnChangeAttr, SetterName(f.name), LabelAttr, f.labelText,
      StyleAttrs, f.placeholder, RequiredClose, BlockClose ]
  }

  function DatePieces(f: FieldDraft): seq<string>
  {
    [ IdAttr, f.name, ValueAttr, f.name, BraceClose + "\n            " + LabelOpen, f.labelText,
      StyleAttrs, f.placeholder, Quote + "\n            onChange={(e) => ", SetterName(f.name),
      CallOpen + "e.target.value || parseDate(new Date().toISOString().split('T')[0]))}\n" +
      "            required\n" +
      "          />",
      BlockClose ]
  }

  /** Every other type is an input whose type attribute is the type string. */
  function InputPieces(f: FieldDraft): seq<string>
  {
    [ "\n            ", "type=\"", ToString(f.fieldType), "\"",
      IdAttr, f.name, ValueAttr, f.name, OnChangeAttr, SetterName(f.name), LabelAttr, f.labelText,
      StyleAttrs, f.placeholder, RequiredClose, BlockClose ]
  }

  /** The markup block of a field; it reads the field's contents, not its id. */
  function FieldBlock(f: FieldDraft): string
  {
    Concat(BlockPieces(f))
  }

  function FieldBlocks(fields: seq<FormField>): seq<string>
  {
    MapSeq(fields, (f: FormField) => FieldBlock(f.Content()))
  }

  /** `fields.map(...).join("")`. */
  function FormInputs(fields: seq<FormField>): string
  {
    Join(FieldBlocks(fields), "")
  }

  // ---------------------------------------------------------------------
  // The component scaffold (`component`) and the whole result

  const SubmitButton: string :=
    "<Button type=\"submit\" className=\"w-full\" color={\"primary\"} radius=\"sm\">Submit</Button>"

  const ResetButton: string :=
    "<Button type=\"reset\" className=\"w-full\" color={\"danger\"} radius={\"sm\"}>Reset</Button>"

  const TitleOpen: string := "<CardTitle>"

  const TitleClose: string := "</CardTitle>"

  /** The pieces of the component around its four interpolated sections:
      the state declarations, the handler, the title and the markup. */
  function ScaffoldPieces(state: string, handler: string, title: string, inputs: string): seq<string>
  {
    [ "\nexport default function GeneratedForm() {",
      state,
      handler,
      "\n\n  return (\n" +
      "    <Card className=\"w-full\">\n" +
      "      <CardHeader>\n" +
      "        ",
      TitleOpen,
      title,
      TitleClose,
      "\n        <CardDescription>Please fill out the form below.</CardDescription>\n" +
      "      </CardHeader>\n" +
      "      <form onSubmit={handleSubmit}>\n" +
      "        <CardContent className=\"space-y-4\">\n" +
      "          ",
      inputs,
      "\n        </CardContent>\n" +
      "        <CardFooter>\n" +
      "          <div className=\"w-full grid grid-cols-2 gap-2\">\n" +
      "            ",
      SubmitButton,
      "\n            ",
      ResetButton,
      "\n          </div>\n" +
      "        </CardFooter>\n" +
      "      </form>\n" +
      "    </Card>\n" +
      "  )\n" +
      "}" ]
  }

  function Scaffold(state: string, handler: string, title: string, inputs: string): string
  {
    Concat(ScaffoldPieces(state, handler, title, inputs))
  }

  function Component(fields: seq<FormField>, formTitle: string): string
  {
    Scaffold(FormFieldsSection(fields), HandleSubmit(fields), formTitle, FormInputs(fields))
  }

  /** `generateCode()`: the imports, a blank line, and the component. */
  function GenerateCode(fields: seq<FormField>, formTitle: string): string
  {
    Concat([Imports, "\n\n", Component(fields, formTitle)])
  }

  // ---------------------------------------------------------------------
  // Properties of the sections

  /** The state section is the concatenation, in field order, of one
      declaration per field: empty for no fields, exactly the declaration
      for one field, and distributing over appended fields. */
  lemma FormFieldsSectionEmpty()
    ensures FormFieldsSection([]) == ""
  {
  }

  lemma FormFieldsSectionSingle(f: FormField)
    ensures FormFieldsSection([f]) == StateDecl(f.name)
  {
  }

  lemma FormFieldsSectionAppend(a: seq<FormField>, b: seq<FormField>)
    ensures FormFieldsSection(a + b) == FormFieldsSection(a) + FormFieldsSection(b)
  {
    MapSeqAppend(a, b, (f: FormField) => StateDecl(f.name));
    JoinEmptyAppend(StateDecls(a), StateDecls(b));
  }

  /** The declaration of field `k` stands between those of the fields
      before it and those of the fields after it. */
  lemma FormFieldsSectionAt(fields: seq<FormField>, k: nat)
    requires k < |fields|
    ensures FormFieldsSection(fields) ==
            FormFieldsSection(fields[..k]) + StateDecl(fields[k].name) + FormFieldsSection(fields[k + 1..])
  {
    assert fields == fields[..k] + [fields[k]] + fields[k + 1..];
    FormFieldsSectionAppend(fields[..k] + [fields[k]], fields[k + 1..]);
    FormFieldsSectionAppend(fields[..k], [fields[k]]);
    FormFieldsSectionSingle(fields[k]);
  }

  /** The markup section is the concatenation, in field order, of one block
      per field. */
  lemma FormInputsEmpty()
    ensures FormInputs([]) == ""
  {
  }

  lemma FormInputsSingle(f: FormField)
    ensures FormInputs([f]) == FieldBlock(f.Content())
  {
  }

  lemma FormInputsAppend(a: seq<FormField>, b: seq<FormField>)
    ensures FormInputs(a + b) == FormInputs(a) + FormInputs(b)
  {
    MapSeqAppend(a, b, (f: FormField) => FieldBlock(f.Content()));
    JoinEmptyAppend(FieldBlocks(a), FieldBlocks(b));
  }

  lemma FormInputsAt(fields: seq<FormField>, k: nat)
    requires k < |fields|
    ensures FormInputs(fields) ==
            FormInputs(fields[..k]) + FieldBlock(fields[k].Content()) + FormInputs(fields[k + 1..])
  {
    assert fields == fields[..k] + [fields[k]] + fields[k + 1..];
    FormInputsAppend(fields[..k] + [fields[k]], fields[k + 1..]);
    FormInputsAppend(fields[..k], [fields[k]]);
    FormInputsSingle(fields[k]);
  }

  /** Every field's declaration and block occur in their sections. */
  lemma SectionsHoldField(fields: seq<FormField>, k: nat)
    requires k < |fields|
    ensures Contains(FormFieldsSection(fields), StateDecl(fields[k].name))
    ensures Contains(FormInputs(fields), FieldBlock(fields[k].Content()))
  {
    JoinContainsPart(StateDecls(fields), "", k);
    JoinContainsPart(FieldBlocks(fields), "", k);
  }

  /** The fields' contents, in order, without their ids. */
  function Contents(fields: seq<FormField>): seq<FieldDraft>
  {
    MapSeq(fields, (f: FormField) => f.Content())
  }

  /** The three sections depend on the fields' contents only. */
  lemma SectionsIgnoreIds(a: seq<FormField>, b: seq<FormField>)
    requires Contents(a) == Contents(b)
    ensures FormFieldsSection(a) == FormFieldsSection(b)
    ensures HandleSubmit(a) == HandleSubmit(b)
    ensures FormInputs(a) == FormInputs(b)
  {
    assert forall k :: 0 <= k < |a| ==> a[k].Content() == Contents(a)[k] == b[k].Content();
    assert Names(a) == Names(b);
    assert StateDecls(a) == StateDecls(b);
    assert FieldBlocks(a) == FieldBlocks(b);
  }

  /** The handler logs the names joined by ", ", in field order. */
  lemma LogStatementEmpty()
    ensures LogStatement([]) == "console.log({  })"
  {
    Concat3("console.log({ ", "", " })");
  }

  lemma LogStatementSingle(f: FormField)
    ensures LogStatement([f]) == "console.log({ " + f.name + " })"
  {
    assert Names([f]) == [f.name];
    Concat3("console.log({ ", f.name, " })");
  }

  lemma LoggedNamesSnoc(fields: seq<FormField>, f: FormField)
    requires |fields| > 0
    ensures Join(Names(fields + [f]), ", ") == Join(Names(fields), ", ") + ", " + f.name
  {
    MapSeqAppend(fields, [f], (g: FormField) => g.name);
    assert Names([f]) == [f.name];
    JoinSnoc(Names(fields), ", ", f.name);
  }

  lemma LogStatementTwo(f: FormField, g: FormField)
    ensures LogStatement([f, g]) == "console.log({ " + f.name + ", " + g.name + " })"
  {
    assert [f, g] == [f] + [g];
    LoggedNamesSnoc([f], g);
    assert Names([f]) == [f.name];
    Concat3("console.log({ ", f.name + ", " + g.name, " })");
  }

  /** The handler holds the log statement. */
  lemma HandleSubmitLogs(fields: seq<FormField>)
    ensures Contains(HandleSubmit(fields), LogStatement(fields))
  {
    ConcatPart([HandlerOpen, LogStatement(fields), "\n  }"], 1);
  }

  // ---------------------------------------------------------------------
  // Properties of the blocks

  /** Each block opens the shared row and then the control chosen by the
      field's type. */
  lemma FieldBlockOpening(f: FieldDraft)
    ensures StartsWith(FieldBlock(f), BlockOpen + ControlIndent(f.fieldType) + ControlTag(f.fieldType))
  {
    ConcatPrefix3(BlockPieces(f));
  }

  /** The four control tags differ, so the four kinds of block differ. */
  lemma ControlTagsDiffer(t: FieldType, u: FieldType)
    requires ControlTag(t) == ControlTag(u)
    ensures (t == Select) == (u == Select)
    ensures (t == Textarea) == (u == Textarea)
    ensures (t == Date) == (u == Date)
  {
  }

  /** A block other than select, textarea and date is an input whose type
      attribute is the type string verbatim. */
  lemma InputBlockType(f: FieldDraft)
    requires f.fieldType != Select && f.fieldType != Textarea && f.fieldType != Date
    ensures ControlTag(f.fieldType) == "<Input"
    ensures Contains(FieldBlock(f), "type=\"" + ToString(f.fieldType) + "\"")
  {
    var c := InputPieces(f);
    assert ControlPieces(f) == c;
    var p := BlockPieces(f);
    assert p[4] == c[1] && p[5] == c[2] && p[6] == c[3];
    ConcatRun3(p, 4);
  }

  /** A select block holds the items of its options. */
  lemma SelectBlockItems(f: FieldDraft)
    requires f.fieldType == Select
    ensures Contains(FieldBlock(f), SelectItems(f.options))
  {
    var c := SelectPieces(f);
    assert ControlPieces(f) == c;
    var p := BlockPieces(f);
    assert p[12] == c[9];
    ConcatPart(p, 12);
  }

  /** Every option of a select field appears in its block as an item, with
      the option as key, value and text. */
  lemma SelectBlockOption(f: FieldDraft, k: nat)
    requires f.fieldType == Select && k < |f.options|
    ensures Contains(FieldBlock(f), SelectItem(f.options[k]))
  {
    SelectBlockItems(f);
    JoinContainsPart(MapSeq(f.options, SelectItem), ItemSeparator, k);
    ContainsTrans(FieldBlock(f), SelectItems(f.options), SelectItem(f.options[k]));
  }

  /** `text` binds the control to field `f`: it shows the field's value
      (`value={name}`), calls the field's setter on change, and carries the
      label and the placeholder verbatim. */
  ghost predicate BindsField(text: string, f: FieldDraft)
  {
    && Contains(text, "value={" + f.name + "}")
    && Contains(text, SetterName(f.name) + "(")
    && Contains(text, "label=\"" + f.labelText + "\"")
    && Contains(text, "placeholder=\"" + f.placeholder + "\"")
  }

  /** The binding of a control holds in every text that contains it. */
  lemma BindsFieldWithin(outer: string, inner: string, f: FieldDraft)
    requires Contains(outer, inner) && BindsField(inner, f)
    ensures BindsField(outer, f)
  {
    ContainsTrans(outer, inner, "value={" + f.name + "}");
    ContainsTrans(outer, inner, SetterName(f.name) + "(");
    ContainsTrans(outer, inner, "label=\"" + f.labelText + "\"");
    ContainsTrans(outer, inner, "placeholder=\"" + f.placeholder + "\"");
  }

  /** A piece list binds field `f` when the name, the setter, the label and
      the placeholder each stand between the matching attribute texts, at
      the positions given. */
  lemma PiecesBind(p: seq<string>, f: FieldDraft, atValue: nat, atSetter: nat, atLabel: nat, atPlaceholder: nat)
    requires atValue + 3 <= |p| && atSetter + 3 <= |p| && atLabel + 3 <= |p| && atPlaceholder + 3 <= |p|
    requires EndsWith(p[atValue], ValueOpen) && p[atValue + 1] == f.name && StartsWith(p[atValue + 2], BraceClose)
    requires p[atSetter + 1] == SetterName(f.name) && StartsWith(p[atSetter + 2], CallOpen)
    requires EndsWith(p[atLabel], LabelOpen) && p[atLabel + 1] == f.labelText && StartsWith(p[atLabel + 2], Quote)
    requires EndsWith(p[atPlaceholder], PlaceholderOpen) && p[atPlaceholder + 1] == f.placeholder && StartsWith(p[atPlaceholder + 2], Quote)
    ensures BindsField(Concat(p), f)
  {
    ConcatWindow(p, atValue, ValueOpen, BraceClose);
    ConcatWindow(p, atSetter, "", CallOpen);
    assert "" + SetterName(f.name) + CallOpen == SetterName(f.name) + "(";
    ConcatWindow(p, atLabel, LabelOpen, Quote);
    ConcatWindow(p, atPlaceholder, PlaceholderOpen, Quote);
  }

  lemma SelectPiecesBind(f: FieldDraft)
    ensures BindsField(Concat(SelectPieces(f)), f)
  {
    PiecesBind(SelectPieces(f), f, 2, 6, 0, 4);
  }

  lemma TextareaPiecesBind(f: FieldDraft)
    ensures BindsField(Concat(TextareaPieces(f)), f)
  {
    PiecesBind(TextareaPieces(f), f, 2, 4, 6, 8);
  }

  lemma DatePiecesBind(f: FieldDraft)
    ensures BindsField(Concat(DatePieces(f)), f)
  {
    PiecesBind(DatePieces(f), f, 2, 8, 4, 6);
  }

  lemma InputPiecesBind(f: FieldDraft)
    ensures BindsField(Concat(InputPieces(f)), f)
  {
    PiecesBind(InputPieces(f), f, 6, 8, 10, 12);
  }

  /** Each of the four controls binds itself to the field. */
  lemma ControlPiecesBind(f: FieldDraft)
    ensures BindsField(Concat(ControlPieces(f)), f)
  {
    match f.fieldType {
      case Select => SelectPiecesBind(f);
      case Textarea => TextareaPiecesBind(f);
      case Date => DatePiecesBind(f);
      case _ => InputPiecesBind(f);
    }
  }

  /** Every kind of block binds its control to the field: its value, its
      setter, its label and its placeholder. */
  lemma FieldBlockBinds(f: FieldDraft)
    ensures BindsField(FieldBlock(f), f)
  {
    var opening, c := [BlockOpen, ControlIndent(f.fieldType), ControlTag(f.fieldType)], ControlPieces(f);
    ControlPiecesBind(f);
    ConcatAppend(opening, c);
    ContainsMiddle(Concat(opening), Concat(c), "");
    assert Concat(opening) + Concat(c) + "" == FieldBlock(f);
    BindsFieldWithin(FieldBlock(f), Concat(c), f);
  }

  /** The items are one per option, in option order. */
  lemma SelectItemsSnoc(options: seq<string>, o: string)
    requires |options| > 0
    ensures SelectItems(options + [o]) == SelectItems(options) + ItemSeparator + SelectItem(o)
  {
    MapSeqAppend(options, [o], SelectItem);
    assert MapSeq([o], SelectItem) == [SelectItem(o)];
    JoinSnoc(MapSeq(options, SelectItem), ItemSeparator, SelectItem(o));
  }

  lemma SelectItemsABC()
    ensures SelectItems(["A", "B", "C"]) ==
            SelectItem("A") + ItemSeparator + SelectItem("B") + ItemSeparator + SelectItem("C")
  {
    assert MapSeq(["A"], SelectItem) == [SelectItem("A")];
    assert ["A"] + ["B"] == ["A", "B"];
    SelectItemsSnoc(["A"], "B");
    assert ["A", "B"] + ["C"] == ["A", "B", "C"];
    SelectItemsSnoc(["A", "B"], "C");
  }

  /** An item uses the option verbatim as its key, its value and its text. */
  lemma SelectItemText(o: string)
    ensures SelectItem(o) == "<SelectItem key=\"" + o + "\" value=\"" + o + "\">" + o + "</SelectItem>"
  {
    Concat7("<SelectItem key=\"", o, "\" value=\"", o, "\">", o, "</SelectItem>");
  }

  /** A declaration pairs the name with its setter. */
  lemma StateDeclText(name: string)
    ensures StateDecl(name) == "\n          const [" + name + ", " + SetterName(name) + "] = useState('')"
  {
    Concat5("\n          const [", name, ", ", SetterName(name), "] = useState('')");
  }

  // ---------------------------------------------------------------------
  // Properties of the scaffold

  /** The scaffold holds each of its sections, the title between the
      CardTitle tags, and both buttons. */
  lemma ScaffoldHolds(state: string, handler: string, title: string, inputs: string)
    ensures Contains(Scaffold(state, handler, title, inputs), state)
    ensures Contains(Scaffold(state, handler, title, inputs), handler)
    ensures Contains(Scaffold(state, handler, title, inputs), TitleOpen + title + TitleClose)
    ensures Contains(Scaffold(state, handler, title, inputs), inputs)
    ensures Contains(Scaffold(state, handler, title, inputs), SubmitButton)
    ensures Contains(Scaffold(state, handler, title, inputs), ResetButton)
  {
    var p := ScaffoldPieces(state, handler, title, inputs);
    ConcatPart(p, 1);
    ConcatPart(p, 2);
    ConcatRun3(p, 4);
    ConcatPart(p, 8);
    ConcatPart(p, 10);
    ConcatPart(p, 12);
  }

  // ---------------------------------------------------------------------
  // Properties of the whole output

  /** The output is exactly the imports, a blank line, and the component. */
  lemma GenerateCodeShape(fields: seq<FormField>, formTitle: string)
    ensures GenerateCode(fields, formTitle) == Imports + "\n\n" + Component(fields, formTitle)
    ensures StartsWith(GenerateCode(fields, formTitle), Imports)
  {
    Concat3(Imports, "\n\n", Component(fields, formTitle));
  }

  /** What the component holds, the output holds. */
  lemma GenerateCodeHolds(fields: seq<FormField>, formTitle: string, u: string)
    requires Contains(Component(fields, formTitle), u)
    ensures Contains(GenerateCode(fields, formTitle), u)
  {
    ConcatLastHolds(Imports, "\n\n", Component(fields, formTitle), u);
  }

  /** The title stands verbatim between the CardTitle tags. */
  lemma GenerateCodeTitle(fields: seq<FormField>, formTitle: string)
    ensures Contains(GenerateCode(fields, formTitle), TitleOpen + formTitle + TitleClose)
  {
    ScaffoldHolds(FormFieldsSection(fields), HandleSubmit(fields), formTitle, FormInputs(fields));
    GenerateCodeHolds(fields, formTitle, TitleOpen + formTitle + TitleClose);
  }

  /** Submit and Reset buttons are always present, even with zero fields. */
  lemma GenerateCodeButtons(fields: seq<FormField>, formTitle: string)
    ensures Contains(GenerateCode(fields, formTitle), SubmitButton)
    ensures Contains(GenerateCode(fields, formTitle), ResetButton)
  {
    ScaffoldHolds(FormFieldsSection(fields), HandleSubmit(fields), formTitle, FormInputs(fields));
    GenerateCodeHolds(fields, formTitle, SubmitButton);
    GenerateCodeHolds(fields, formTitle, ResetButton);
  }

  /** The component holds the declaration pair and the block of every field. */
  lemma ComponentHoldsField(fields: seq<FormField>, formTitle: string, k: nat)
    requires k < |fields|
    ensures Contains(Component(fields, formTitle), StateDecl(fields[k].name))
    ensures Contains(Component(fields, formTitle), FieldBlock(fields[k].Content()))
  {
    var state, inputs := FormFieldsSection(fields), FormInputs(fields);
    ScaffoldHolds(state, HandleSubmit(fields), formTitle, inputs);
    SectionsHoldField(fields, k);
    ContainsTrans(Component(fields, formTitle), state, StateDecl(fields[k].name));
    ContainsTrans(Component(fields, formTitle), inputs, FieldBlock(fields[k].Content()));
  }

  /** The output holds the declaration pair of every field. */
  lemma GenerateCodeDeclares(fields: seq<FormField>, formTitle: string, k: nat)
    requires k < |fields|
    ensures Contains(GenerateCode(fields, formTitle), StateDecl(fields[k].name))
  {
    ComponentHoldsField(fields, formTitle, k);
    GenerateCodeHolds(fields, formTitle, StateDecl(fields[k].name));
  }

  /** The output holds the markup block of every field. */
  lemma GenerateCodeRenders(fields: seq<FormField>, formTitle: string, k: nat)
    requires k < |fields|
    ensures Contains(GenerateCode(fields, formTitle), FieldBlock(fields[k].Content()))
  {
    ComponentHoldsField(fields, formTitle, k);
    GenerateCodeHolds(fields, formTitle, FieldBlock(fields[k].Content()));
  }

  /** In the output every field's control is bound to that field. */
  lemma GenerateCodeBinds(fields: seq<FormField>, formTitle: string, k: nat)
    requires k < |fields|
    ensures BindsField(GenerateCode(fields, formTitle), fields[k].Content())
  {
    GenerateCodeRenders(fields, formTitle, k);
    FieldBlockBinds(fields[k].Content());
    BindsFieldWithin(GenerateCode(fields, formTitle), FieldBlock(fields[k].Content()), fields[k].Content());
  }

  /** The component holds the log statement naming every field. */
  lemma ComponentLogs(fields: seq<FormField>, formTitle: string)
    ensures Contains(Component(fields, formTitle), LogStatement(fields))
  {
    var handler := HandleSubmit(fields);
    ScaffoldHolds(FormFieldsSection(fields), handler, formTitle, FormInputs(fields));
    HandleSubmitLogs(fields);
    ContainsTrans(Component(fields, formTitle), handler, LogStatement(fields));
  }

  /** The output holds the log statement naming every field. */
  lemma GenerateCodeLogs(fields: seq<FormField>, formTitle: string)
    ensures Contains(GenerateCode(fields, formTitle), LogStatement(fields))
  {
    ComponentLogs(fields, formTitle);
    GenerateCodeHolds(fields, formTitle, LogStatement(fields));
  }

  /** With no fields the component has no declaration and no block: its
      state and markup sections are empty and it logs an empty object. */
  lemma GenerateCodeEmpty(formTitle: string)
    ensures Component([], formTitle) == Scaffold("", HandleSubmit([]), formTitle, "")
    ensures Contains(GenerateCode([], formTitle), "console.log({  })")
  {
    FormFieldsSectionEmpty();
    FormInputsEmpty();
    LogStatementEmpty();
    GenerateCodeLogs([], formTitle);
  }

  /** The output is a function of the fields' contents and the title: ids
      play no part. */
  lemma GenerateCodeIgnoresIds(a: seq<FormField>, b: seq<FormField>, formTitle: string)
    requires Contents(a) == Contents(b)
    ensures GenerateCode(a, formTitle) == GenerateCode(b, formTitle)
  {
    SectionsIgnoreIds(a, b);
  }

  /** A field of an input type carries its type string in the output. */
  lemma GenerateCodeInputType(fields: seq<FormField>, formTitle: string, k: nat)
    requires k < |fields|
    requires fields[k].fieldType != Select && fields[k].fieldType != Textarea && fields[k].fieldType != Date
    ensures Contains(GenerateCode(fields, formTitle), "type=\"" + ToString(fields[k].fieldType) + "\"")
  {
    var block := FieldBlock(fields[k].Content());
    GenerateCodeRenders(fields, formTitle, k);
    InputBlockType(fields[k].Content());
    ContainsTrans(GenerateCode(fields, formTitle), block, "type=\"" + ToString(fields[k].fieldType) + "\"");
  }

  /** The declaration for "email" is the pair email/setEmail. */
  lemma StateDeclEmail()
    ensures StateDecl("email") == "\n          const [" + "email" + ", " + "setEmail" + "] = useState('')"
  {
    SetterNameEmail();
    StateDeclText("email");
  }

  /** A field named "email" yields the declaration pair for "email"
      (email/setEmail, by StateDeclEmail). */
  lemma GenerateCodeEmailDeclares(f: FormField, formTitle: string)
    requires f.name == "email"
    ensures Contains(GenerateCode([f], formTitle), StateDecl("email"))
  {
    GenerateCodeDeclares([f], formTitle, 0);
  }

  /** A field of type Email yields an input block of type "email". */
  lemma GenerateCodeEmailInput(f: FormField, formTitle: string)
    requires f.fieldType == Email
    ensures Contains(GenerateCode([f], formTitle), "type=\"" + ToString(Email) + "\"")
    ensures ToString(Email) == "email"
  {
    GenerateCodeInputType([f], formTitle, 0);
  }

  /** A select field with options A, B, C yields exactly three items, in
      that order, in the output. */
  lemma GenerateCodeSelectABC(id: string, name: string, labelText: string, placeholder: string, formTitle: string)
    ensures var f := FormField(id, name, Select, labelText, placeholder, ["A", "B", "C"]);
            Contains(GenerateCode([f], formTitle),
              SelectItem("A") + ItemSeparator + SelectItem("B") + ItemSeparator + SelectItem("C"))
  {
    var f := FormField(id, name, Select, labelText, placeholder, ["A", "B", "C"]);
    var block := FieldBlock(f.Content());
    SelectItemsABC();
    SelectBlockItems(f.Content());
    GenerateCodeRenders([f], formTitle, 0);
    ContainsTrans(GenerateCode([f], formTitle), block, SelectItems(["A", "B", "C"]));
  }
}
