# Form builder core in Dafny

This project models the core of a small form builder written in React and
TypeScript. A user builds a list of form fields; the application shows a
live preview of the form and generates the source text of a form
component. The model covers four pieces:

- **Field collection** (`hooks/useFormFields.ts`), module `FieldModel`. An
  ordered sequence of field records. `addField` appends a record under a new
  id and `removeField` filters one id out. Both are pure functions on
  `seq<FormField>`. The record's `type` and `label` are called `fieldType`
  and `labelText` here, because `type` and `label` are Dafny keywords.
- **Code generator** (the `generateCode` closure of
  `components/GeneratedCode.tsx`), module `CodeGen`, with text helpers in
  module `Strings`. It is a deterministic template. Each section is a
  `Concat` of a piece list or a `Join` of mapped parts, exactly like the
  source's template literals, `map` and `join`. The literal text is kept
  character for character, including:
  - the trailing spaces on the select lines;
  - the `<Datepicker` tag, which does not match the imported `DatePicker`;
  - the call to `parseDate`, which is never imported;
  - the unescaped labels, placeholders and options.
- **Draft editor** (`components/AddFieldForm.tsx`), module `DraftEditor`.
  Class `DraftForm` holds the draft field and the pending option string.
  Its methods are the form's event handlers:
  - the component edits;
  - the guarded `addOption`;
  - remove-option-by-index;
  - the submit, which emits the draft and resets the form.

  The source's `handleSubmit` has no guard of its own. The name and label
  inputs are marked `required` (`components/AddFieldForm.tsx:42` and `:67`),
  so the browser refuses to submit while either is empty. `DraftForm.Submit`
  folds that browser check in: it emits nothing and changes nothing then.

  The pure step functions `AddOptionTo` and `RemoveAt` specify the
  methods. The class invariant is that the options hold no duplicate.
- **Preview** (`components/PreviewModal.tsx`), module `Preview`. Class
  `PreviewSession` holds the `formData` map, keyed by field name. Each
  change event is a one-key update, and submit reads the map without
  changing it. `RenderField` is the pure four-way dispatch on the field
  type; it produces an abstract control.

Field types are the seven values the add-field form's type selector
offers (`components/AddFieldForm.tsx:51-57`). The TypeScript union in
`hooks/useFormFields.ts:3` leaves out `date`. Still, the generator and the
preview both handle `date`, and the form puts it in the record through a
type cast, so the model includes it. `options` is a `seq<string>`, because
the add-field form always supplies a list (empty for non-select types).

## Model

| member | source | states |
|---|---|---|
| FieldModel.ToString | components/AddFieldForm.tsx:51-57 | the type string of each tag, as the type selector offers it and the generator prints it at `components/GeneratedCode.tsx:89`; characterised by `ParseToString` and `ToStringInjective` |
| FieldModel.Parse | components/AddFieldForm.tsx:46-57 | a type string read back from the type selector names the tag whose string it is |
| FieldModel.ParseToString | components/AddFieldForm.tsx:51-57 | every tag's string reads back as that tag |
| FieldModel.ToStringInjective | components/AddFieldForm.tsx:51-57 | distinct tags have distinct type strings |
| FieldModel.WithId | hooks/useFormFields.ts:18 | `{ ...field, id }` has the supplied id and exactly the draft's name, type, label, placeholder and options |
| FieldModel.AddField | hooks/useFormFields.ts:17-19 | one more element; all old elements unchanged in their positions; the new last element has the supplied id and the draft's content |
| FieldModel.AddFieldIds | hooks/useFormFields.ts:18 | the id set grows by exactly the supplied id |
| FieldModel.AddFieldKeepsIdsDistinct | hooks/useFormFields.ts:18 | distinct ids plus a fresh id give distinct ids after adding |
| FieldModel.RemoveField | hooks/useFormFields.ts:21-23 | the collection never grows |
| FieldModel.RemoveFieldMembers | hooks/useFormFields.ts:22 | a record survives iff it was present and its id differs from the removed one |
| FieldModel.RemoveFieldGone | hooks/useFormFields.ts:22 | the removed id is absent afterwards |
| FieldModel.RemoveFieldAbsent | hooks/useFormFields.ts:22 | removing an absent id leaves the collection unchanged |
| FieldModel.RemoveFieldShrinks | hooks/useFormFields.ts:22 | removing a present id makes the collection strictly shorter |
| FieldModel.RemoveFieldAppend | hooks/useFormFields.ts:22 | filtering distributes over concatenation, so survivors keep their relative order |
| FieldModel.RemoveFieldSingleton | hooks/useFormFields.ts:22 | a one-record collection keeps its record exactly when the id differs |
| FieldModel.RemoveFieldIdempotent | hooks/useFormFields.ts:22 | removing the same id twice equals removing it once |
| FieldModel.RemoveFieldCount | hooks/useFormFields.ts:22 | with distinct ids, removing a present id removes exactly one record |
| FieldModel.RemoveFieldKeepsIdsDistinct | hooks/useFormFields.ts:22 | removal keeps ids distinct |
| FieldModel.AddTwoRemoveFirst | hooks/useFormFields.ts:17-23 | adding two records and removing the first by id leaves the old collection followed by the second record, id and content unchanged |
| FieldModel.AddTwoRemoveFirstFromEmpty | hooks/useFormFields.ts:15-23 | from the initial empty collection, add two then remove the first gives exactly the second |
| Strings.Join | components/GeneratedCode.tsx:32 | JavaScript's `join`: no parts give "", one part gives itself; characterised by `JoinEmptyAppend`, `JoinSnoc` and `JoinContainsPart` |
| Strings.MapSeq | components/GeneratedCode.tsx:27-32 | JavaScript's `map`: one result per element, in order; `MapSeqAppend` distributes it over concatenation |
| CodeGen.GenerateCode | components/GeneratedCode.tsx:128-130 | `setCode(imports + blank line + component)`; characterised by `GenerateCodeShape` and the `GenerateCode…` lemmas below |
| CodeGen.Imports | components/GeneratedCode.tsx:19-25 | the import preamble, character for character; `GenerateCodeShape` puts it at the start of the output |
| CodeGen.Component | components/GeneratedCode.tsx:104-126 | the component template around the state, handler, title and markup; characterised by `ScaffoldHolds`, `ComponentHoldsField` and `ComponentLogs` |
| CodeGen.StateDecl | components/GeneratedCode.tsx:29-30 | one `useState` pair; characterised by `StateDeclText` |
| CodeGen.FormFieldsSection | components/GeneratedCode.tsx:27-32 | `formFields`; characterised by `FormFieldsSectionEmpty`, `…Single`, `…Append` and `…At` |
| CodeGen.LogStatement | components/GeneratedCode.tsx:38 | the logged object of all names; characterised by `LogStatementEmpty`, `…Single`, `…Two` and `LoggedNamesSnoc` |
| CodeGen.HandleSubmit | components/GeneratedCode.tsx:34-39 | `handleSubmit`; characterised by `HandleSubmitLogs` |
| CodeGen.FormInputs | components/GeneratedCode.tsx:41-102 | `formInputs`; characterised by `FormInputsEmpty`, `…Single`, `…Append` and `…At` |
| CodeGen.FieldBlock | components/GeneratedCode.tsx:43-99 | one field's markup by the four-way dispatch; characterised by `FieldBlockOpening`, `FieldBlockBinds`, `InputBlockType` and `SelectBlockItems` |
| CodeGen.SelectItem | components/GeneratedCode.tsx:54 | one choice item; characterised by `SelectItemText` |
| CodeGen.SelectItems | components/GeneratedCode.tsx:54 | the items joined by a newline and indentation; characterised by `SelectItemsSnoc` and `SelectBlockOption` |
| CodeGen.Capitalize | components/GeneratedCode.tsx:30 | the first character is upper-cased and the rest kept; the length is kept and the empty name stays empty |
| CodeGen.SetterName | components/GeneratedCode.tsx:30 | the setter is "set" followed by the capitalized name, three characters longer than the name |
| CodeGen.SetterNameRoundTrip | components/GeneratedCode.tsx:30 | for a name not starting with an upper-case letter, the setter name gives the name back |
| CodeGen.SetterNameInjective | components/GeneratedCode.tsx:30 | two such names with the same setter are equal |
| CodeGen.SetterNameCollision | components/GeneratedCode.tsx:30 | "email" and "Email" differ but both give "setEmail" |
| CodeGen.SetterNameEmail | components/GeneratedCode.tsx:30 | "email" gives "setEmail" |
| CodeGen.SetterNameFirstName | components/GeneratedCode.tsx:30 | "firstName" gives "setFirstName" |
| CodeGen.StateDeclText | components/GeneratedCode.tsx:29-30 | a declaration is `const [name, setter] = useState('')` after a newline and indentation |
| CodeGen.StateDeclEmail | components/GeneratedCode.tsx:29-30 | the declaration for "email" is the pair email/setEmail |
| CodeGen.FormFieldsSectionEmpty | components/GeneratedCode.tsx:27-32 | no fields give an empty state section |
| CodeGen.FormFieldsSectionSingle | components/GeneratedCode.tsx:27-32 | one field gives exactly its declaration |
| CodeGen.FormFieldsSectionAppend | components/GeneratedCode.tsx:27-32 | the section of appended field lists is the concatenation of their sections |
| CodeGen.FormFieldsSectionAt | components/GeneratedCode.tsx:27-32 | field k's declaration stands between the earlier fields' and the later fields' |
| CodeGen.LogStatementEmpty | components/GeneratedCode.tsx:38 | no fields log `console.log({  })` |
| CodeGen.LogStatementSingle | components/GeneratedCode.tsx:38 | one field logs `{ name }` |
| CodeGen.LoggedNamesSnoc | components/GeneratedCode.tsx:38 | appending a field appends ", " and its name to the logged list |
| CodeGen.LogStatementTwo | components/GeneratedCode.tsx:38 | two fields log `{ a, b }` in field order |
| CodeGen.HandleSubmitLogs | components/GeneratedCode.tsx:34-39 | the submit handler holds the log statement |
| CodeGen.FormInputsEmpty | components/GeneratedCode.tsx:41-102 | no fields give no markup |
| CodeGen.FormInputsSingle | components/GeneratedCode.tsx:41-102 | one field gives exactly its block |
| CodeGen.FormInputsAppend | components/GeneratedCode.tsx:41-102 | the markup of appended field lists is the concatenation of their markup |
| CodeGen.FormInputsAt | components/GeneratedCode.tsx:41-102 | field k's block stands between the earlier fields' and the later fields' |
| CodeGen.SectionsHoldField | components/GeneratedCode.tsx:27-102 | every field's declaration is in the state section and its block is in the markup section |
| CodeGen.SectionsIgnoreIds | components/GeneratedCode.tsx:27-102 | the state, handler and markup sections depend only on the fields' contents, not on their ids |
| CodeGen.FieldBlockOpening | components/GeneratedCode.tsx:43-99 | every block opens the grid row and then the control its type selects (`<Select`, `<Textarea`, `<Datepicker` or `<Input`) |
| CodeGen.ControlTagsDiffer | components/GeneratedCode.tsx:43-99 | the four kinds of block open with different tags |
| CodeGen.InputBlockType | components/GeneratedCode.tsx:85-99 | a non-select, non-textarea, non-date field gives an `<Input` block with `type="…"` equal to the type string |
| CodeGen.SelectBlockItems | components/GeneratedCode.tsx:43-56 | a select block holds the items of its options |
| CodeGen.SelectBlockOption | components/GeneratedCode.tsx:54 | every option appears in the select block as an item |
| CodeGen.SelectItemText | components/GeneratedCode.tsx:54 | an item uses the option verbatim as key, value and text |
| CodeGen.SelectPiecesBind | components/GeneratedCode.tsx:49-52 | the select control has `label="…"`, `value={name}`, `placeholder="…"` and an `onSelectionChange` calling the field's setter |
| CodeGen.TextareaPiecesBind | components/GeneratedCode.tsx:61-67 | the textarea has `value={name}`, an `onChange` calling the field's setter, `label="…"` and `placeholder="…"` |
| CodeGen.DatePiecesBind | components/GeneratedCode.tsx:75-81 | the date picker has `value={name}`, `label="…"`, `placeholder="…"` and an `onChange` calling the field's setter |
| CodeGen.InputPiecesBind | components/GeneratedCode.tsx:89-96 | the input has `value={name}`, an `onChange` calling the field's setter, `label="…"` and `placeholder="…"` |
| CodeGen.ControlPiecesBind | components/GeneratedCode.tsx:43-99 | whichever control the type selects binds the field's value, setter, label and placeholder |
| CodeGen.FieldBlockBinds | components/GeneratedCode.tsx:43-99 | every block, of every kind, binds its control to its own field's name, setter, label and placeholder |
| CodeGen.SelectItemsSnoc | components/GeneratedCode.tsx:54 | appending an option appends the separator and its item, so items follow option order |
| CodeGen.SelectItemsABC | components/GeneratedCode.tsx:54 | options A, B, C give exactly three items, in that order |
| CodeGen.ScaffoldHolds | components/GeneratedCode.tsx:104-126 | the component text holds its state, handler and markup sections, the title between `<CardTitle>` tags, and both buttons |
| CodeGen.ComponentHoldsField | components/GeneratedCode.tsx:104-126 | the component holds every field's declaration and block |
| CodeGen.ComponentLogs | components/GeneratedCode.tsx:104-126 | the component holds the log statement of all names |
| CodeGen.GenerateCodeShape | components/GeneratedCode.tsx:128-130 | the output is exactly imports + blank line + component, and starts with the imports |
| CodeGen.GenerateCodeHolds | components/GeneratedCode.tsx:128-130 | whatever the component holds, the output holds |
| CodeGen.GenerateCodeTitle | components/GeneratedCode.tsx:110 | the title stands verbatim between `<CardTitle>` and `</CardTitle>` |
| CodeGen.GenerateCodeButtons | components/GeneratedCode.tsx:119-120 | the Submit and Reset buttons are always present, also with zero fields |
| CodeGen.GenerateCodeDeclares | components/GeneratedCode.tsx:27-32 | the output holds every field's declaration pair |
| CodeGen.GenerateCodeRenders | components/GeneratedCode.tsx:41-102 | the output holds every field's block |
| CodeGen.GenerateCodeBinds | components/GeneratedCode.tsx:41-102 | in the output every field's control shows `value={name}`, calls the field's setter, and carries its label and placeholder verbatim |
| CodeGen.GenerateCodeLogs | components/GeneratedCode.tsx:34-39 | the output holds the log statement of all names |
| CodeGen.GenerateCodeEmpty | components/GeneratedCode.tsx:27-39 | with no fields, the component is the scaffold with empty state and markup sections, and the output logs an empty object |
| CodeGen.GenerateCodeIgnoresIds | components/GeneratedCode.tsx:17-134 | two field lists with the same contents in the same order give the same output: the ids play no part |
| CodeGen.GenerateCodeInputType | components/GeneratedCode.tsx:89 | the output holds `type="…"` for every field of an input type |
| CodeGen.GenerateCodeEmailDeclares | components/GeneratedCode.tsx:27-32 | a field named "email" yields the email/setEmail declaration |
| CodeGen.GenerateCodeEmailInput | components/GeneratedCode.tsx:85-99 | a field of type email yields `type="email"` |
| CodeGen.GenerateCodeSelectABC | components/GeneratedCode.tsx:43-56 | a select field with options A, B, C yields their three items in order |
| DraftEditor.InitialDraft | components/AddFieldForm.tsx:15-21 | the blank draft of type text, also the state `handleSubmit` resets to at line 27; `InitialDraftBlocked` shows it cannot be submitted |
| DraftEditor.Accepts | components/AddFieldForm.tsx:32 | the guard of `addOption`; `AddOptionTo` changes the options exactly when it holds |
| DraftEditor.Submittable | components/AddFieldForm.tsx:42-67 | the browser's check of the `required` name (line 42) and label (line 67) inputs; `DraftForm.Submit` emits exactly when it holds |
| DraftEditor.AddOptionTo | components/AddFieldForm.tsx:31-36 | the options either stay as they were or gain the pending option at the end; they change iff the option is non-empty and new; the membership is exactly that; no duplicate is introduced |
| DraftEditor.AddOptionToIdempotent | components/AddFieldForm.tsx:32 | offering the same option twice adds it once |
| DraftEditor.RemoveAt | components/AddFieldForm.tsx:100 | an index in range deletes exactly that element and keeps the rest in order; an index out of range changes nothing; no duplicate is introduced |
| DraftEditor.RemoveAtShifts | components/AddFieldForm.tsx:100 | after removing index i, earlier elements stay put and later ones move down by one |
| DraftEditor.EditsKeepNoDuplicates | components/AddFieldForm.tsx:32-33 | no run of offers and removals introduces a duplicate option |
| DraftEditor.EditsOnlyAddOffered | components/AddFieldForm.tsx:32-33 | every option after a run of edits was there before or was offered non-empty along the way |
| DraftEditor.InitialDraftBlocked | components/AddFieldForm.tsx:15-21 | the blank draft fails the required-input check |
| DraftEditor.DraftForm.constructor | components/AddFieldForm.tsx:15-22 | the initial state is the blank draft of type text and an empty pending option |
| DraftEditor.DraftForm.SetName | components/AddFieldForm.tsx:42 | only the name changes |
| DraftEditor.DraftForm.SetType | components/AddFieldForm.tsx:46 | only the type changes; the options are kept |
| DraftEditor.DraftForm.SetLabel | components/AddFieldForm.tsx:66 | only the label changes |
| DraftEditor.DraftForm.SetPlaceholder | components/AddFieldForm.tsx:75 | only the placeholder changes |
| DraftEditor.DraftForm.SetOption | components/AddFieldForm.tsx:85 | only the pending option changes |
| DraftEditor.DraftForm.AddOption | components/AddFieldForm.tsx:31-36 | an accepted option is appended and the pending option cleared; an empty or present option leaves all state unchanged; no duplicate appears |
| DraftEditor.DraftForm.RemoveOption | components/AddFieldForm.tsx:100 | the options lose exactly the element at the index; everything else is unchanged |
| DraftEditor.DraftForm.Submit | components/AddFieldForm.tsx:24-67 | `handleSubmit` (lines 24-29) behind the browser's check of the `required` name and label inputs (lines 42 and 67): with name and label filled in, the current draft is emitted and the draft and pending option reset; otherwise nothing is emitted and nothing changes |
| DraftEditor.OfferAB | components/AddFieldForm.tsx:31-36 | on an empty option list, offering "A", "A" again, "" and "B" leaves exactly the options A, B and an empty pending option; nothing else changes |
| DraftEditor.SelectDraftSession | components/AddFieldForm.tsx:24-100 | a session blocks an early submit, turns away a repeated and an empty option, and emits the select field with options A, B, then resets |
| Preview.ValueOf | components/PreviewModal.tsx:33 | the shown value is the stored one when the store holds the key itself and "" otherwise; it is non-empty iff a non-empty value is stored |
| Preview.RenderField | components/PreviewModal.tsx:26-87 | select gives a select offering exactly the options; textarea a textarea; date an input of type "date" without placeholder; every other type an input whose type reads back as the field's type; key, label and value come from the field and the store |
| Preview.Render | components/PreviewModal.tsx:104 | exactly one control per field, in field order |
| Preview.ChangeShows | components/PreviewModal.tsx:34 | after a change, a control with that name shows the new value |
| Preview.ChangeLeavesOthers | components/PreviewModal.tsx:34 | a change under one name leaves every control of another name unchanged |
| Preview.RenderChange | components/PreviewModal.tsx:34-104 | a change re-renders exactly the controls of fields of that name with the new value; all other controls are as before |
| Preview.SelectABCChoices | components/PreviewModal.tsx:40-44 | a select field with options A, B, C offers those three in order |
| Preview.PreviewSession.constructor | components/PreviewModal.tsx:17 | the store starts empty |
| Preview.PreviewSession.Change | components/PreviewModal.tsx:34 | the store gets the value under the field's name; every other key is unchanged |
| Preview.PreviewSession.Controls | components/PreviewModal.tsx:104 | one control per field, keyed by the field's id and showing its displayed value |
| Preview.PreviewSession.Submit | components/PreviewModal.tsx:19-24 | submit reports the whole store and does not change it |
| Preview.EditThenSubmit | components/PreviewModal.tsx:17-34 | one edit then two submits report exactly that one key, nothing for other names, and the same snapshot twice |

## Left out

- Clipboard copy, the `isCopied` flag and its timer (`components/GeneratedCode.tsx:136-144`). These are asynchronous browser I/O and a timer.
- `Date.now()` as the id source (`hooks/useFormFields.ts:18`). It reads the clock, so the id is a parameter of `AddField`. Freshness is a precondition only of the lemmas that need it.
- `console.log` and `alert` in the preview's submit (`components/PreviewModal.tsx:21-23`). They are output; `PreviewSession.Submit` returns what would be logged.
- JSX layout, the Dialog and Card chrome, and React's `useState`/`useEffect` scheduling. Each handler is one atomic step on the current state, so stale closures and batched updates are not modelled.
- The preview renders an abstract `Control`, not markup. Class names, the label element and the dialog are not modelled.
- The preview store is not cleared when the dialog is reopened. `formData` lives in a component that stays mounted, so following the code, the model keeps the store for the whole session.
- `components/FormBuilder.tsx` and `components/FieldList.tsx` are not part of this model. They are wiring and display: a show-code toggle, a default title and a list view.
- CodeGen.SetterName: models `toUpperCase` on ASCII letters only, because full Unicode case mapping (which can change the string's length) is outside the model.
- Autocomplete is imported by the generated code but has no branch and is not a selectable type, so it has no model. Only one generator dialect exists, and the model has exactly that one.
- The add-field form shows its option controls only for select fields (`components/AddFieldForm.tsx:78`). `DraftForm.AddOption` and `DraftForm.RemoveOption` are callable in any state. Hiding the controls does not change what they do.
- `options` is always a list. The source's `options?` could be absent; the generator would then print `undefined` and the preview would offer nothing. The add-field form never produces that case.
- Preview.ValueOf: the store is modelled with its own keys only. The source's store is a plain object, and `formData[name] || ""` also finds keys inherited from `Object.prototype`: a field named `__proto__` or `constructor` shows that inherited value before any edit. Those inherited keys are not modelled.
- Field names are not checked to be distinct or to be valid identifiers. Two fields with one name share one preview value. `CodeGen.SetterNameCollision` shows that case-only differences also collide in the generated setters.
