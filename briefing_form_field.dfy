/** The editor of one field of the schema (`BriefingFormField.tsx`). Every
    handler builds the updated field that it hands to `onChange`; the only
    state of its own is whether the dropdown options are shown. */
module BriefingFormField {
  import opened Types
  import opened Seqs

  /** The schema invariant for options: a dropdown always has options,
      options, when present, are never empty, and only a dropdown has them. */
  predicate OptionsWellFormed(f: BriefingField)
  {
    && (f.fieldType == Dropdown ==> f.options.Some?)
    && (f.options.Some? ==> |f.options.value| >= 1)
    && (f.options.Some? ==> f.fieldType == Dropdown)
  }

  /** `handleTypeChange`: switching to a dropdown keeps the existing options
      (an existing array, even an empty one, is truthy) or seeds `['']`;
      switching to any other type drops the options. */
  function ChangeType(f: BriefingField, t: FieldType): (r: BriefingField)
    ensures r.fieldType == t
    ensures t == Dropdown && f.options.Some? ==> r.options == f.options
    ensures t == Dropdown && f.options.None? ==> r.options == Some([""])
    ensures t != Dropdown ==> r.options == None
    ensures r.(fieldType := f.fieldType, options := f.options) == f
  {
    var options := if t == Dropdown then (if f.options.Some? then f.options else Some([""])) else None;
    f.(fieldType := t, options := options)
  }

  /** `addOption`: one empty option at the end of the current (or of no) options. */
  function AddOption(f: BriefingField): (r: BriefingField)
    ensures r.options.Some?
    ensures f.options.None? ==> r.options.value == [""]
    ensures f.options.Some? ==> r.options.value == f.options.value + [""]
    ensures r.(options := f.options) == f
  {
    var current := if f.options.Some? then f.options.value else [];
    f.(options := Some(current + [""]))
  }

  /** The option indexes the editor renders an input for. */
  predicate IsOptionIndex(f: BriefingField, index: nat)
  {
    f.options.Some? ==> index < |f.options.value|
  }

  /** `updateOption`: replaces the option at `index`; without options it does nothing. */
  function UpdateOption(f: BriefingField, index: nat, value: string): (r: BriefingField)
    requires IsOptionIndex(f, index)
    ensures f.options.None? ==> r == f
    ensures f.options.Some? ==>
      && r.options.Some?
      && |r.options.value| == |f.options.value|
      && r.options.value[index] == value
      && (forall k :: 0 <= k < |f.options.value| && k != index ==> r.options.value[k] == f.options.value[k])
    ensures r.(options := f.options) == f
  {
    if f.options.Some? then
      var newOptions := f.options.value[index := value];
      f.(options := Some(newOptions))
    else
      f
  }

  /** `removeOption`: with at least two options, drops the one at `index`;
      with one option or none it changes nothing, so an option list never
      becomes empty through it. */
  function RemoveOption(f: BriefingField, index: int): (r: BriefingField)
    ensures f.options.None? ==> r == f
    ensures f.options.Some? && |f.options.value| <= 1 ==> r == f
    ensures f.options.Some? && |f.options.value| > 1 && 0 <= index < |f.options.value| ==>
      r.options == Some(RemoveAt(f.options.value, index))
    ensures f.options.Some? && !(0 <= index < |f.options.value|) ==> r == f
    ensures f.options.Some? ==> r.options.Some? && |r.options.value| >= |f.options.value| - 1
    ensures f.options.Some? && |f.options.value| >= 1 ==> |r.options.value| >= 1
    ensures r.(options := f.options) == f
  {
    if f.options.Some? && |f.options.value| > 1 then
      f.(options := Some(RemoveIndex(f.options.value, index)))
    else
      f
  }

  /** The four single-property inputs of the editor. */
  function SetLabel(f: BriefingField, text: string): BriefingField { f.(labelText := text) }
  function SetRequired(f: BriefingField, required: bool): BriefingField { f.(required := required) }
  function SetPlaceholder(f: BriefingField, placeholder: string): BriefingField { f.(placeholder := Some(placeholder)) }
  function SetTip(f: BriefingField, tip: string): BriefingField { f.(tip := Some(tip)) }

  /** Each single-property input changes that property and nothing else. */
  lemma SinglePropertyEdits(f: BriefingField, s: string, b: bool)
    ensures SetLabel(f, s).labelText == s && SetLabel(f, s).(labelText := f.labelText) == f
    ensures SetRequired(f, b).required == b && SetRequired(f, b).(required := f.required) == f
    ensures SetPlaceholder(f, s).placeholder == Some(s)
    ensures SetPlaceholder(f, s).(placeholder := f.placeholder) == f
    ensures SetTip(f, s).tip == Some(s) && SetTip(f, s).(tip := f.tip) == f
  {
  }

  /** One interaction with the field editor. */
  datatype FieldEdit =
    | ChangeTypeTo(t: FieldType)
    | AddOptionEdit
    | UpdateOptionAt(index: nat, value: string)
    | RemoveOptionAt(position: int)
    | LabelEdit(text: string)
    | RequiredEdit(required: bool)
    | PlaceholderEdit(placeholder: string)
    | TipEdit(tip: string)

  /** The option controls are rendered only while `showOptions` holds, which
      the editor keeps equal to "the field is a dropdown" (see `FieldEditor`),
      and an option input only for an existing option. */
  predicate Applicable(f: BriefingField, e: FieldEdit)
  {
    && (e.AddOptionEdit? || e.UpdateOptionAt? || e.RemoveOptionAt? ==> f.fieldType == Dropdown)
    && (e.UpdateOptionAt? ==> IsOptionIndex(f, e.index))
  }

  function ApplyEdit(f: BriefingField, e: FieldEdit): BriefingField
    requires Applicable(f, e)
  {
    match e
    case ChangeTypeTo(t) => ChangeType(f, t)
    case AddOptionEdit => AddOption(f)
    case UpdateOptionAt(i, v) => UpdateOption(f, i, v)
    case RemoveOptionAt(i) => RemoveOption(f, i)
    case LabelEdit(s) => SetLabel(f, s)
    case RequiredEdit(b) => SetRequired(f, b)
    case PlaceholderEdit(s) => SetPlaceholder(f, s)
    case TipEdit(s) => SetTip(f, s)
  }

  predicate AllApplicable(f: BriefingField, edits: seq<FieldEdit>)
    decreases |edits|
  {
    edits == [] || (Applicable(f, edits[0]) && AllApplicable(ApplyEdit(f, edits[0]), edits[1..]))
  }

  function ApplyEdits(f: BriefingField, edits: seq<FieldEdit>): BriefingField
    requires AllApplicable(f, edits)
    decreases |edits|
  {
    if edits == [] then f else ApplyEdits(ApplyEdit(f, edits[0]), edits[1..])
  }

  /** Every single edit keeps the options invariant. */
  lemma EditPreservesOptions(f: BriefingField, e: FieldEdit)
    requires OptionsWellFormed(f) && Applicable(f, e)
    ensures OptionsWellFormed(ApplyEdit(f, e))
  {
  }

  /** Any sequence of edits keeps the options invariant: a dropdown never
      ends up without options, and no other type ever carries any. */
  lemma {:induction false} EditsPreserveOptions(f: BriefingField, edits: seq<FieldEdit>)
    requires OptionsWellFormed(f) && AllApplicable(f, edits)
    ensures OptionsWellFormed(ApplyEdits(f, edits))
    decreases |edits|
  {
    if edits != [] {
      EditPreservesOptions(f, edits[0]);
      EditsPreserveOptions(ApplyEdit(f, edits[0]), edits[1..]);
    }
  }

  /** The editor component: whether the options list is shown. */
  class FieldEditor {
    var showOptions: bool

    constructor (field: BriefingField)
      ensures showOptions == (field.fieldType == Dropdown)
    {
      showOptions := field.fieldType == Dropdown;
    }

    /** `handleTypeChange`: shows the options exactly for a dropdown and hands
        the re-typed field to `onChange`. */
    method HandleTypeChange(field: BriefingField, t: FieldType) returns (updated: BriefingField)
      modifies this
      ensures showOptions == (t == Dropdown)
      ensures updated == ChangeType(field, t)
    {
      showOptions := t == Dropdown;
      updated := ChangeType(field, t);
    }
  }
}
