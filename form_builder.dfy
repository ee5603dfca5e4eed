/** The form builder (`FormBuilder.tsx`): add, update, remove and move fields
    of a draft schema. Each handler computes the new field list and hands it
    to `setFields`; the draft itself (title, description, fields) is the state
    of the page that hosts the builder. */
module FormBuilder {
  import opened Types
  import opened Seqs
  import BriefingFormField

  const FieldIdPrefix: string := "field-"

  /** The field `addField` creates; `stamp` stands for `Date.now()`. */
  function NewField(stamp: string): BriefingField
  {
    BriefingField(FieldIdPrefix + stamp, "", Text, None, false, None, None, None)
  }

  /** `addField`: exactly one new field, at the end: unlabelled, of type text,
      optional; the existing fields are unchanged. */
  function FieldsAfterAdd(fields: seq<BriefingField>, stamp: string): (r: seq<BriefingField>)
    ensures |r| == |fields| + 1 && r[..|fields|] == fields
    ensures var f := r[|fields|];
      f.id == FieldIdPrefix + stamp && f.labelText == "" && f.fieldType == Text
      && !f.required && f.options.None?
  {
    fields + [NewField(stamp)]
  }

  /** `updateField` at a rendered index: only that position changes. */
  function FieldsAfterUpdate(fields: seq<BriefingField>, index: nat, updated: BriefingField): (r: seq<BriefingField>)
    requires index < |fields|
    ensures |r| == |fields| && r[index] == updated
    ensures forall k :: 0 <= k < |fields| && k != index ==> r[k] == fields[k]
  {
    fields[index := updated]
  }

  /** `removeField`: the list without position `index`, or unchanged when
      `index` is not a position. */
  function FieldsAfterRemove(fields: seq<BriefingField>, index: int): (r: seq<BriefingField>)
    ensures 0 <= index < |fields| ==>
      && |r| == |fields| - 1
      && (forall k :: 0 <= k < index ==> r[k] == fields[k])
      && (forall k :: index <= k < |r| ==> r[k] == fields[k + 1])
    ensures !(0 <= index < |fields|) ==> r == fields
  {
    RemoveIndex(fields, index)
  }

  /** `moveField`: `splice(from, 1)` followed by `splice(to, 0, moved)`. */
  function FieldsAfterMove(fields: seq<BriefingField>, from: nat, to: nat): (r: seq<BriefingField>)
    requires from < |fields| && to < |fields|
  {
    InsertAt(RemoveAt(fields, from), to, fields[from])
  }

  /** Moving a field is a permutation that puts the moved field at `to` and
      keeps the relative order of all the others; moving a field onto its own
      position changes nothing. */
  lemma MoveFieldPermutes(fields: seq<BriefingField>, from: nat, to: nat)
    requires from < |fields| && to < |fields|
    ensures var r := FieldsAfterMove(fields, from, to);
      && |r| == |fields|
      && multiset(r) == multiset(fields)
      && r[to] == fields[from]
      && RemoveAt(r, to) == RemoveAt(fields, from)
    ensures from == to ==> FieldsAfterMove(fields, from, to) == fields
  {
    RemoveInserted(RemoveAt(fields, from), to, fields[from]);
    if from == to {
      InsertRemoved(fields, from);
    }
  }

  /** The field ids, in display order. */
  function Ids(fields: seq<BriefingField>): (ids: seq<string>)
    ensures |ids| == |fields| && forall k :: 0 <= k < |fields| ==> ids[k] == fields[k].id
  {
    seq(|fields|, k requires 0 <= k < |fields| => fields[k].id)
  }

  /** Moving a field keeps the multiset of field ids. */
  lemma MoveFieldKeepsIds(fields: seq<BriefingField>, from: nat, to: nat)
    requires from < |fields| && to < |fields|
    ensures multiset(Ids(FieldsAfterMove(fields, from, to))) == multiset(Ids(fields))
  {
    var ids := Ids(fields);
    var removed := RemoveAt(fields, from);
    var r := InsertAt(removed, to, fields[from]);
    var removedIds := RemoveAt(ids, from);
    assert Ids(removed) == removedIds by {
      forall k | 0 <= k < |removed| ensures Ids(removed)[k] == removedIds[k] {
        if k < from { assert removed[k] == fields[k]; } else { assert removed[k] == fields[k + 1]; }
      }
    }
    assert Ids(r) == InsertAt(removedIds, to, ids[from]) by {
      forall k | 0 <= k < |r| ensures Ids(r)[k] == InsertAt(removedIds, to, ids[from])[k] {
        if k < to { assert r[k] == removed[k]; } else if k > to { assert r[k] == removed[k - 1]; }
      }
    }
    assert multiset(InsertAt(removedIds, to, ids[from])) == multiset(removedIds) + multiset{ids[from]};
    assert multiset(removedIds) + multiset{ids[from]} == multiset(ids);
  }

  /** All fields of the list satisfy the options invariant. */
  predicate AllOptionsWellFormed(fields: seq<BriefingField>)
  {
    forall k :: 0 <= k < |fields| ==> BriefingFormField.OptionsWellFormed(fields[k])
  }

  /** Every builder operation keeps the options invariant of the whole list. */
  lemma BuilderPreservesOptions(fields: seq<BriefingField>, stamp: string, index: int, updated: BriefingField, from: nat, to: nat)
    requires AllOptionsWellFormed(fields)
    ensures AllOptionsWellFormed(FieldsAfterAdd(fields, stamp))
    ensures AllOptionsWellFormed(FieldsAfterRemove(fields, index))
    ensures 0 <= index < |fields| && BriefingFormField.OptionsWellFormed(updated) ==>
      AllOptionsWellFormed(FieldsAfterUpdate(fields, index, updated))
    ensures from < |fields| && to < |fields| ==> AllOptionsWellFormed(FieldsAfterMove(fields, from, to))
  {
    if from < |fields| && to < |fields| {
      var r := FieldsAfterMove(fields, from, to);
      forall k | 0 <= k < |r| ensures BriefingFormField.OptionsWellFormed(r[k]) {
        if k < to {
          if k < from { assert r[k] == fields[k]; } else { assert r[k] == fields[k + 1]; }
        } else if k > to {
          if k - 1 < from { assert r[k] == fields[k - 1]; } else { assert r[k] == fields[k]; }
        }
      }
    }
  }

  /** The draft a builder edits: the state of the page that hosts it. */
  class Draft {
    var title: string
    var description: string
    var fields: seq<BriefingField>

    constructor (title: string, description: string, fields: seq<BriefingField>)
      ensures this.title == title && this.description == description && this.fields == fields
    {
      this.title := title;
      this.description := description;
      this.fields := fields;
    }

    method SetTitle(title: string)
      modifies this`title
      ensures this.title == title
    {
      this.title := title;
    }

    method SetDescription(description: string)
      modifies this`description
      ensures this.description == description
    {
      this.description := description;
    }

    /** `addField` followed by `setFields`. */
    method AddField(stamp: string)
      modifies this`fields
      ensures fields == FieldsAfterAdd(old(fields), stamp)
    {
      fields := fields + [NewField(stamp)];
    }

    /** `updateField`: assigns into a copy of the list, then `setFields`. */
    method UpdateField(index: nat, updated: BriefingField)
      requires index < |fields|
      modifies this`fields
      ensures fields == FieldsAfterUpdate(old(fields), index, updated)
    {
      var newFields := fields;
      newFields := newFields[index := updated];
      fields := newFields;
    }

    /** `removeField` followed by `setFields`. */
    method RemoveField(index: int)
      modifies this`fields
      ensures fields == FieldsAfterRemove(old(fields), index)
    {
      fields := RemoveIndex(fields, index);
    }

    /** `moveField`: two splices on a copy of the list, then `setFields`. */
    method MoveField(from: nat, to: nat)
      requires from < |fields| && to < |fields|
      modifies this`fields
      ensures fields == FieldsAfterMove(old(fields), from, to)
    {
      var newFields := fields;
      var moved := newFields[from];
      newFields := RemoveAt(newFields, from);
      newFields := InsertAt(newFields, to, moved);
      fields := newFields;
    }
  }
}
