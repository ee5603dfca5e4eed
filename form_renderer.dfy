/** The public form (`FormRenderer.tsx`): collects answers keyed by field id,
    validates them on submit, and hands valid answers to `onSubmit`. */
module FormRenderer {
  import opened Types
  import opened Text
  import Helpers

  const RequiredMessage: string := "Este campo é obrigatório"
  const InvalidEmailMessage: string := "Email inválido"
  /** The error key of the optional submitter e-mail. */
  const SubmittedByKey: string := "submittedBy"

  /** The answer of a field is missing or trims to ''. */
  predicate IsUnanswered(f: BriefingField, answers: map<string, string>)
  {
    f.id !in answers || IsBlank(answers[f.id])
  }

  /** The answer of an e-mail field is present, non-empty and not an address. */
  predicate HasInvalidEmail(f: BriefingField, answers: map<string, string>)
  {
    f.fieldType == Email && f.id in answers && answers[f.id] != "" && !Helpers.IsValidEmail(answers[f.id])
  }

  /** The message a field's answer earns on its own: a malformed e-mail takes
      precedence over a missing required answer. */
  function FieldError(f: BriefingField, answers: map<string, string>): Option<string>
  {
    if HasInvalidEmail(f, answers) then Some(InvalidEmailMessage)
    else if f.required && IsUnanswered(f, answers) then Some(RequiredMessage)
    else None
  }

  /** Records the verdict on one field in an error map. */
  function RecordField(errors: map<string, string>, f: BriefingField, answers: map<string, string>): map<string, string>
  {
    match FieldError(f, answers)
    case Some(message) => errors[f.id := message]
    case None => errors
  }

  /** The error map after checking `fields` in order, starting from no errors. */
  function FieldErrors(fields: seq<BriefingField>, answers: map<string, string>): map<string, string>
    decreases |fields|
  {
    if fields == [] then map[]
    else RecordField(FieldErrors(fields[..|fields| - 1], answers), fields[|fields| - 1], answers)
  }

  /** The error map `validateForm` computes: the field errors, plus an error
      for a non-empty submitter that is not an e-mail address. */
  function FormErrors(fields: seq<BriefingField>, answers: map<string, string>, submittedBy: string): map<string, string>
  {
    var errors := FieldErrors(fields, answers);
    if submittedBy != "" && !Helpers.IsValidEmail(submittedBy) then errors[SubmittedByKey := InvalidEmailMessage]
    else errors
  }

  /** A field id carries an error exactly when some field with that id fails. */
  lemma {:induction false} FieldErrorsKeys(fields: seq<BriefingField>, answers: map<string, string>, id: string)
    ensures id in FieldErrors(fields, answers) <==>
      exists i :: 0 <= i < |fields| && fields[i].id == id && FieldError(fields[i], answers).Some?
    decreases |fields|
  {
    if fields != [] {
      var init := fields[..|fields| - 1];
      FieldErrorsKeys(init, answers, id);
      assert forall i :: 0 <= i < |init| ==> init[i] == fields[i];
    }
  }

  /** Every recorded message is one of the two validation messages. */
  lemma {:induction false} FieldErrorsMessages(fields: seq<BriefingField>, answers: map<string, string>)
    ensures forall k :: k in FieldErrors(fields, answers) ==>
      FieldErrors(fields, answers)[k] in {RequiredMessage, InvalidEmailMessage}
    decreases |fields|
  {
    if fields != [] {
      FieldErrorsMessages(fields[..|fields| - 1], answers);
    }
  }

  /** With distinct field ids, each field's error entry is exactly its own verdict. */
  lemma {:induction false} FieldErrorsOfDistinct(fields: seq<BriefingField>, answers: map<string, string>, i: nat)
    requires i < |fields|
    requires forall j, k :: 0 <= j < k < |fields| ==> fields[j].id != fields[k].id
    ensures var errors := FieldErrors(fields, answers);
      match FieldError(fields[i], answers)
      case Some(message) => fields[i].id in errors && errors[fields[i].id] == message
      case None => fields[i].id !in errors
    decreases |fields|
  {
    var init := fields[..|fields| - 1];
    var last := fields[|fields| - 1];
    if i < |fields| - 1 {
      FieldErrorsOfDistinct(init, answers, i);
      assert init[i] == fields[i];
      assert last.id != fields[i].id;
    } else {
      FieldErrorsKeys(init, answers, last.id);
      assert forall j :: 0 <= j < |init| ==> init[j] == fields[j];
    }
  }

  /** Validation passes exactly when no field fails and the submitter is empty
      or an e-mail address. */
  lemma FormErrorsEmptyIff(fields: seq<BriefingField>, answers: map<string, string>, submittedBy: string)
    ensures FormErrors(fields, answers, submittedBy) == map[] <==>
      && (forall i :: 0 <= i < |fields| ==> FieldError(fields[i], answers).None?)
      && (submittedBy == "" || Helpers.IsValidEmail(submittedBy))
  {
    var errors := FieldErrors(fields, answers);
    var all := FormErrors(fields, answers, submittedBy);
    assert errors.Keys <= all.Keys;
    if submittedBy != "" && !Helpers.IsValidEmail(submittedBy) {
      assert SubmittedByKey in all;
    }
    if errors == map[] {
      forall i | 0 <= i < |fields| ensures FieldError(fields[i], answers).None? {
        FieldErrorsKeys(fields, answers, fields[i].id);
      }
    } else {
      var id :| id in errors;
      assert id in all;
      FieldErrorsKeys(fields, answers, id);
    }
  }

  /** A required field whose answer is missing or blank earns the required
      message, unless its non-empty answer is a malformed e-mail. */
  lemma RequiredUnansweredFails(f: BriefingField, answers: map<string, string>)
    requires f.required && IsUnanswered(f, answers)
    ensures FieldError(f, answers) == if HasInvalidEmail(f, answers) then Some(InvalidEmailMessage) else Some(RequiredMessage)
  {
  }

  /** A required e-mail field answered with whitespace only earns the e-mail
      message, not the required one. */
  lemma WhitespaceEmailIsInvalid(f: BriefingField, answers: map<string, string>)
    requires f.fieldType == Email && f.id in answers && answers[f.id] != ""
    requires forall i :: 0 <= i < |answers[f.id]| ==> IsWhitespace(answers[f.id][i])
    ensures IsUnanswered(f, answers)
    ensures FieldError(f, answers) == Some(InvalidEmailMessage)
  {
    var a := answers[f.id];
    if Helpers.IsValidEmail(a) {
      Helpers.ValidEmailShape(a);
    }
  }

  /** A non-empty submitter that is not an address is reported under its own
      key; an empty submitter never adds an error. */
  lemma SubmitterCheck(fields: seq<BriefingField>, answers: map<string, string>, submittedBy: string)
    ensures submittedBy == "" ==> FormErrors(fields, answers, submittedBy) == FieldErrors(fields, answers)
    ensures submittedBy != "" && !Helpers.IsValidEmail(submittedBy) ==>
      FormErrors(fields, answers, submittedBy)[SubmittedByKey] == InvalidEmailMessage
  {
  }

  /** The answers and submitter handed to `onSubmit`; an empty submitter
      is passed as `undefined`. */
  datatype Submission = Submission(answers: map<string, string>, submittedBy: Option<string>)

  /** The `forEach` callback of `validateForm`: the required check, then the
      e-mail check, which overwrites the required message. */
  method CheckField(errors: map<string, string>, field: BriefingField, answers: map<string, string>)
    returns (newErrors: map<string, string>)
    ensures newErrors == RecordField(errors, field, answers)
  {
    newErrors := errors;
    if field.required && (field.id !in answers || Trim(answers[field.id]) == "") {
      newErrors := newErrors[field.id := RequiredMessage];
    }
    if field.fieldType == Email && field.id in answers && answers[field.id] != ""
      && !Helpers.IsValidEmail(answers[field.id])
    {
      newErrors := newErrors[field.id := InvalidEmailMessage];
    }
  }

  class FormState {
    const briefing: Briefing
    var answers: map<string, string>
    var errors: map<string, string>
    var submittedBy: string

    /** Error messages are never empty, so a present entry is truthy. */
    ghost predicate Valid()
      reads this
    {
      forall k :: k in errors ==> errors[k] != ""
    }

    constructor (briefing: Briefing)
      ensures Valid()
      ensures this.briefing == briefing
      ensures answers == map[] && errors == map[] && submittedBy == ""
    {
      this.briefing := briefing;
      answers := map[];
      errors := map[];
      submittedBy := "";
    }

    /** `handleChange`: records the answer and clears that field's error only. */
    method HandleChange(fieldId: string, value: string)
      requires Valid()
      modifies this`answers, this`errors
      ensures Valid()
      ensures answers == old(answers)[fieldId := value]
      ensures errors == old(errors) - {fieldId}
    {
      answers := answers[fieldId := value];
      if fieldId in errors && errors[fieldId] != "" {
        var newErrors := errors;
        newErrors := newErrors - {fieldId};
        errors := newErrors;
      }
    }

    /** The submitter input's `onChange`. */
    method SetSubmittedBy(value: string)
      modifies this`submittedBy
      ensures submittedBy == value
    {
      submittedBy := value;
    }

    /** `validateForm`: replaces the whole error map and reports whether it is empty. */
    method ValidateForm() returns (ok: bool)
      modifies this`errors
      ensures Valid()
      ensures errors == FormErrors(briefing.fields, answers, submittedBy)
      ensures ok <==> errors == map[]
    {
      var fields := briefing.fields;
      var newErrors: map<string, string> := map[];
      var i := 0;
      while i < |fields|
        invariant 0 <= i <= |fields|
        invariant newErrors == FieldErrors(fields[..i], answers)
      {
        newErrors := CheckField(newErrors, fields[i], answers);
        assert fields[..i + 1][..i] == fields[..i];
        i := i + 1;
      }
      assert fields[..i] == fields;
      if submittedBy != "" && !Helpers.IsValidEmail(submittedBy) {
        newErrors := newErrors[SubmittedByKey := InvalidEmailMessage];
      }
      FieldErrorsMessages(fields, answers);
      errors := newErrors;
      ok := |newErrors.Keys| == 0;
      assert ok ==> newErrors.Keys == {};
    }

    /** `handleSubmit`: the submission reaches `onSubmit` only when validation passes. */
    method HandleSubmit() returns (submission: Option<Submission>)
      modifies this`errors
      ensures Valid()
      ensures errors == FormErrors(briefing.fields, answers, submittedBy)
      ensures submission.Some? <==> errors == map[]
      ensures submission.Some? ==>
        submission.value == Submission(answers, if submittedBy == "" then None else Some(submittedBy))
    {
      var ok := ValidateForm();
      if ok {
        submission := Some(Submission(answers, if submittedBy == "" then None else Some(submittedBy)));
      } else {
        submission := None;
      }
    }
  }

  /** "x@y.com" is an e-mail address. */
  lemma SampleAddressIsValid()
    ensures Helpers.IsValidEmail("x@y.com")
  {
    assert Helpers.IsEmailSplit("x@y.com", "x", "y", "com");
  }

  /** A one-field form whose required field is left blank is rejected, with
      the required message under that field's id. */
  lemma BlankRequiredFieldRejected(f: BriefingField, submittedBy: string)
    requires f.required && f.fieldType == Text
    ensures var errors := FormErrors([f], map[], submittedBy);
      errors != map[] && f.id in errors
      && (f.id != SubmittedByKey ==> errors[f.id] == RequiredMessage)
  {
    assert FieldErrors([f], map[]) == map[f.id := RequiredMessage] by {
      assert [f][..0] == [];
    }
  }

  /** The same form, answered with text that does not start with whitespace
      and with a valid submitter, is accepted. */
  lemma AnsweredFormAccepted(f: BriefingField, answer: string)
    requires f.required && f.fieldType == Text
    requires |answer| > 0 && !IsWhitespace(answer[0])
    ensures FormErrors([f], map[f.id := answer], "x@y.com") == map[]
  {
    var answers := map[f.id := answer];
    assert !IsBlank(answer);
    assert !HasInvalidEmail(f, answers) && !IsUnanswered(f, answers);
    assert FieldErrors([f], answers) == RecordField(FieldErrors([], answers), f, answers) by {
      assert [f][..0] == [];
    }
    SampleAddressIsValid();
  }

}
