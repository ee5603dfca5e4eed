/** The page that creates a briefing (`CreateBriefing.tsx`): a draft seeded
    with one field, the checks a draft must pass before it is saved, and the
    save itself. */
module CreateBriefing {
  import opened Types
  import opened Seqs
  import opened Text
  import FormBuilder
  import BriefingContext

  const ViewBriefingPath: string := "/view-briefing/"
  const InitialLabel: string := "Nome do Projeto"
  const InitialPlaceholder: string := "Digite o nome do seu projeto"
  /** The page's own toast when the store throws; the store's message is only logged. */
  const CreateFailedMessage: string := "Ocorreu um erro ao criar o briefing"

  /** Why a draft is not saved, in the order the checks run. */
  datatype SaveRejection = MissingTitle | NoFields | UnlabelledField

  /** The toast shown for each rejection. */
  function RejectionMessage(r: SaveRejection): string
  {
    match r
    case MissingTitle => "Por favor, adicione um título para o briefing"
    case NoFields => "Adicione pelo menos um campo ao formulário"
    case UnlabelledField => "Todos os campos devem ter um título"
  }

  /** A field whose label trims to ''. */
  predicate IsUnlabelled(f: BriefingField)
  {
    IsBlank(f.labelText)
  }

  /** The validation chain of the save handlers: title, then field count,
      then labels; the first failing check decides the rejection. */
  function CheckDraft(title: string, fields: seq<BriefingField>): Option<SaveRejection>
  {
    if IsBlank(title) then Some(MissingTitle)
    else if |fields| == 0 then Some(NoFields)
    else if |Filter(fields, (f: BriefingField) => IsUnlabelled(f))| > 0 then Some(UnlabelledField)
    else None
  }

  /** Each rejection happens exactly when its check is the first to fail, and
      a draft passes exactly when it has a title and fields that all have labels. */
  lemma CheckDraftChain(title: string, fields: seq<BriefingField>)
    ensures var r := CheckDraft(title, fields);
      && (r == Some(MissingTitle) <==> IsBlank(title))
      && (r == Some(NoFields) <==> !IsBlank(title) && |fields| == 0)
      && (r == Some(UnlabelledField) <==>
            !IsBlank(title) && exists k :: 0 <= k < |fields| && IsUnlabelled(fields[k]))
      && (r.None? <==>
            !IsBlank(title) && |fields| > 0 && forall k :: 0 <= k < |fields| ==> !IsUnlabelled(fields[k]))
  {
    if !IsBlank(title) && |fields| > 0 {
      SomeUnlabelled(fields);
    }
  }

  /** `invalidFields.length > 0` exactly when some field is unlabelled. */
  lemma SomeUnlabelled(fields: seq<BriefingField>)
    ensures |Filter(fields, (f: BriefingField) => IsUnlabelled(f))| > 0 <==>
      exists k :: 0 <= k < |fields| && IsUnlabelled(fields[k])
  {
    var invalidFields := Filter(fields, (f: BriefingField) => IsUnlabelled(f));
    if |invalidFields| > 0 {
      assert invalidFields[0] in fields;
    }
  }

  /** The field a new draft starts with; `stamp` stands for `Date.now()`. */
  function InitialField(stamp: string): BriefingField
  {
    BriefingField(FormBuilder.FieldIdPrefix + stamp, InitialLabel, Text, None, true,
                  Some(InitialPlaceholder), None, None)
  }

  /** The page's initial state: no title, no description, the seeded field. */
  method NewDraft(stamp: string) returns (d: FormBuilder.Draft)
    ensures fresh(d)
    ensures d.title == "" && d.description == "" && d.fields == [InitialField(stamp)]
  {
    d := new FormBuilder.Draft("", "", [InitialField(stamp)]);
  }

  /** A new draft is rejected for its title alone: once any non-blank title is
      typed, the seeded field passes the label check. */
  lemma InitialDraftNeedsOnlyTitle(stamp: string, title: string)
    ensures CheckDraft("", [InitialField(stamp)]) == Some(MissingTitle)
    ensures !IsBlank(title) ==> CheckDraft(title, [InitialField(stamp)]).None?
  {
    assert InitialLabel[0] == 'N';
    assert !IsBlank(InitialLabel);
    CheckDraftChain(title, [InitialField(stamp)]);
  }

  /** What a save handler ends in. */
  datatype SaveOutcome =
    | Ignored                        // no briefing id in the route
    | Rejected(reason: SaveRejection)
    | Failed(message: string)        // the store threw; the toast the page shows
    | Navigated(path: string)

  /** `handleCreateBriefing`: a draft failing the checks is rejected and the
      store is left alone; without a signed-in user the store throws, the
      page shows its own generic error and nothing changes; otherwise the briefing is created (the description is
      always passed, possibly empty) and the page moves to its view. */
  method HandleCreateBriefing(d: FormBuilder.Draft, store: BriefingContext.BriefingStore, stamp: string, now: Timestamp)
    returns (outcome: SaveOutcome)
    modifies store`briefings, store`storage
    ensures match CheckDraft(old(d.title), old(d.fields))
      case Some(reason) =>
        outcome == Rejected(reason) && store.briefings == old(store.briefings) && store.storage == old(store.storage)
      case None =>
        if store.user.None? then
          outcome == Failed(CreateFailedMessage)
          && store.briefings == old(store.briefings) && store.storage == old(store.storage)
        else
          var b := BriefingContext.NewBriefing(old(d.title), Some(old(d.description)), old(d.fields), store.user.value, stamp, now);
          && outcome == Navigated(ViewBriefingPath + b.id)
          && store.briefings == old(store.briefings) + [b]
          && store.storage == BriefingContext.Persisted(old(store.storage), store.user, store.briefings)
  {
    var title, description, fields := d.title, d.description, d.fields;
    var rejection := CheckDraft(title, fields);
    if rejection.Some? {
      return Rejected(rejection.value);
    }
    var created := store.CreateBriefing(title, Some(description), fields, stamp, now);
    match created
    case Err(_) => outcome := Failed(CreateFailedMessage);
    case Ok(b) => outcome := Navigated(ViewBriefingPath + b.id);
  }
}
