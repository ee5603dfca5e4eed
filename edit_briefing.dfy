/** The page that edits a briefing (`EditBriefing.tsx`): it loads the
    briefing named in the route into a draft and saves the draft back with
    the same checks as the creation page. */
module EditBriefing {
  import opened Types
  import FormBuilder
  import BriefingContext
  import opened CreateBriefing

  /** The draft's description for a loaded briefing (`description || ''`). */
  function DescriptionText(description: Option<string>): string
  {
    if description.Some? then description.value else ""
  }

  /** The page's state before the load effect: an empty draft. */
  method EmptyDraft() returns (d: FormBuilder.Draft)
    ensures fresh(d)
    ensures d.title == "" && d.description == "" && d.fields == []
  {
    d := new FormBuilder.Draft("", "", []);
  }

  /** The load effect: a route without an id leaves the draft alone; a known
      id copies the briefing into the draft; an unknown id asks for a redirect
      to the dashboard. */
  method LoadDraft(d: FormBuilder.Draft, store: BriefingContext.BriefingStore, routeId: Option<string>)
    returns (redirect: bool)
    modifies d
    ensures routeId.None? ==>
      !redirect && d.title == old(d.title) && d.description == old(d.description) && d.fields == old(d.fields)
    ensures routeId.Some? && store.GetBriefing(routeId.value).None? ==>
      redirect && d.title == old(d.title) && d.description == old(d.description) && d.fields == old(d.fields)
    ensures routeId.Some? && store.GetBriefing(routeId.value).Some? ==>
      var b := store.GetBriefing(routeId.value).value;
      !redirect && d.title == b.title && d.description == DescriptionText(b.description) && d.fields == b.fields
  {
    redirect := false;
    if routeId.Some? {
      var found := BriefingContext.Find(store.briefings, routeId.value);
      if found.Some? {
        d.title := found.value.title;
        d.description := DescriptionText(found.value.description);
        d.fields := found.value.fields;
      } else {
        redirect := true;
      }
    }
  }

  /** The update `handleUpdateBriefing` sends: title, description and fields. */
  function DraftPatch(title: string, description: string, fields: seq<BriefingField>): BriefingContext.BriefingPatch
  {
    BriefingContext.BriefingPatch(Some(title), Some(description), Some(fields))
  }

  /** `handleUpdateBriefing`: without a route id it does nothing; a draft
      failing the checks is rejected; otherwise every briefing with the id is
      updated and the page moves to its view. */
  method HandleUpdateBriefing(d: FormBuilder.Draft, store: BriefingContext.BriefingStore, routeId: Option<string>, now: Timestamp)
    returns (outcome: SaveOutcome)
    modifies store`briefings, store`storage
    ensures routeId.None? ==>
      outcome == Ignored && store.briefings == old(store.briefings) && store.storage == old(store.storage)
    ensures routeId.Some? && CheckDraft(d.title, d.fields).Some? ==>
      outcome == Rejected(CheckDraft(d.title, d.fields).value)
      && store.briefings == old(store.briefings) && store.storage == old(store.storage)
    ensures routeId.Some? && CheckDraft(d.title, d.fields).None? ==>
      && outcome == Navigated(ViewBriefingPath + routeId.value)
      && store.briefings == BriefingContext.UpdateMatching(old(store.briefings), routeId.value,
           DraftPatch(d.title, d.description, d.fields), now)
      && store.storage == BriefingContext.Persisted(old(store.storage), store.user, store.briefings)
  {
    if routeId.None? {
      return Ignored;
    }
    var rejection := CheckDraft(d.title, d.fields);
    if rejection.Some? {
      return Rejected(rejection.value);
    }
    store.UpdateBriefing(routeId.value, DraftPatch(d.title, d.description, d.fields), now);
    outcome := Navigated(ViewBriefingPath + routeId.value);
  }

  /** Loading a briefing and saving it straight back keeps what the form's
      respondents depend on: its id, owner, creation time, responses, title
      and fields. An absent description comes back as the empty text, and
      the update time is new; nothing else changes. */
  lemma SaveLoadedKeepsBriefing(bs: seq<Briefing>, id: string, now: Timestamp)
    requires BriefingContext.Find(bs, id).Some?
    ensures var b := BriefingContext.Find(bs, id).value;
      var after := BriefingContext.UpdateMatching(bs, id, DraftPatch(b.title, DescriptionText(b.description), b.fields), now);
      var b' := BriefingContext.Find(after, id).value;
      BriefingContext.Find(after, id).Some?
      && b'.id == b.id && b'.createdBy == b.createdBy && b'.createdAt == b.createdAt
      && b'.responses == b.responses && b'.fields == b.fields && b'.title == b.title
      && b'.description == Some(DescriptionText(b.description))
      && (b.description.Some? ==> b'.description == b.description)
      && b'.updatedAt == Some(now)
      && b' == b.(description := Some(DescriptionText(b.description)), updatedAt := Some(now))
  {
    var b := BriefingContext.Find(bs, id).value;
    BriefingContext.FindAfterUpdate(bs, id, DraftPatch(b.title, DescriptionText(b.description), b.fields), now);
  }
}
