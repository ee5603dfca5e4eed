/** The briefing store (`BriefingContext.tsx`): the in-memory list of the
    current user's briefings, its CRUD operations, append-only responses, and
    the two effects that load the list from, and save it to, local storage
    under a per-user key. */
module BriefingContext {
  import opened Types
  import opened Seqs

  const StorageKeyPrefix: string := "briefme_briefings_"
  const BriefingIdPrefix: string := "briefing_"
  const ResponseIdPrefix: string := "response_"
  const NoUserMessage: string := "User must be logged in to create a briefing"

  /** The local-storage key of a user's list. */
  function StorageKey(userId: string): string
  {
    StorageKeyPrefix + userId
  }

  /** What storage holds under a user's key: text that parses to a list, or text that does not. */
  datatype StoredBriefings = Parsable(briefings: seq<Briefing>) | Unparsable

  // ---------------------------------------------------------------------------
  // The list operations, as functions of the previous list
  // ---------------------------------------------------------------------------

  /** Position `k` holds the first briefing with id `id`. */
  predicate IsFirstWithId(bs: seq<Briefing>, id: string, k: int)
  {
    0 <= k < |bs| && bs[k].id == id && forall j :: 0 <= j < k ==> bs[j].id != id
  }

  /** `getBriefing` (`find`): the first briefing with that id, or none. */
  function Find(bs: seq<Briefing>, id: string): (r: Option<Briefing>)
    ensures r.None? <==> forall k :: 0 <= k < |bs| ==> bs[k].id != id
    ensures r.Some? ==> exists k :: IsFirstWithId(bs, id, k) && bs[k] == r.value
    decreases |bs|
  {
    if bs == [] then None
    else if bs[0].id == id then
      assert IsFirstWithId(bs, id, 0);
      Some(bs[0])
    else
      var r := Find(bs[1..], id);
      assert r.Some? ==> exists k :: IsFirstWithId(bs, id, k) && bs[k] == r.value by {
        if r.Some? {
          var k :| IsFirstWithId(bs[1..], id, k) && bs[1..][k] == r.value;
          assert IsFirstWithId(bs, id, k + 1);
        }
      }
      assert r.None? ==> forall k :: 0 <= k < |bs| ==> bs[k].id != id by {
        if r.None? {
          forall k | 0 <= k < |bs| ensures bs[k].id != id {
            if k > 0 { assert bs[k] == bs[1..][k - 1]; }
          }
        }
      }
      r
  }

  /** A briefing as `createBriefing` builds it. */
  function NewBriefing(title: string, description: Option<string>, fields: seq<BriefingField>,
                       owner: User, stamp: string, now: Timestamp): Briefing
  {
    Briefing(BriefingIdPrefix + stamp, title, description, fields, now, None, owner.id, [])
  }

  /** The properties `updateBriefing` may carry (`Partial<Briefing>`, as its callers use it). */
  datatype BriefingPatch = BriefingPatch(
    title: Option<string>,
    description: Option<string>,
    fields: Option<seq<BriefingField>>)

  /** `{ ...briefing, ...updates, updatedAt: new Date() }`. */
  function Merge(b: Briefing, patch: BriefingPatch, now: Timestamp): (r: Briefing)
    ensures r.id == b.id && r.createdAt == b.createdAt && r.createdBy == b.createdBy
    ensures r.responses == b.responses
    ensures r.updatedAt == Some(now)
    ensures r.title == (if patch.title.Some? then patch.title.value else b.title)
    ensures r.description == (if patch.description.Some? then patch.description else b.description)
    ensures r.fields == (if patch.fields.Some? then patch.fields.value else b.fields)
  {
    b.(title := if patch.title.Some? then patch.title.value else b.title,
       description := if patch.description.Some? then patch.description else b.description,
       fields := if patch.fields.Some? then patch.fields.value else b.fields,
       updatedAt := Some(now))
  }

  /** The `map` of `updateBriefing`: every briefing with the id is merged with
      the patch; every other briefing stays as it was. */
  function UpdateMatching(bs: seq<Briefing>, id: string, patch: BriefingPatch, now: Timestamp): (r: seq<Briefing>)
    ensures |r| == |bs|
    ensures forall k :: 0 <= k < |bs| && bs[k].id == id ==> r[k] == Merge(bs[k], patch, now)
    ensures forall k :: 0 <= k < |bs| && bs[k].id != id ==> r[k] == bs[k]
    decreases |bs|
  {
    if bs == [] then []
    else [if bs[0].id == id then Merge(bs[0], patch, now) else bs[0]] + UpdateMatching(bs[1..], id, patch, now)
  }

  /** The `filter` of `deleteBriefing`. */
  function RemoveBriefing(bs: seq<Briefing>, id: string): seq<Briefing>
  {
    Filter(bs, (b: Briefing) => b.id != id)
  }

  /** The response `submitResponse` builds. */
  function NewResponse(briefingId: string, answers: map<string, string>, submittedBy: Option<string>,
                       stamp: string, now: Timestamp): BriefingResponse
  {
    BriefingResponse(ResponseIdPrefix + stamp, briefingId, answers, submittedBy, now)
  }

  /** The `map` of `submitResponse`: the response is appended to the responses
      of every briefing with the id; nothing else changes. */
  function AppendResponse(bs: seq<Briefing>, id: string, response: BriefingResponse): (r: seq<Briefing>)
    ensures |r| == |bs|
    ensures forall k :: 0 <= k < |bs| && bs[k].id == id ==>
      r[k] == bs[k].(responses := bs[k].responses + [response])
    ensures forall k :: 0 <= k < |bs| && bs[k].id != id ==> r[k] == bs[k]
    decreases |bs|
  {
    if bs == [] then []
    else
      var head := if bs[0].id == id then bs[0].(responses := bs[0].responses + [response]) else bs[0];
      [head] + AppendResponse(bs[1..], id, response)
  }

  // ---------------------------------------------------------------------------
  // The two effects, as functions of the previous state
  // ---------------------------------------------------------------------------

  /** The save effect: the whole list is written under the user's key, but
      only when a user is present and the list is non-empty. */
  function Persisted(storage: map<string, StoredBriefings>, user: Option<User>, bs: seq<Briefing>): map<string, StoredBriefings>
  {
    if user.Some? && |bs| > 0 then storage[StorageKey(user.value.id) := Parsable(bs)] else storage
  }

  /** The list after the load effect: emptied without a user, replaced by a
      parsable stored list, and otherwise left as it was. */
  function LoadedBriefings(storage: map<string, StoredBriefings>, user: Option<User>, current: seq<Briefing>): seq<Briefing>
  {
    if user.None? then []
    else
      var key := StorageKey(user.value.id);
      if key in storage && storage[key].Parsable? then storage[key].briefings else current
  }

  /** Storage after the load effect: an unparsable list is removed. */
  function StorageAfterLoad(storage: map<string, StoredBriefings>, user: Option<User>): map<string, StoredBriefings>
  {
    if user.Some? && StorageKey(user.value.id) in storage && storage[StorageKey(user.value.id)].Unparsable?
    then storage - {StorageKey(user.value.id)}
    else storage
  }

  // ---------------------------------------------------------------------------
  // Properties
  // ---------------------------------------------------------------------------

  /** After `deleteBriefing`, no briefing has the id, every other briefing is
      kept in order, and `getBriefing` finds nothing. */
  lemma DeleteRemovesId(bs: seq<Briefing>, id: string)
    ensures var r := RemoveBriefing(bs, id);
      && Find(r, id).None?
      && IsSubsequence(r, bs)
      && (forall k :: 0 <= k < |bs| && bs[k].id != id ==> bs[k] in r)
  {
    var r := RemoveBriefing(bs, id);
    assert forall k :: 0 <= k < |r| ==> r[k].id != id;
  }

  /** After `updateBriefing`, `getBriefing` finds the merge of what it found before. */
  lemma {:induction false} FindAfterUpdate(bs: seq<Briefing>, id: string, patch: BriefingPatch, now: Timestamp)
    ensures Find(UpdateMatching(bs, id, patch, now), id) ==
      match Find(bs, id)
      case None => None
      case Some(b) => Some(Merge(b, patch, now))
    decreases |bs|
  {
    if bs != [] && bs[0].id != id {
      FindAfterUpdate(bs[1..], id, patch, now);
      assert UpdateMatching(bs, id, patch, now)[1..] == UpdateMatching(bs[1..], id, patch, now);
    }
  }

  /** After `submitResponse`, `getBriefing` finds what it found before, with
      the response appended. */
  lemma {:induction false} FindAfterSubmit(bs: seq<Briefing>, id: string, response: BriefingResponse)
    ensures Find(AppendResponse(bs, id, response), id) ==
      match Find(bs, id)
      case None => None
      case Some(b) => Some(b.(responses := b.responses + [response]))
    decreases |bs|
  {
    if bs != [] && bs[0].id != id {
      FindAfterSubmit(bs[1..], id, response);
      assert AppendResponse(bs, id, response)[1..] == AppendResponse(bs[1..], id, response);
    }
  }

  /** After `createBriefing` appends `b`, `getBriefing` finds it under its id
      unless an older briefing has the same id, and finds everything else as before. */
  lemma {:induction false} FindAfterAppend(bs: seq<Briefing>, b: Briefing, id: string)
    ensures Find(bs + [b], id) == if Find(bs, id).None? && b.id == id then Some(b) else Find(bs, id)
    decreases |bs|
  {
    if bs != [] {
      assert (bs + [b])[1..] == bs[1..] + [b];
      FindAfterAppend(bs[1..], b, id);
    }
  }

  /** An unknown id leaves the list unchanged under update and submit. */
  lemma UnknownIdChangesNothing(bs: seq<Briefing>, id: string, patch: BriefingPatch, now: Timestamp, response: BriefingResponse)
    requires forall k :: 0 <= k < |bs| ==> bs[k].id != id
    ensures UpdateMatching(bs, id, patch, now) == bs
    ensures AppendResponse(bs, id, response) == bs
  {
  }

  /** `submitResponse` adds exactly one response, last, to a matching briefing,
      and leaves its schema and identity alone. */
  lemma SubmitAppendsOne(bs: seq<Briefing>, id: string, response: BriefingResponse, k: nat)
    requires k < |bs| && bs[k].id == id
    ensures var b := AppendResponse(bs, id, response)[k];
      && |b.responses| == |bs[k].responses| + 1
      && b.responses[|b.responses| - 1] == response
      && b.responses[..|bs[k].responses|] == bs[k].responses
      && b.fields == bs[k].fields && b.id == bs[k].id && b.title == bs[k].title
  {
  }

  /** A saved non-empty list is what the next load for that user reads back. */
  lemma PersistThenLoad(storage: map<string, StoredBriefings>, user: User, bs: seq<Briefing>, current: seq<Briefing>)
    requires |bs| > 0
    ensures LoadedBriefings(Persisted(storage, Some(user), bs), Some(user), current) == bs
  {
  }

  /** An empty list is never saved: after the last briefing is deleted, the
      stored list keeps it and the next load brings it back. */
  lemma EmptyListLeavesStaleStorage(storage: map<string, StoredBriefings>, user: User, b: Briefing)
    requires StorageKey(user.id) in storage && storage[StorageKey(user.id)] == Parsable([b])
    ensures RemoveBriefing([b], b.id) == []
    ensures Persisted(storage, Some(user), RemoveBriefing([b], b.id)) == storage
    ensures LoadedBriefings(storage, Some(user), []) == [b]
  {
    assert RemoveBriefing([b], b.id) == [] by {
      assert Count([b], (x: Briefing) => x.id != b.id) == 0;
    }
  }

  /** Signing in a user whose stored list is parsable and non-empty loads that
      list and writes back exactly what storage already held. */
  lemma ReloadRewritesNothing(storage: map<string, StoredBriefings>, user: User, current: seq<Briefing>)
    requires StorageKey(user.id) in storage
    requires storage[StorageKey(user.id)].Parsable? && |storage[StorageKey(user.id)].briefings| > 0
    ensures LoadedBriefings(storage, Some(user), current) == storage[StorageKey(user.id)].briefings
    ensures Persisted(StorageAfterLoad(storage, Some(user)), Some(user), LoadedBriefings(storage, Some(user), current)) == storage
  {
  }

  /** Because a user without a stored list keeps the in-memory list, switching
      straight from one user to another with nothing stored saves the first
      user's briefings under the second user's key. */
  lemma UserSwitchCopiesList(storage: map<string, StoredBriefings>, next: User, current: seq<Briefing>)
    requires StorageKey(next.id) !in storage && |current| > 0
    ensures var bs := LoadedBriefings(storage, Some(next), current);
      bs == current
      && Persisted(StorageAfterLoad(storage, Some(next)), Some(next), bs)[StorageKey(next.id)] == Parsable(current)
  {
  }

  // ---------------------------------------------------------------------------
  // The provider
  // ---------------------------------------------------------------------------

  class BriefingStore {
    var user: Option<User>
    var briefings: seq<Briefing>
    var storage: map<string, StoredBriefings>
    var isLoading: bool

    /** The provider before its first effect: no user seen yet, an empty list. */
    constructor (storage: map<string, StoredBriefings>)
      ensures user.None? && briefings == [] && this.storage == storage && isLoading
    {
      user := None;
      briefings := [];
      this.storage := storage;
      isLoading := true;
    }

    /** `getBriefing`. */
    function GetBriefing(id: string): Option<Briefing>
      reads this
    {
      Find(briefings, id)
    }

    /** The save effect, run after every change of the list or the user. */
    method Persist()
      modifies this`storage
      ensures storage == Persisted(old(storage), user, briefings)
    {
      if user.Some? && |briefings| > 0 {
        storage := storage[StorageKey(user.value.id) := Parsable(briefings)];
      }
    }

    /** A change of the signed-in user: the load effect, then the save effect. */
    method OnUserChange(u: Option<User>)
      modifies this
      ensures user == u && !isLoading
      ensures briefings == LoadedBriefings(old(storage), u, old(briefings))
      ensures storage == Persisted(StorageAfterLoad(old(storage), u), u, briefings)
    {
      user := u;
      if u.Some? {
        var key := StorageKey(u.value.id);
        if key in storage {
          match storage[key]
          case Parsable(list) => briefings := list;
          case Unparsable => storage := storage - {key};
        }
      } else {
        briefings := [];
      }
      isLoading := false;
      Persist();
    }

    /** `createBriefing`: without a user it fails and changes nothing;
        otherwise the new briefing is appended and the list saved. */
    method CreateBriefing(title: string, description: Option<string>, fields: seq<BriefingField>,
                          stamp: string, now: Timestamp) returns (r: Result<Briefing>)
      modifies this`briefings, this`storage
      ensures old(user).None? ==> r == Err(NoUserMessage) && briefings == old(briefings) && storage == old(storage)
      ensures old(user).Some? ==>
        && r == Ok(NewBriefing(title, description, fields, user.value, stamp, now))
        && briefings == old(briefings) + [r.value]
        && storage == Persisted(old(storage), user, briefings)
    {
      if user.None? {
        return Err(NoUserMessage);
      }
      var b := NewBriefing(title, description, fields, user.value, stamp, now);
      briefings := briefings + [b];
      Persist();
      r := Ok(b);
    }

    /** `updateBriefing`. */
    method UpdateBriefing(id: string, patch: BriefingPatch, now: Timestamp)
      modifies this`briefings, this`storage
      ensures briefings == UpdateMatching(old(briefings), id, patch, now)
      ensures storage == Persisted(old(storage), user, briefings)
    {
      briefings := UpdateMatching(briefings, id, patch, now);
      Persist();
    }

    /** `deleteBriefing`. */
    method DeleteBriefing(id: string)
      modifies this`briefings, this`storage
      ensures briefings == RemoveBriefing(old(briefings), id)
      ensures storage == Persisted(old(storage), user, briefings)
    {
      briefings := Filter(briefings, (b: Briefing) => b.id != id);
      Persist();
    }

    /** `submitResponse`. */
    method SubmitResponse(briefingId: string, answers: map<string, string>, submittedBy: Option<string>,
                          stamp: string, now: Timestamp)
      modifies this`briefings, this`storage
      ensures briefings == AppendResponse(old(briefings), briefingId, NewResponse(briefingId, answers, submittedBy, stamp, now))
      ensures storage == Persisted(old(storage), user, briefings)
    {
      var response := NewResponse(briefingId, answers, submittedBy, stamp, now);
      briefings := AppendResponse(briefings, briefingId, response);
      Persist();
    }
  }
}
