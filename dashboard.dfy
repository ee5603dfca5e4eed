/** The dashboard's search (`Dashboard.tsx`): the briefings whose title
    contains the search term, ignoring case. */
module Dashboard {
  import opened Types
  import opened Seqs
  import opened Text

  /** A title matches when its lower-cased text contains the lower-cased term. */
  predicate Matches(b: Briefing, term: string)
  {
    Contains(ToLower(b.title), ToLower(term))
  }

  /** `filteredBriefings`. */
  function FilteredBriefings(bs: seq<Briefing>, term: string): seq<Briefing>
  {
    Filter(bs, (b: Briefing) => Matches(b, term))
  }

  /** The search keeps exactly the matching briefings, in their order. */
  lemma SearchKeepsExactlyMatches(bs: seq<Briefing>, term: string)
    ensures var r := FilteredBriefings(bs, term);
      && IsSubsequence(r, bs)
      && (forall k :: 0 <= k < |r| ==> Matches(r[k], term))
      && (forall k :: 0 <= k < |bs| && Matches(bs[k], term) ==> bs[k] in r)
  {
  }

  /** The empty term, the initial state of the search box, shows every briefing. */
  lemma EmptyTermShowsAll(bs: seq<Briefing>)
    ensures FilteredBriefings(bs, "") == bs
  {
    forall k | 0 <= k < |bs| ensures Matches(bs[k], "") {
      assert OccursAt(ToLower(bs[k].title), "", 0);
    }
  }

  /** The case of the term does not change the result. */
  lemma SearchIgnoresCase(bs: seq<Briefing>, term: string)
    ensures FilteredBriefings(bs, ToUpper(term)) == FilteredBriefings(bs, term)
    ensures FilteredBriefings(bs, ToLower(term)) == FilteredBriefings(bs, term)
  {
    LowerForgetsCase(term);
    FilterAgrees(bs, (b: Briefing) => Matches(b, ToUpper(term)), (b: Briefing) => Matches(b, term));
    FilterAgrees(bs, (b: Briefing) => Matches(b, ToLower(term)), (b: Briefing) => Matches(b, term));
  }

  /** A title that is itself the term, in any case, is found. */
  lemma TitleFindsItself(b: Briefing)
    ensures FilteredBriefings([b], ToUpper(b.title)) == [b]
  {
    LowerForgetsCase(b.title);
    assert OccursAt(ToLower(b.title), ToLower(ToUpper(b.title)), 0);
  }
}
