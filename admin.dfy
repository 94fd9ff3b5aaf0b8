/** The admin console: the case-insensitive search and the three status buttons. */
module Admin {
  import opened Types
  import opened Text
  import opened Sequences
  import opened Store

  /** The search predicate: the lower-cased term occurs in the lower-cased name or in
      the lower-cased platform label. */
  function Matches(c: Campaign, term: string): (r: bool)
    ensures r <==> ((exists i: nat :: OccursAt(ToLower(c.name), ToLower(term), i))
                 || (exists i: nat :: OccursAt(ToLower(PlatformLabel(c.platform)), ToLower(term), i)))
    ensures term == [] ==> r
  {
    var t := ToLower(term);
    ContainsEmpty(ToLower(c.name));
    Contains(ToLower(c.name), t) || Contains(ToLower(PlatformLabel(c.platform)), t)
  }

  /** `filteredCampaigns`: the campaigns that match, in their original order. */
  function FilteredCampaigns(cs: seq<Campaign>, term: string): (r: seq<Campaign>)
    ensures SubsequenceOf(r, cs)
    ensures forall c :: c in r <==> c in cs && Matches(c, term)
    ensures forall c :: Matches(c, term) ==> multiset(r)[c] == multiset(cs)[c]
  {
    var r := Filter(cs, (c: Campaign) => Matches(c, term));
    FilterSpec(cs, (c: Campaign) => Matches(c, term));
    forall c | true
      ensures c in r <==> c in cs && Matches(c, term)
    {
      FilterMembership(cs, (c: Campaign) => Matches(c, term), c);
    }
    r
  }

  /** An empty search term keeps every campaign. */
  lemma EmptyTermKeepsAll(cs: seq<Campaign>)
    ensures FilteredCampaigns(cs, "") == cs
  {
    forall j | 0 <= j < |cs|
      ensures Matches(cs[j], "")
    {
      ContainsEmpty(ToLower(cs[j].name));
    }
    FilterAll(cs, (c: Campaign) => Matches(c, ""));
  }

  /** The search ignores the case of the term. */
  lemma SearchIgnoresCase(cs: seq<Campaign>, term: string)
    ensures FilteredCampaigns(cs, ToLower(term)) == FilteredCampaigns(cs, term)
  {
    ToLowerIdempotent(term);
    FilterCongruence(cs, (c: Campaign) => Matches(c, ToLower(term)), (c: Campaign) => Matches(c, term));
  }

  // ---------------------------------------------------------------- status buttons

  datatype AdminAction = Activate | Pause | Complete

  function ActionStatus(a: AdminAction): CampaignStatus {
    match a
    case Activate => Active
    case Pause => Paused
    case Complete => Completed
  }

  /** The partial record each button sends. */
  function ActionPatch(a: AdminAction): CampaignPatch {
    StatusPatch(ActionStatus(a))
  }

  /** A button sets the status of every campaign with the id, whatever it was, and
      changes nothing else. */
  lemma ActionSetsStatus(cs: seq<Campaign>, id: string, a: AdminAction)
    ensures var r := UpdateAll(cs, id, ActionPatch(a));
      && |r| == |cs|
      && forall k :: 0 <= k < |cs| ==>
           r[k] == if cs[k].id == id then cs[k].(status := ActionStatus(a)) else cs[k]
  {
    forall k | 0 <= k < |cs|
      ensures Merge(cs[k], ActionPatch(a)) == cs[k].(status := ActionStatus(a))
    {
      MergeStatus(cs[k], ActionStatus(a));
    }
  }

  /** Pressing the same button twice is pressing it once. */
  lemma ActionIdempotent(cs: seq<Campaign>, id: string, a: AdminAction)
    ensures UpdateAll(UpdateAll(cs, id, ActionPatch(a)), id, ActionPatch(a)) == UpdateAll(cs, id, ActionPatch(a))
  {
    UpdateIdempotent(cs, id, ActionPatch(a));
  }

  /** Of two buttons pressed in a row, the second decides the status. */
  lemma LastActionWins(cs: seq<Campaign>, id: string, a: AdminAction, b: AdminAction)
    ensures UpdateAll(UpdateAll(cs, id, ActionPatch(a)), id, ActionPatch(b)) == UpdateAll(cs, id, ActionPatch(b))
  {
    ActionSetsStatus(cs, id, a);
    ActionSetsStatus(UpdateAll(cs, id, ActionPatch(a)), id, b);
    ActionSetsStatus(cs, id, b);
  }
}
