/** The dashboard: the four analytics totals and the pause/resume and delete
    buttons on each campaign. */
module Dashboard {
  import opened Types
  import opened Store

  /** The six analytics counters of a campaign. */
  datatype Counter =
    | ViewsCounter | EngagementsCounter | LeadsCounter | SalesCounter | FollowsCounter | ClicksCounter

  function CounterValue(a: Analytics, k: Counter): int {
    match k
    case ViewsCounter => a.views
    case EngagementsCounter => a.engagements
    case LeadsCounter => a.leads
    case SalesCounter => a.sales
    case FollowsCounter => a.follows
    case ClicksCounter => a.clicks
  }

  /** The reference definition: a counter summed over the campaigns. */
  function Sum(cs: seq<Campaign>, k: Counter): int
    decreases |cs|
  {
    if cs == [] then 0 else CounterValue(cs[0].analytics, k) + Sum(cs[1..], k)
  }

  /** `campaigns.reduce((acc, c) => acc + c.analytics.<counter>, acc)`: a left fold. */
  function Reduce(cs: seq<Campaign>, k: Counter, acc: int): (r: int)
    ensures (forall j :: 0 <= j < |cs| ==> CounterValue(cs[j].analytics, k) >= 0) ==> r >= acc
    decreases |cs|
  {
    if cs == [] then acc else Reduce(cs[1..], k, acc + CounterValue(cs[0].analytics, k))
  }

  /** The left fold from `acc` adds the counter's sum to `acc`. */
  lemma {:induction false} ReduceIsSum(cs: seq<Campaign>, k: Counter, acc: int)
    ensures Reduce(cs, k, acc) == acc + Sum(cs, k)
    decreases |cs|
  {
    if cs != [] {
      ReduceIsSum(cs[1..], k, acc + CounterValue(cs[0].analytics, k));
    }
  }

  datatype Totals = Totals(views: int, engagements: int, leads: int, follows: int)

  /** The four stat cards: each total is its counter summed over all campaigns. */
  function DashboardTotals(cs: seq<Campaign>): (t: Totals)
    ensures t.views == Sum(cs, ViewsCounter)
    ensures t.engagements == Sum(cs, EngagementsCounter)
    ensures t.leads == Sum(cs, LeadsCounter)
    ensures t.follows == Sum(cs, FollowsCounter)
  {
    ReduceIsSum(cs, ViewsCounter, 0);
    ReduceIsSum(cs, EngagementsCounter, 0);
    ReduceIsSum(cs, LeadsCounter, 0);
    ReduceIsSum(cs, FollowsCounter, 0);
    Totals(
      Reduce(cs, ViewsCounter, 0), Reduce(cs, EngagementsCounter, 0),
      Reduce(cs, LeadsCounter, 0), Reduce(cs, FollowsCounter, 0))
  }

  /** With no campaigns every total is 0. */
  lemma TotalsEmpty()
    ensures DashboardTotals([]) == Totals(0, 0, 0, 0)
  {
  }

  /** A sum of non-negative counters is non-negative. */
  lemma {:induction false} SumNonNegative(cs: seq<Campaign>, k: Counter)
    requires forall j :: 0 <= j < |cs| ==> CounterValue(cs[j].analytics, k) >= 0
    ensures Sum(cs, k) >= 0
    decreases |cs|
  {
    if cs != [] {
      SumNonNegative(cs[1..], k);
    }
  }

  /** The totals are non-negative when every counter is. */
  lemma TotalsNonNegative(cs: seq<Campaign>)
    requires forall j :: 0 <= j < |cs| ==>
      (0 <= cs[j].analytics.views && 0 <= cs[j].analytics.engagements
       && 0 <= cs[j].analytics.leads && 0 <= cs[j].analytics.follows)
    ensures var t := DashboardTotals(cs);
      t.views >= 0 && t.engagements >= 0 && t.leads >= 0 && t.follows >= 0
  {
    SumNonNegative(cs, ViewsCounter);
    SumNonNegative(cs, EngagementsCounter);
    SumNonNegative(cs, LeadsCounter);
    SumNonNegative(cs, FollowsCounter);
  }

  /** The sum over a concatenation is the sum of the sums. */
  lemma {:induction false} SumAppend(a: seq<Campaign>, b: seq<Campaign>, k: Counter)
    ensures Sum(a + b, k) == Sum(a, k) + Sum(b, k)
    decreases |a|
  {
    if a == [] {
      assert a + b == b;
    } else {
      SumAppend(a[1..], b, k);
      assert (a + b)[1..] == a[1..] + b;
    }
  }

  /** A status update never moves a total. */
  lemma {:induction false} SumIgnoresStatus(cs: seq<Campaign>, id: string, s: CampaignStatus, k: Counter)
    ensures Sum(UpdateAll(cs, id, StatusPatch(s)), k) == Sum(cs, k)
    decreases |cs|
  {
    if cs != [] {
      SumIgnoresStatus(cs[1..], id, s, k);
      var r := UpdateAll(cs, id, StatusPatch(s));
      assert r[1..] == UpdateAll(cs[1..], id, StatusPatch(s));
      MergeStatus(cs[0], s);
    }
  }

  /** Deleting the campaign at `j` (ids unique) takes its counter out of the sum. */
  lemma SumAfterDelete(cs: seq<Campaign>, j: nat, k: Counter)
    requires j < |cs| && UniqueIds(cs)
    ensures Sum(DeleteAll(cs, cs[j].id), k) == Sum(cs, k) - CounterValue(cs[j].analytics, k)
  {
    var pre, post := cs[..j], cs[j + 1..];
    DeleteUnique(cs, j);
    assert cs == pre + ([cs[j]] + post);
    assert ([cs[j]] + post)[1..] == post;
    SumAppend(pre, [cs[j]] + post, k);
    SumAppend(pre, post, k);
  }

  // ---------------------------------------------------------------- the buttons

  /** The pause/resume button: Active becomes Paused, every other status Active. */
  function Toggled(s: CampaignStatus): (r: CampaignStatus)
    ensures r == Paused <==> s == Active
    ensures r == Active <==> s != Active
  {
    if s == Active then Paused else Active
  }

  /** The partial record the pause/resume button sends for `c`. */
  function TogglePatch(c: Campaign): CampaignPatch {
    StatusPatch(Toggled(c.status))
  }

  /** Toggling twice gives back Active and Paused, but Pending and Completed end
      up Paused. */
  lemma ToggleTwice(s: CampaignStatus)
    ensures Toggled(Toggled(s)) == s <==> s == Active || s == Paused
    ensures Toggled(Toggled(s)) != s ==> Toggled(Toggled(s)) == Paused
  {
  }

  /** With unique ids, the button changes the status of the clicked campaign only. */
  lemma ToggleClicked(cs: seq<Campaign>, j: nat)
    requires j < |cs| && UniqueIds(cs)
    ensures UpdateAll(cs, cs[j].id, TogglePatch(cs[j])) == cs[j := cs[j].(status := Toggled(cs[j].status))]
  {
    var r := UpdateAll(cs, cs[j].id, TogglePatch(cs[j]));
    var expected := cs[j := cs[j].(status := Toggled(cs[j].status))];
    MergeStatus(cs[j], Toggled(cs[j].status));
    forall m | 0 <= m < |cs|
      ensures r[m] == expected[m]
    {
      if m != j {
        assert cs[m].id != cs[j].id;
      }
    }
  }

  /** Clicking the button twice on an Active or Paused campaign restores the sequence. */
  lemma DoubleToggleRestores(cs: seq<Campaign>, j: nat)
    requires j < |cs| && UniqueIds(cs)
    requires cs[j].status == Active || cs[j].status == Paused
    ensures var once := UpdateAll(cs, cs[j].id, TogglePatch(cs[j]));
      UpdateAll(once, once[j].id, TogglePatch(once[j])) == cs
  {
    var once := UpdateAll(cs, cs[j].id, TogglePatch(cs[j]));
    ToggleClicked(cs, j);
    assert UniqueIds(once);
    ToggleClicked(once, j);
  }

  /** The delete button removes the clicked campaign and any other with its id; with
      unique ids exactly that one, the others keeping their order. */
  lemma DeleteClicked(cs: seq<Campaign>, j: nat)
    requires j < |cs|
    ensures cs[j] !in DeleteAll(cs, cs[j].id)
    ensures UniqueIds(cs) ==> DeleteAll(cs, cs[j].id) == cs[..j] + cs[j + 1..]
  {
    if UniqueIds(cs) {
      DeleteUnique(cs, j);
    }
  }
}
