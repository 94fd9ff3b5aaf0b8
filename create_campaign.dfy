/** The campaign-creation page: the form, the campaign it builds and the hand-off
    of that campaign to the store. */
module CreateCampaign {
  import opened Wrappers
  import opened Types
  import opened Text
  import opened Store
  import Dashboard

  datatype CampaignForm = CampaignForm(
    name: string,
    objective: CampaignObjective,
    platform: CampaignPlatform,
    mediaUrl: string,
    targetViews: int,
    mode: CampaignMode,
    ageRange: string,
    gender: string,
    interests: string)

  /** The form's initial values. */
  const DefaultForm := CampaignForm("", Views, TikTok, "", 1000, PromoteSuggest, "18-24", "All", "")

  /** `interests.split(',').map(i => i.trim())`: one trimmed piece per comma-separated
      part, so one more piece than there are commas. */
  function Interests(text: string): (r: seq<string>)
    ensures |r| == |Split(text, ',')| == multiset(text)[','] + 1
    ensures forall k :: 0 <= k < |r| ==> r[k] == Trim(Split(text, ',')[k])
  {
    var pieces := Split(text, ',');
    SplitCount(text, ',');
    seq(|pieces|, k requires 0 <= k < |pieces| => Trim(pieces[k]))
  }

  /** An empty interests field gives one empty interest. */
  lemma InterestsOfEmpty()
    ensures Interests("") == [""]
  {
  }

  /** Every interest is free of commas and of surrounding white space. */
  lemma InterestsAreClean(text: string)
    ensures forall k :: 0 <= k < |Interests(text)| ==>
      var w := Interests(text)[k];
      ',' !in w && (w == [] || (!IsWhitespace(w[0]) && !IsWhitespace(w[|w| - 1])))
  {
    var r := Interests(text);
    var pieces := Split(text, ',');
    forall k | 0 <= k < |r|
      ensures ',' !in r[k]
    {
      var i, j :| 0 <= i <= j <= |pieces[k]| && r[k] == pieces[k][i..j]
        && AllWhitespace(pieces[k][..i]) && AllWhitespace(pieces[k][j..]);
      assert ',' !in pieces[k];
    }
  }

  /** Interests typed as trimmed words separated by commas come back as those words. */
  lemma InterestsOfList(words: seq<string>)
    requires |words| >= 1
    requires forall k :: 0 <= k < |words| ==> ',' !in words[k] && Trim(words[k]) == words[k]
    ensures Interests(Join(words, ',')) == words
  {
    SplitJoin(words, ',');
  }

  /** `parseInt(value) || 0`: what the desired-views field stores for its text. */
  function DesiredViews(text: string): (v: int)
    ensures ParseInt(text).None? ==> v == 0
    ensures ParseInt(text).Some? ==> v == ParseInt(text).value
  {
    match ParseInt(text)
    case Some(n) => n
    case None => 0
  }

  /** A numeral is stored as its value. */
  lemma DesiredViewsOfNumeral(n: nat)
    ensures DesiredViews(Decimal(n)) == n
  {
    ParseIntDecimal(n, []);
    assert Decimal(n) + [] == Decimal(n);
  }

  /** Text with no digit where `parseInt` looks for one is stored as 0. */
  lemma DesiredViewsNonNumeric(text: string)
    requires text == [] || (!IsDigit(text[0]) && !IsWhitespace(text[0]) && text[0] != '-' && text[0] != '+')
    ensures DesiredViews(text) == 0
  {
    assert LeadingWhitespace(text) == 0;
    assert text[0..] == text;
    ParseIntNoDigits(text);
  }

  /** `newCampaign`: the form's fields for a new campaign owned by `user`, always
      with objective Views, status Pending and zeroed analytics. The random id and
      the creation time are parameters. */
  function NewCampaign(user: User, form: CampaignForm, id: string, createdAt: string): (c: Campaign)
    ensures c.id == id && c.userId == user.id && c.createdAt == createdAt
    ensures c.objective == Views && c.status == Pending && c.analytics == ZeroAnalytics
    ensures c.name == form.name && c.platform == form.platform && c.mediaUrl == form.mediaUrl
    ensures c.targetViews == form.targetViews && c.mode == form.mode
    ensures c.targeting == Targeting(form.ageRange, form.gender, Interests(form.interests))
  {
    Campaign(
      id, user.id, form.name, Views, form.platform, form.mediaUrl, form.targetViews, form.mode,
      Targeting(form.ageRange, form.gender, Interests(form.interests)),
      Pending, createdAt, ZeroAnalytics)
  }

  /** The objective chosen in the form plays no part in the campaign. */
  lemma ObjectiveIgnored(user: User, form: CampaignForm, o: CampaignObjective, id: string, createdAt: string)
    ensures NewCampaign(user, form.(objective := o), id, createdAt) == NewCampaign(user, form, id, createdAt)
  {
  }

  /** Adding a new campaign leaves every dashboard total where it was. */
  lemma NewCampaignLeavesTotals(user: User, form: CampaignForm, id: string, createdAt: string, cs: seq<Campaign>)
    ensures Dashboard.DashboardTotals([NewCampaign(user, form, id, createdAt)] + cs) == Dashboard.DashboardTotals(cs)
  {
    var c := NewCampaign(user, form, id, createdAt);
    assert ([c] + cs)[1..] == cs;
  }

  /** The creation page: its form and its success flag. */
  class CreateCampaignPage {
    var form: CampaignForm
    var success: bool

    constructor ()
      ensures form == DefaultForm && !success
    {
      form := DefaultForm;
      success := false;
    }

    /** The desired-views field's change handler. */
    method SetDesiredViews(text: string)
      modifies this
      ensures form == old(form).(targetViews := DesiredViews(text))
      ensures success == old(success)
    {
      form := form.(targetViews := DesiredViews(text));
    }

    /** `handleSubmit`, with the 2 s delay as an immediate step: nothing happens
        without a user; otherwise the new campaign goes to the head of the store's
        campaigns, the page shows success, then the dashboard is shown. */
    method HandleSubmit(store: AppStore, id: string, createdAt: string)
      requires store.Mirrored()
      modifies this, store
      ensures form == old(form)
      ensures old(store.user) == None ==>
        && success == old(success)
        && store.user == old(store.user) && store.campaigns == old(store.campaigns)
        && store.currentPage == old(store.currentPage) && store.storage == old(store.storage)
      ensures old(store.user) != None ==>
        && success
        && store.campaigns == [NewCampaign(old(store.user).value, form, id, createdAt)] + old(store.campaigns)
        && store.currentPage == DashboardPage && store.user == old(store.user)
        && store.storage == old(store.storage).(savedCampaigns := Some(store.campaigns))
      ensures store.Mirrored()
    {
      if store.user == None {
        return;
      }
      var newCampaign := NewCampaign(store.user.value, form, id, createdAt);
      store.AddCampaign(newCampaign);
      success := true;
      store.SetPage(DashboardPage);
    }
  }
}
