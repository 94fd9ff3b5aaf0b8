/** The application store: the current user, the campaigns (newest first) and the
    current page, with the operations the pages call, the seed campaigns the store
    starts from and the mirroring of user and campaigns into browser storage. */
module Store {
  import opened Wrappers
  import opened Types
  import opened Sequences

  // ---------------------------------------------------------------- partial updates

  /** `Partial<Campaign>`: each field may be present or absent. */
  datatype CampaignPatch = CampaignPatch(
    id: Option<string>,
    userId: Option<string>,
    name: Option<string>,
    objective: Option<CampaignObjective>,
    platform: Option<CampaignPlatform>,
    mediaUrl: Option<string>,
    targetViews: Option<int>,
    mode: Option<CampaignMode>,
    targeting: Option<Targeting>,
    status: Option<CampaignStatus>,
    createdAt: Option<string>,
    analytics: Option<Analytics>)

  /** The empty partial record `{}`. */
  const NoChange := CampaignPatch(None, None, None, None, None, None, None, None, None, None, None, None)

  /** `{ status: s }`, the partial record every status button sends. */
  function StatusPatch(s: CampaignStatus): CampaignPatch {
    NoChange.(status := Some(s))
  }

  /** One field after a spread: the supplied value when present, the old one otherwise. */
  predicate Spread<X(==)>(merged: X, prior: X, supplied: Option<X>) {
    if supplied.Some? then merged == supplied.value else merged == prior
  }

  /** `{ ...c, ...u }`: the fields present in `u` replace those of `c`; a sub-record
      (`targeting`, `analytics`) is replaced as a whole, never merged. */
  function Merge(c: Campaign, u: CampaignPatch): (r: Campaign)
    ensures Spread(r.id, c.id, u.id) && Spread(r.userId, c.userId, u.userId)
    ensures Spread(r.name, c.name, u.name) && Spread(r.objective, c.objective, u.objective)
    ensures Spread(r.platform, c.platform, u.platform) && Spread(r.mediaUrl, c.mediaUrl, u.mediaUrl)
    ensures Spread(r.targetViews, c.targetViews, u.targetViews) && Spread(r.mode, c.mode, u.mode)
    ensures Spread(r.targeting, c.targeting, u.targeting) && Spread(r.status, c.status, u.status)
    ensures Spread(r.createdAt, c.createdAt, u.createdAt) && Spread(r.analytics, c.analytics, u.analytics)
  {
    Campaign(
      u.id.GetOr(c.id),
      u.userId.GetOr(c.userId),
      u.name.GetOr(c.name),
      u.objective.GetOr(c.objective),
      u.platform.GetOr(c.platform),
      u.mediaUrl.GetOr(c.mediaUrl),
      u.targetViews.GetOr(c.targetViews),
      u.mode.GetOr(c.mode),
      u.targeting.GetOr(c.targeting),
      u.status.GetOr(c.status),
      u.createdAt.GetOr(c.createdAt),
      u.analytics.GetOr(c.analytics))
  }

  function Later<X>(a: Option<X>, b: Option<X>): Option<X> {
    if b.Some? then b else a
  }

  /** `{ ...u1, ...u2 }`: two partial records spread one after the other. */
  function Override(u1: CampaignPatch, u2: CampaignPatch): CampaignPatch {
    CampaignPatch(
      Later(u1.id, u2.id), Later(u1.userId, u2.userId), Later(u1.name, u2.name),
      Later(u1.objective, u2.objective), Later(u1.platform, u2.platform),
      Later(u1.mediaUrl, u2.mediaUrl), Later(u1.targetViews, u2.targetViews),
      Later(u1.mode, u2.mode), Later(u1.targeting, u2.targeting), Later(u1.status, u2.status),
      Later(u1.createdAt, u2.createdAt), Later(u1.analytics, u2.analytics))
  }

  /** Merging the empty partial record changes nothing. */
  lemma MergeNoChange(c: Campaign)
    ensures Merge(c, NoChange) == c
  {
  }

  /** Two merges in a row are one merge of the two partial records spread together. */
  lemma MergeOverride(c: Campaign, u1: CampaignPatch, u2: CampaignPatch)
    ensures Merge(Merge(c, u1), u2) == Merge(c, Override(u1, u2))
  {
  }

  /** Merging the same partial record twice is merging it once. */
  lemma MergeIdempotent(c: Campaign, u: CampaignPatch)
    ensures Merge(Merge(c, u), u) == Merge(c, u)
  {
  }

  /** A status-only partial record changes the status and no other field. */
  lemma MergeStatus(c: Campaign, s: CampaignStatus)
    ensures Merge(c, StatusPatch(s)) == c.(status := s)
  {
  }

  /** The merge is shallow: a sub-record carried by the partial record replaces the
      old one whatever the old one held. */
  lemma MergeShallow(c: Campaign, d: Campaign, u: CampaignPatch)
    requires u.analytics.Some? || u.targeting.Some?
    ensures u.analytics.Some? ==> Merge(c, u).analytics == Merge(d, u).analytics == u.analytics.value
    ensures u.targeting.Some? ==> Merge(c, u).targeting == Merge(d, u).targeting == u.targeting.value
  {
  }

  // ---------------------------------------------------------------- list transforms

  /** `prev.map(c => c.id === id ? { ...c, ...updates } : c)`. */
  function UpdateAll(cs: seq<Campaign>, id: string, u: CampaignPatch): (r: seq<Campaign>)
    ensures |r| == |cs|
    ensures forall k :: 0 <= k < |cs| ==> r[k] == (if cs[k].id == id then Merge(cs[k], u) else cs[k])
    decreases |cs|
  {
    if cs == [] then []
    else [if cs[0].id == id then Merge(cs[0], u) else cs[0]] + UpdateAll(cs[1..], id, u)
  }

  /** `prev.filter(c => c.id !== id)`: every campaign with that id is dropped, the
      others stay, each as often as before and in the same order. */
  function DeleteAll(cs: seq<Campaign>, id: string): (r: seq<Campaign>)
    ensures |r| <= |cs|
    ensures forall k :: 0 <= k < |r| ==> r[k].id != id
  {
    Filter(cs, (c: Campaign) => c.id != id)
  }

  /** Deleting keeps every other campaign, as often as before and in order. */
  lemma DeleteSpec(cs: seq<Campaign>, id: string)
    ensures SubsequenceOf(DeleteAll(cs, id), cs)
    ensures forall c: Campaign :: c.id != id ==> multiset(DeleteAll(cs, id))[c] == multiset(cs)[c]
  {
    FilterSpec(cs, (c: Campaign) => c.id != id);
  }

  predicate HasId(cs: seq<Campaign>, id: string) {
    exists k :: 0 <= k < |cs| && cs[k].id == id
  }

  /** No two campaigns share an id: what the random ids are meant to give. */
  ghost predicate UniqueIds(cs: seq<Campaign>) {
    forall i, j :: 0 <= i < j < |cs| ==> cs[i].id != cs[j].id
  }

  /** Updating an id that no campaign has leaves the sequence identical. */
  lemma UpdateAbsent(cs: seq<Campaign>, id: string, u: CampaignPatch)
    requires !HasId(cs, id)
    ensures UpdateAll(cs, id, u) == cs
  {
  }

  /** Repeating an update changes nothing more, whatever the partial record holds,
      even one that moves the matching campaigns to another id. */
  lemma UpdateIdempotent(cs: seq<Campaign>, id: string, u: CampaignPatch)
    ensures UpdateAll(UpdateAll(cs, id, u), id, u) == UpdateAll(cs, id, u)
  {
    var once := UpdateAll(cs, id, u);
    var twice := UpdateAll(once, id, u);
    forall k | 0 <= k < |cs|
      ensures twice[k] == once[k]
    {
      if cs[k].id == id {
        MergeIdempotent(cs[k], u);
      }
    }
  }

  /** With unique ids, updating the id of the campaign at `k` merges into exactly that
      campaign. */
  lemma UpdateUnique(cs: seq<Campaign>, k: nat, u: CampaignPatch)
    requires k < |cs| && UniqueIds(cs)
    ensures UpdateAll(cs, cs[k].id, u) == cs[k := Merge(cs[k], u)]
  {
    var r := UpdateAll(cs, cs[k].id, u);
    var expected := cs[k := Merge(cs[k], u)];
    forall m | 0 <= m < |cs|
      ensures r[m] == expected[m]
    {
      if m != k {
        assert cs[m].id != cs[k].id;
      }
    }
  }

  /** An update that leaves ids alone keeps them unique. */
  lemma UpdateKeepsUnique(cs: seq<Campaign>, id: string, u: CampaignPatch)
    requires UniqueIds(cs) && u.id.None?
    ensures UniqueIds(UpdateAll(cs, id, u))
  {
  }

  /** Deleting an id that no campaign has leaves the sequence identical. */
  lemma DeleteAbsent(cs: seq<Campaign>, id: string)
    requires !HasId(cs, id)
    ensures DeleteAll(cs, id) == cs
  {
    FilterAll(cs, (c: Campaign) => c.id != id);
  }

  /** One step of `DeleteAll`: the head is kept exactly when its id differs. */
  lemma DeleteCons(c: Campaign, cs: seq<Campaign>, id: string)
    ensures DeleteAll([c] + cs, id) ==
      if c.id != id then [c] + DeleteAll(cs, id) else DeleteAll(cs, id)
  {
    assert ([c] + cs)[0] == c;
    assert ([c] + cs)[1..] == cs;
  }

  /** Deleting the id of `c` from `pre + [c] + post`, where neither side has that id,
      leaves `pre + post`. */
  lemma {:induction false} DeleteBetween(pre: seq<Campaign>, c: Campaign, post: seq<Campaign>)
    requires !HasId(pre, c.id) && !HasId(post, c.id)
    ensures DeleteAll(pre + [c] + post, c.id) == pre + post
    decreases |pre|
  {
    if pre == [] {
      assert pre + [c] + post == [c] + post;
      DeleteCons(c, post, c.id);
      DeleteAbsent(post, c.id);
    } else {
      var rest := pre[1..];
      assert pre + [c] + post == [pre[0]] + (rest + [c] + post);
      assert pre[0].id != c.id;
      assert !HasId(rest, c.id) by {
        forall m | 0 <= m < |rest| ensures rest[m].id != c.id {
          assert rest[m] == pre[m + 1];
        }
      }
      DeleteCons(pre[0], rest + [c] + post, c.id);
      DeleteBetween(rest, c, post);
      assert pre + post == [pre[0]] + (rest + post);
    }
  }

  /** With unique ids, deleting the id of the campaign at `k` removes exactly that
      campaign and closes the gap. */
  lemma DeleteUnique(cs: seq<Campaign>, k: nat)
    requires k < |cs| && UniqueIds(cs)
    ensures DeleteAll(cs, cs[k].id) == cs[..k] + cs[k + 1..]
    ensures |DeleteAll(cs, cs[k].id)| == |cs| - 1
  {
    var pre, post := cs[..k], cs[k + 1..];
    assert cs == pre + [cs[k]] + post;
    assert !HasId(pre, cs[k].id) by {
      forall m | 0 <= m < |pre| ensures pre[m].id != cs[k].id {
        assert pre[m] == cs[m];
      }
    }
    assert !HasId(post, cs[k].id) by {
      forall m | 0 <= m < |post| ensures post[m].id != cs[k].id {
        assert post[m] == cs[k + 1 + m];
      }
    }
    DeleteBetween(pre, cs[k], post);
  }

  /** A subsequence of campaigns with unique ids has unique ids. */
  lemma {:induction false} SubsequenceKeepsUnique(a: seq<Campaign>, b: seq<Campaign>)
    requires SubsequenceOf(a, b) && UniqueIds(b)
    ensures UniqueIds(a)
    ensures forall k :: 0 <= k < |a| ==> a[k] in b
    decreases |b|
  {
    if a != [] {
      if a[0] == b[0] && SubsequenceOf(a[1..], b[1..]) {
        SubsequenceKeepsUnique(a[1..], b[1..]);
        forall j | 0 < j < |a|
          ensures a[0].id != a[j].id
        {
          assert a[j] == a[1..][j - 1];
          var m :| 0 <= m < |b[1..]| && b[1..][m] == a[j];
          assert b[m + 1] == a[j];
        }
        forall k | 0 <= k < |a|
          ensures a[k] in b
        {
          if k > 0 {
            assert a[k] == a[1..][k - 1];
          }
        }
      } else {
        SubsequenceKeepsUnique(a, b[1..]);
      }
    }
  }

  /** Deleting keeps ids unique. */
  lemma DeleteKeepsUnique(cs: seq<Campaign>, id: string)
    requires UniqueIds(cs)
    ensures UniqueIds(DeleteAll(cs, id))
  {
    DeleteSpec(cs, id);
    SubsequenceKeepsUnique(DeleteAll(cs, id), cs);
  }

  /** Prepending keeps ids unique exactly when the new id is not taken. */
  lemma AddKeepsUnique(c: Campaign, cs: seq<Campaign>)
    requires UniqueIds(cs)
    ensures UniqueIds([c] + cs) <==> !HasId(cs, c.id)
  {
    var r := [c] + cs;
    if !HasId(cs, c.id) {
      forall i, j | 0 <= i < j < |r|
        ensures r[i].id != r[j].id
      {
        assert r[j] == cs[j - 1];
        if i > 0 {
          assert r[i] == cs[i - 1];
        }
      }
    } else {
      var k :| 0 <= k < |cs| && cs[k].id == c.id;
      assert r[k + 1] == cs[k];
      assert 0 < k + 1 < |r| && r[0].id == r[k + 1].id;
    }
  }

  // ---------------------------------------------------------------- seed data

  /** `INITIAL_CAMPAIGNS`; the two creation timestamps are taken when the module loads. */
  function Seeds(createdAt1: string, createdAt2: string): (r: seq<Campaign>)
    ensures |r| == 2 && r[0].id == "1" && r[1].id == "2"
    ensures r[0].userId == r[1].userId == "user-1"
    ensures r[0].status == Active && r[0].platform == TikTok && r[0].createdAt == createdAt1
    ensures r[0].analytics.views == 4231 && r[0].analytics.engagements == 850
    ensures r[1].status == Pending && r[1].platform == Blog && r[1].objective == BlogPromotion
    ensures r[1].createdAt == createdAt2 && r[1].analytics == ZeroAnalytics
  {
    [ Campaign("1", "user-1", "Neon Summer Launch", Views, TikTok,
               "https://picsum.photos/seed/tiktok1/800/600", 10000, PromoteSuggest,
               Targeting("18-24", "All", ["Tech", "Music"]), Active, createdAt1,
               Analytics(4231, 850, 12, 0, 45, 0)),
      Campaign("2", "user-1", "Tech Blog Growth", BlogPromotion, Blog,
               "https://novablog.com/post-1", 5000, PromoteOnly,
               Targeting("25-45", "All", ["Software", "AI"]), Pending, createdAt2,
               ZeroAnalytics) ]
  }

  /** The seed ids are `'1'` then `'2'`. */
  lemma SeedsUnique(t1: string, t2: string)
    ensures UniqueIds(Seeds(t1, t2))
    ensures Seeds(t1, t2)[0].id == "1" && Seeds(t1, t2)[1].id == "2"
  {
    assert "1"[0] != "2"[0];
  }

  /** Pausing `'1'` in the seeds leaves `'2'` Pending and touches nothing else. */
  lemma SeedPauseScenario(t1: string, t2: string)
    ensures var r := UpdateAll(Seeds(t1, t2), "1", StatusPatch(Paused));
      && |r| == 2
      && r[0] == Seeds(t1, t2)[0].(status := Paused)
      && r[1] == Seeds(t1, t2)[1] && r[1].status == Pending
  {
    SeedsUnique(t1, t2);
    MergeStatus(Seeds(t1, t2)[0], Paused);
  }

  /** Deleting `'2'` from the seeds leaves exactly campaign `'1'`. */
  lemma SeedDeleteScenario(t1: string, t2: string)
    ensures DeleteAll(Seeds(t1, t2), "2") == [Seeds(t1, t2)[0]]
  {
    SeedsUnique(t1, t2);
    DeleteUnique(Seeds(t1, t2), 1);
    assert Seeds(t1, t2)[..1] == [Seeds(t1, t2)[0]];
  }

  // ---------------------------------------------------------------- persistence

  /** The two browser-storage keys `nova_user` and `nova_campaigns`, holding the
      value last written (the parsed form of the stored text); `None` when absent. */
  datatype Storage = Storage(savedUser: Option<Option<User>>, savedCampaigns: Option<seq<Campaign>>)

  /** The user a freshly mounted store loads: the stored one when the key is present. */
  function RestoredUser(s: Storage): (u: Option<User>)
    ensures s.savedUser.None? ==> u == None
    ensures s.savedUser.Some? ==> u == s.savedUser.value
  {
    s.savedUser.GetOr(None)
  }

  /** The campaigns a freshly mounted store loads: the stored ones, else the seeds. */
  function RestoredCampaigns(s: Storage, seeds: seq<Campaign>): (cs: seq<Campaign>)
    ensures s.savedCampaigns.None? ==> cs == seeds
    ensures s.savedCampaigns.Some? ==> cs == s.savedCampaigns.value
  {
    s.savedCampaigns.GetOr(seeds)
  }

  /** Storage holds the current campaigns and the current user; the user key may
      instead be absent while nobody is logged in. */
  predicate Mirrors(s: Storage, user: Option<User>, cs: seq<Campaign>) {
    && s.savedCampaigns == Some(cs)
    && (s.savedUser == Some(user) || (user == None && s.savedUser == None))
  }

  /** Reloading from storage that mirrors a state restores that state. */
  lemma ReloadRestores(s: Storage, user: Option<User>, cs: seq<Campaign>, seeds: seq<Campaign>)
    requires Mirrors(s, user, cs)
    ensures RestoredUser(s) == user && RestoredCampaigns(s, seeds) == cs
  {
  }

  // ---------------------------------------------------------------- the store

  /** The provider's state: three React state cells and the browser storage that
      the save effects write after every render in which a watched cell changed. */
  class AppStore {
    var user: Option<User>
    var campaigns: seq<Campaign>
    var currentPage: Page
    var storage: Storage

    ghost predicate Mirrored()
      reads this
    {
      Mirrors(storage, user, campaigns)
    }

    /** Mounting the provider: the state starts as no user, the seeds and the
        landing page; the load effect reads `stored`, the first save effects write
        the initial state, and once the loaded user and campaigns are in place the
        save effects write those back. */
    constructor (stored: Storage, seededAt1: string, seededAt2: string)
      ensures user == RestoredUser(stored)
      ensures campaigns == RestoredCampaigns(stored, Seeds(seededAt1, seededAt2))
      ensures currentPage == LandingPage
      ensures storage == Storage(Some(user), Some(campaigns))
      ensures Mirrored()
    {
      user := None;
      campaigns := Seeds(seededAt1, seededAt2);
      currentPage := LandingPage;
      storage := Storage(Some(None), Some(Seeds(seededAt1, seededAt2)));
      new;
      if stored.savedUser.Some? {
        SetUser(stored.savedUser.value);
      }
      if stored.savedCampaigns.Some? {
        campaigns := stored.savedCampaigns.value;
        storage := storage.(savedCampaigns := Some(campaigns));
      }
    }

    /** `setUser`: no validation; the save effect runs unless the user stays null. */
    method SetUser(u: Option<User>)
      requires Mirrored()
      modifies this
      ensures user == u
      ensures campaigns == old(campaigns) && currentPage == old(currentPage)
      ensures storage == if old(user) == None && u == None then old(storage)
                         else old(storage).(savedUser := Some(u))
      ensures Mirrored()
    {
      var changed := !(user == None && u == None);
      user := u;
      if changed {
        storage := storage.(savedUser := Some(user));
      }
    }

    /** `setPage`: any page is stored, whoever is logged in. */
    method SetPage(p: Page)
      requires Mirrored()
      modifies this
      ensures currentPage == p
      ensures user == old(user) && campaigns == old(campaigns) && storage == old(storage)
      ensures Mirrored()
    {
      currentPage := p;
    }

    /** `addCampaign`: the campaign becomes the head; the others follow in order. */
    method AddCampaign(c: Campaign)
      requires Mirrored()
      modifies this
      ensures campaigns == [c] + old(campaigns)
      ensures user == old(user) && currentPage == old(currentPage)
      ensures storage == old(storage).(savedCampaigns := Some(campaigns))
      ensures Mirrored()
    {
      campaigns := [c] + campaigns;
      storage := storage.(savedCampaigns := Some(campaigns));
    }

    /** `updateCampaign`: every campaign with the id gets the partial record merged in. */
    method UpdateCampaign(id: string, u: CampaignPatch)
      requires Mirrored()
      modifies this
      ensures campaigns == UpdateAll(old(campaigns), id, u)
      ensures user == old(user) && currentPage == old(currentPage)
      ensures storage == old(storage).(savedCampaigns := Some(campaigns))
      ensures Mirrored()
    {
      campaigns := UpdateAll(campaigns, id, u);
      storage := storage.(savedCampaigns := Some(campaigns));
    }

    /** `deleteCampaign`: every campaign with the id is dropped. */
    method DeleteCampaign(id: string)
      requires Mirrored()
      modifies this
      ensures campaigns == DeleteAll(old(campaigns), id)
      ensures user == old(user) && currentPage == old(currentPage)
      ensures storage == old(storage).(savedCampaigns := Some(campaigns))
      ensures Mirrored()
    {
      campaigns := DeleteAll(campaigns, id);
      storage := storage.(savedCampaigns := Some(campaigns));
    }

    /** `logout`: no user, the landing page, the user key removed; when a user was
        logged in, the save effect then writes null under that key. The campaigns,
        stored or not, are left as they were. */
    method Logout()
      requires Mirrored()
      modifies this
      ensures user == None && currentPage == LandingPage
      ensures campaigns == old(campaigns)
      ensures storage == old(storage).(savedUser := if old(user) == None then None else Some(None))
      ensures RestoredUser(storage) == None
      ensures Mirrored()
    {
      var changed := user != None;
      user := None;
      currentPage := LandingPage;
      storage := storage.(savedUser := None);
      if changed {
        storage := storage.(savedUser := Some(user));
      }
    }
  }

  /** The seed scenarios, stepped through the store's methods and checked by the
      verifier. */
  method SeedScenarios(t1: string, t2: string)
  {
    var store := new AppStore(Storage(None, None), t1, t2);
    assert store.user == None && store.currentPage == LandingPage;
    assert store.campaigns == Seeds(t1, t2);
    store.UpdateCampaign("1", StatusPatch(Paused));
    SeedPauseScenario(t1, t2);
    assert store.campaigns[0].status == Paused && store.campaigns[1].status == Pending;

    var other := new AppStore(Storage(None, None), t1, t2);
    other.DeleteCampaign("2");
    SeedDeleteScenario(t1, t2);
    assert |other.campaigns| == 1 && other.campaigns[0].id == "1";
    other.Logout();
    assert other.campaigns == [Seeds(t1, t2)[0]];
  }
}
