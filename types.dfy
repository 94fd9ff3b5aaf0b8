/** The data model of the application: closed enumerations, the Campaign and User
    records and the page identifiers. Every enumeration of the source is a string
    enum; its label is the string the application displays and persists. */
module Types {

  datatype CampaignStatus = Pending | Active | Completed | Paused

  datatype CampaignObjective =
    | Views | Shares | Comments | Downloads | Leads | Sales | Follows | BlogPromotion

  datatype CampaignPlatform = Instagram | Facebook | TikTok | YouTube | Blog

  datatype CampaignMode = PromoteOnly | SuggestOnly | PromoteSuggest

  /** The `targeting` sub-record of a campaign. */
  datatype Targeting = Targeting(ageRange: string, gender: string, interests: seq<string>)

  /** The `analytics` sub-record: six integer counters. */
  datatype Analytics = Analytics(
    views: int, engagements: int, leads: int, sales: int, follows: int, clicks: int)

  datatype Campaign = Campaign(
    id: string,
    userId: string,
    name: string,
    objective: CampaignObjective,
    platform: CampaignPlatform,
    mediaUrl: string,
    targetViews: int,
    mode: CampaignMode,
    targeting: Targeting,
    status: CampaignStatus,
    createdAt: string,
    analytics: Analytics)

  datatype User = User(id: string, email: string, isAdmin: bool, isVerified: bool, name: string)

  /** The union type `Page` of page identifiers. */
  datatype Page =
    | LandingPage | LoginPage | RegisterPage | CreatePage | DashboardPage | AdminPage | VerifyPage

  const ZeroAnalytics := Analytics(0, 0, 0, 0, 0, 0)

  function StatusLabel(s: CampaignStatus): string {
    match s
    case Pending => "Pending"
    case Active => "Active"
    case Completed => "Completed"
    case Paused => "Paused"
  }

  function ObjectiveLabel(o: CampaignObjective): string {
    match o
    case Views => "Views"
    case Shares => "Shares"
    case Comments => "Comments"
    case Downloads => "Downloads"
    case Leads => "Leads"
    case Sales => "Sales"
    case Follows => "Follows"
    case BlogPromotion => "Blog Promotion"
  }

  function PlatformLabel(p: CampaignPlatform): string {
    match p
    case Instagram => "Instagram"
    case Facebook => "Facebook"
    case TikTok => "TikTok"
    case YouTube => "YouTube"
    case Blog => "Blog"
  }

  function ModeLabel(m: CampaignMode): string {
    match m
    case PromoteOnly => "Promote Only"
    case SuggestOnly => "Suggest Only"
    case PromoteSuggest => "Promote + Suggest"
  }

  function PageLabel(p: Page): string {
    match p
    case LandingPage => "landing"
    case LoginPage => "login"
    case RegisterPage => "register"
    case CreatePage => "create"
    case DashboardPage => "dashboard"
    case AdminPage => "admin"
    case VerifyPage => "verify"
  }

  /** The values of each enumeration in declaration order. */
  const AllStatuses: seq<CampaignStatus> := [Pending, Active, Completed, Paused]
  const AllObjectives: seq<CampaignObjective> :=
    [Views, Shares, Comments, Downloads, Leads, Sales, Follows, BlogPromotion]
  const AllPlatforms: seq<CampaignPlatform> := [Instagram, Facebook, TikTok, YouTube, Blog]
  const AllModes: seq<CampaignMode> := [PromoteOnly, SuggestOnly, PromoteSuggest]
  const AllPages: seq<Page> :=
    [LandingPage, LoginPage, RegisterPage, CreatePage, DashboardPage, AdminPage, VerifyPage]

  /** A sequence lists each value once when no two of its labels coincide. */
  ghost predicate DistinctLabels<T>(xs: seq<T>, labelOf: T -> string) {
    forall i, j :: 0 <= i < j < |xs| ==> labelOf(xs[i]) != labelOf(xs[j])
  }

  /** CampaignStatus has exactly four values, with four different labels. */
  lemma StatusEnumeration()
    ensures |AllStatuses| == 4
    ensures forall s: CampaignStatus :: s in AllStatuses
    ensures DistinctLabels(AllStatuses, StatusLabel)
  {
    forall s: CampaignStatus ensures s in AllStatuses {
      match s
      case Pending => assert AllStatuses[0] == s;
      case Active => assert AllStatuses[1] == s;
      case Completed => assert AllStatuses[2] == s;
      case Paused => assert AllStatuses[3] == s;
    }
  }

  /** CampaignObjective has exactly eight values, with eight different labels. */
  lemma ObjectiveEnumeration()
    ensures |AllObjectives| == 8
    ensures forall o: CampaignObjective :: o in AllObjectives
    ensures DistinctLabels(AllObjectives, ObjectiveLabel)
  {
    forall o: CampaignObjective ensures o in AllObjectives {
      match o
      case Views => assert AllObjectives[0] == o;
      case Shares => assert AllObjectives[1] == o;
      case Comments => assert AllObjectives[2] == o;
      case Downloads => assert AllObjectives[3] == o;
      case Leads => assert AllObjectives[4] == o;
      case Sales => assert AllObjectives[5] == o;
      case Follows => assert AllObjectives[6] == o;
      case BlogPromotion => assert AllObjectives[7] == o;
    }
  }

  /** CampaignPlatform has exactly five values, with five different labels. */
  lemma PlatformEnumeration()
    ensures |AllPlatforms| == 5
    ensures forall p: CampaignPlatform :: p in AllPlatforms
    ensures DistinctLabels(AllPlatforms, PlatformLabel)
  {
    forall p: CampaignPlatform ensures p in AllPlatforms {
      match p
      case Instagram => assert AllPlatforms[0] == p;
      case Facebook => assert AllPlatforms[1] == p;
      case TikTok => assert AllPlatforms[2] == p;
      case YouTube => assert AllPlatforms[3] == p;
      case Blog => assert AllPlatforms[4] == p;
    }
  }

  /** CampaignMode has exactly three values, with three different labels. */
  lemma ModeEnumeration()
    ensures |AllModes| == 3
    ensures forall m: CampaignMode :: m in AllModes
    ensures DistinctLabels(AllModes, ModeLabel)
  {
    forall m: CampaignMode ensures m in AllModes {
      match m
      case PromoteOnly => assert AllModes[0] == m;
      case SuggestOnly => assert AllModes[1] == m;
      case PromoteSuggest => assert AllModes[2] == m;
    }
  }

  /** Page has exactly seven identifiers, all different. */
  lemma PageEnumeration()
    ensures |AllPages| == 7
    ensures forall p: Page :: p in AllPages
    ensures DistinctLabels(AllPages, PageLabel)
  {
    forall p: Page ensures p in AllPages {
      match p
      case LandingPage => assert AllPages[0] == p;
      case LoginPage => assert AllPages[1] == p;
      case RegisterPage => assert AllPages[2] == p;
      case CreatePage => assert AllPages[3] == p;
      case DashboardPage => assert AllPages[4] == p;
      case AdminPage => assert AllPages[5] == p;
      case VerifyPage => assert AllPages[6] == p;
    }
  }
}
