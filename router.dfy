/** The router: which screen is mounted for the current page and user. */
module Router {
  import opened Wrappers
  import opened Types
  import opened Auth

  datatype Screen = ShowLanding | ShowAuth(mode: AuthMode) | ShowVerify | ShowDashboard | ShowCreate | ShowAdmin

  /** `renderPage`: a switch on the page identifier. The dashboard and creation
      screens are only mounted for a user and the admin screen only for an admin. */
  function RenderPage(currentPage: string, user: Option<User>): (s: Screen)
    ensures s == ShowAdmin ==> user.Some? && user.value.isAdmin
    ensures s == ShowDashboard || s == ShowCreate ==> user.Some?
  {
    if currentPage == "landing" then ShowLanding
    else if currentPage == "login" then ShowAuth(Login)
    else if currentPage == "register" then ShowAuth(Register)
    else if currentPage == "verify" then ShowVerify
    else if currentPage == "dashboard" then (if user.Some? then ShowDashboard else ShowAuth(Login))
    else if currentPage == "create" then (if user.Some? then ShowCreate else ShowAuth(Login))
    else if currentPage == "admin" then (if user.Some? && user.value.isAdmin then ShowAdmin else ShowLanding)
    else ShowLanding
  }

  /** The screen for the stored page. */
  function Route(page: Page, user: Option<User>): (s: Screen)
    ensures s == Destination(page) || s == ShowAuth(Login) || s == ShowLanding
    ensures s == ShowAdmin ==> user.Some? && user.value.isAdmin
  {
    RenderPage(PageLabel(page), user)
  }

  // ---------------------------------------------------------------- the access policy

  datatype Access = Public | SignedIn | AdminOnly

  /** Who may see each page. */
  function Requirement(p: Page): Access {
    match p
    case DashboardPage => SignedIn
    case CreatePage => SignedIn
    case AdminPage => AdminOnly
    case _ => Public
  }

  function Permitted(a: Access, user: Option<User>): bool {
    match a
    case Public => true
    case SignedIn => user.Some?
    case AdminOnly => user.Some? && user.value.isAdmin
  }

  /** The screen a page is meant to show. */
  function Destination(p: Page): Screen {
    match p
    case LandingPage => ShowLanding
    case LoginPage => ShowAuth(Login)
    case RegisterPage => ShowAuth(Register)
    case VerifyPage => ShowVerify
    case DashboardPage => ShowDashboard
    case CreatePage => ShowCreate
    case AdminPage => ShowAdmin
  }

  /** Where a refused visitor is sent: to log in, or to the landing page. */
  function Refusal(a: Access): Screen {
    if a == SignedIn then ShowAuth(Login) else ShowLanding
  }

  /** The router follows the policy: the page's own screen when permitted, the
      refusal screen otherwise. */
  lemma RouteFollowsPolicy(p: Page, user: Option<User>)
    ensures Route(p, user) == if Permitted(Requirement(p), user) then Destination(p) else Refusal(Requirement(p))
  {
  }

  /** Landing, login, register and verify are shown as asked, whoever asks. */
  lemma PublicPagesIgnoreUser(p: Page, user: Option<User>)
    requires p in {LandingPage, LoginPage, RegisterPage, VerifyPage}
    ensures Route(p, user) == Destination(p) == Route(p, None)
  {
  }

  /** Dashboard and create show their screen exactly when a user is present, and the
      login screen otherwise. */
  lemma SignedInPages(p: Page, user: Option<User>)
    requires p == DashboardPage || p == CreatePage
    ensures Route(p, user) == Destination(p) <==> user.Some?
    ensures user.None? ==> Route(p, user) == ShowAuth(Login)
  {
  }

  /** Admin shows its screen exactly for an admin user; anyone else gets landing. */
  lemma AdminPageGate(user: Option<User>)
    ensures Route(AdminPage, user) == ShowAdmin <==> user.Some? && user.value.isAdmin
    ensures !(user.Some? && user.value.isAdmin) ==> Route(AdminPage, user) == ShowLanding
  {
  }

  /** Any identifier that names no page shows landing. */
  lemma UnknownPageShowsLanding(id: string, user: Option<User>)
    requires forall p: Page :: PageLabel(p) != id
    ensures RenderPage(id, user) == ShowLanding
  {
    assert PageLabel(LandingPage) != id && PageLabel(LoginPage) != id;
    assert PageLabel(RegisterPage) != id && PageLabel(VerifyPage) != id;
    assert PageLabel(DashboardPage) != id && PageLabel(CreatePage) != id;
    assert PageLabel(AdminPage) != id;
  }

  /** The switch link on an auth screen leads to the auth screen of the other mode. */
  lemma SwitchShowsOtherMode(mode: AuthMode, user: Option<User>)
    ensures Route(SwitchTarget(mode), user) == ShowAuth(OtherMode(mode))
  {
  }

  /** A logged-in non-admin asking for admin sees landing; a guest asking for the
      dashboard sees login. */
  lemma AccessScenarios(u: User)
    requires !u.isAdmin
    ensures Route(AdminPage, Some(u)) == ShowLanding
    ensures Route(DashboardPage, None) == ShowAuth(Login)
  {
  }
}
