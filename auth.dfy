/** The login/register page and the verify page: the user the form synthesises and
    the page transitions that follow a submit or a link. */
module Auth {
  import opened Wrappers
  import opened Types
  import opened Text
  import opened Store

  /** The `mode` property of the auth page. */
  datatype AuthMode = Login | Register

  datatype AuthForm = AuthForm(name: string, email: string, password: string)

  /** `email.split('@')[0]`: the part of the email before its first `@`, or the
      whole email when it has none. */
  function EmailLocalPart(email: string): (r: string)
    ensures |r| <= |email| && r == email[..|r|] && '@' !in r
    ensures |r| < |email| ==> email[|r|] == '@'
  {
    SplitHead(email, '@');
    Split(email, '@')[0]
  }

  /** The name of `local@domain` is `local` when `local` has no `@`. */
  lemma LocalPartOfAddress(local: string, domain: string)
    requires '@' !in local
    ensures EmailLocalPart(local + "@" + domain) == local
  {
    var email := local + "@" + domain;
    var r := EmailLocalPart(email);
    assert email[|local|] == '@';
    assert email[..|local|] == local;
  }

  /** An email without `@` is its own name. */
  lemma LocalPartWithoutAt(email: string)
    requires '@' !in email
    ensures EmailLocalPart(email) == email
  {
  }

  /** The `newUser` record built on submit; `now` stands for `Date.now()`. */
  function NewUser(mode: AuthMode, form: AuthForm, now: nat): (u: User)
    ensures u.id == "user-" + Decimal(now)
    ensures u.email == form.email
    ensures u.isAdmin <==> exists i: nat :: OccursAt(form.email, "admin", i)
    ensures !u.isVerified
    ensures mode == Register ==> u.name == form.name
    ensures mode == Login ==>
      && '@' !in u.name && |u.name| <= |form.email| && u.name == form.email[..|u.name|]
      && (|u.name| < |form.email| ==> form.email[|u.name|] == '@')
  {
    User(
      "user-" + Decimal(now),
      form.email,
      Contains(form.email, "admin"),
      false,
      if mode == Register then form.name else EmailLocalPart(form.email))
  }

  /** The page each mode is shown on. */
  function ModePage(mode: AuthMode): Page {
    match mode
    case Login => LoginPage
    case Register => RegisterPage
  }

  function OtherMode(mode: AuthMode): AuthMode {
    match mode
    case Login => Register
    case Register => Login
  }

  /** The page the "Sign Up" / "Log In" link leads to: the page of the other mode. */
  function SwitchTarget(mode: AuthMode): (p: Page)
    ensures p == ModePage(OtherMode(mode)) && p != ModePage(mode)
  {
    if mode == Login then RegisterPage else LoginPage
  }

  /** Following the link twice comes back to the same mode. */
  lemma SwitchTwice(mode: AuthMode)
    ensures SwitchTarget(OtherMode(mode)) == ModePage(mode)
  {
  }

  /** The mounted auth page: its mode, its form and its loading flag. The login and
      register routes render the same component in the same place, so switching
      between them changes only the mode and keeps the form and the flag. */
  class AuthPage {
    var mode: AuthMode
    var form: AuthForm
    var loading: bool

    constructor (mode: AuthMode)
      ensures this.mode == mode && form == AuthForm("", "", "") && !loading
    {
      this.mode := mode;
      form := AuthForm("", "", "");
      loading := false;
    }

    /** `handleSubmit`, with the simulated delay as an immediate step: registering
        only moves to the verify page; logging in stores the synthesised user and
        then moves to the dashboard. */
    method HandleSubmit(store: AppStore, now: nat)
      requires store.Mirrored()
      modifies this, store
      ensures mode == old(mode) && form == old(form) && !loading
      ensures store.campaigns == old(store.campaigns)
      ensures mode == Register ==>
        && store.user == old(store.user) && store.currentPage == VerifyPage
        && store.storage == old(store.storage)
      ensures mode == Login ==>
        && store.user == Some(NewUser(Login, form, now)) && store.currentPage == DashboardPage
        && store.storage == old(store.storage).(savedUser := Some(store.user))
      ensures store.Mirrored()
    {
      loading := true;
      var newUser := NewUser(mode, form, now);
      if mode == Register {
        store.SetPage(VerifyPage);
      } else {
        store.SetUser(Some(newUser));
        store.SetPage(DashboardPage);
      }
      loading := false;
    }

    /** The link under the form: the page of the other mode is shown, and the same
        mounted page takes that mode with its form and loading flag as they were. */
    method SwitchMode(store: AppStore)
      requires store.Mirrored()
      modifies this, store
      ensures store.currentPage == SwitchTarget(old(mode)) == ModePage(mode)
      ensures mode == OtherMode(old(mode)) && form == old(form) && loading == old(loading)
      ensures store.user == old(store.user) && store.campaigns == old(store.campaigns)
      ensures store.storage == old(store.storage)
      ensures store.Mirrored()
    {
      store.SetPage(SwitchTarget(mode));
      mode := OtherMode(mode);
    }
  }

  /** A register form filled in, then the "Log In" link, then submit: the details
      typed for registering log the user in. */
  method SwitchThenSubmit(page: AuthPage, store: AppStore, now: nat)
    requires store.Mirrored() && page.mode == Register
    modifies page, store
    ensures page.mode == Login && page.form == old(page.form) && !page.loading
    ensures store.user == Some(NewUser(Login, old(page.form), now))
    ensures store.currentPage == DashboardPage && store.campaigns == old(store.campaigns)
    ensures store.storage == old(store.storage).(savedUser := Some(store.user))
    ensures store.Mirrored()
  {
    page.SwitchMode(store);
    page.HandleSubmit(store, now);
  }

  /** The verify page's "continue to login" button. */
  method ContinueToLogin(store: AppStore)
    requires store.Mirrored()
    modifies store
    ensures store.currentPage == LoginPage
    ensures store.user == old(store.user) && store.campaigns == old(store.campaigns)
    ensures store.storage == old(store.storage)
    ensures store.Mirrored()
  {
    store.SetPage(LoginPage);
  }
}
