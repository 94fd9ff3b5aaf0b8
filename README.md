# Nova campaign manager: a Dafny model of its state and pages

Nova is a single-page React application. Signed-in users create promotion campaigns
for social platforms, watch their counters on a dashboard, and pause or delete
them. An admin console searches all campaigns and changes their status. All shared
state lives in one context provider: the current user, the campaign list and the
current page. The pages keep their own form state. The user and the campaigns are mirrored into the browser's local storage.

This project models that provider and the pages that drive it:

- `types.dfy` (module `Types`): the enumerations and records of the data model,
  with each enumeration's values and string labels.
- `wrappers.dfy`, `sequences.dfy`, `text.dfy`: `Option`, `Array.prototype.filter`,
  and the string operations the pages rely on. The string operations are
  `toLowerCase`, `includes`, `split`, `trim`, the decimal rendering of `Date.now()`,
  and `parseInt`.
- `store.dfy` (module `Store`):
  - The pure campaign operations: merge a partial record into every campaign with
    an id, and filter out every campaign with an id. The prepend of `addCampaign`
    is written inline in `AppStore.AddCampaign`.
  - The two seed campaigns.
  - The storage model.
  - The class `AppStore`: the provider's state cells together with the storage
    the save effects write.
- `router.dfy` (module `Router`): `renderPage`, and an access policy it is proved to follow.
- `auth.dfy`, `dashboard.dfy`, `admin.dfy`, `create_campaign.dfy`: the login and
  register page, the verify page, the dashboard totals and buttons, the admin search
  and status buttons, and the campaign creation form.

State that the source changes in place is modelled as classes:

- `AppStore` holds the three state cells and storage.
- `AuthPage` holds the auth page's mode, form and loading flag. The login and
  register routes share one mounted page, so the switch link changes only its mode.
- `CreateCampaignPage` holds the creation page's form and success flag.

Each method states its whole new state and keeps the invariant `Mirrored()`. That
invariant says storage holds the current campaigns and the current user. The user
key may instead be absent while nobody is logged in. `ReloadRestores` shows that
such storage gives back the same user and campaigns on the next mount. The page
always starts at landing.

In three places the code does something a reader might not expect, and the model
follows the code:

- `deleteCampaign` and `updateCampaign` act on every campaign with the given id,
  not only on the first (`Store.DeleteAll`, `Store.UpdateAll`). With unique ids the
  two readings agree (`Store.DeleteUnique`, `Store.UpdateUnique`).
- `logout` removes the stored user. When a user was logged in, the save effect then
  writes `null` under the same key. Either way the next mount starts without a user
  (`Store.AppStore.Logout`).
- The creation form's objective is never copied into the campaign: every new
  campaign gets the objective Views, whatever was selected (`CreateCampaign.ObjectiveIgnored`).

The router takes the page identifier as a string, so its `default` branch is
reachable. `Router.Route` applies it to the label of a typed page.

## Model

| member | source | states |
|---|---|---|
| Types.StatusEnumeration | types.ts:2-7 | There are exactly four statuses, every status is among them, and their labels are distinct |
| Types.ObjectiveEnumeration | types.ts:9-18 | There are exactly eight objectives, all listed, with distinct labels |
| Types.PlatformEnumeration | types.ts:20-26 | There are exactly five platforms, all listed, with distinct labels |
| Types.ModeEnumeration | types.ts:28-32 | There are exactly three modes, all listed, with distinct labels |
| Types.PageEnumeration | types.ts:68 | There are exactly seven pages, all listed, with distinct identifiers |
| Text.ToLower | pages/Admin.tsx:12-13 | Lower-casing keeps the length, leaves no upper-case letter, maps each upper-case letter to its lower-case form and keeps every other character |
| Text.ToLowerIdempotent | pages/Admin.tsx:12-13 | Lower-casing twice equals lower-casing once |
| Text.Contains | pages/Admin.tsx:12-13 | `includes` holds exactly when the term occurs at some position of the text |
| Text.ContainsEmpty | pages/Admin.tsx:12-13 | Every text includes the empty term |
| Text.Split | pages/CreateCampaign.tsx:61 | A split gives at least one piece, and no piece contains the separator |
| Text.SplitCount | pages/CreateCampaign.tsx:61 | A split gives one more piece than the text has separators |
| Text.JoinSplit | pages/CreateCampaign.tsx:61 | Joining the pieces of a split with the separator gives back the text |
| Text.SplitJoin | pages/CreateCampaign.tsx:61 | Splitting a join of separator-free pieces gives back the pieces |
| Text.SplitHead | pages/Auth.tsx:21 | The first piece is the longest separator-free prefix; if it is not the whole text, a separator follows it |
| Text.Trim | pages/CreateCampaign.tsx:61 | A trimmed string is a slice of the input with only white space cut on either side, and it neither starts nor ends with white space |
| Text.TrimIdempotent | pages/CreateCampaign.tsx:61 | Trimming twice equals trimming once |
| Text.Decimal | pages/Auth.tsx:19 | The decimal rendering of a number is non-empty, all digits, and has no leading zero |
| Text.DecimalValue | pages/Auth.tsx:19 | The digits of the rendering evaluate back to the number |
| Text.ParseInt | pages/CreateCampaign.tsx:154 | `parseInt` finds a number only when the text has a digit, and a negative one only when it has a minus sign |
| Text.ParseIntDecimal | pages/CreateCampaign.tsx:154 | `parseInt` of a numeral followed by text that does not start with a digit is its value |
| Text.ParseIntNegative | pages/CreateCampaign.tsx:154 | `parseInt` of `-` followed by a numeral is the negated value |
| Text.ParseIntNoDigits | pages/CreateCampaign.tsx:154 | `parseInt` fails (NaN) when no digit follows the white space and the optional sign |
| Sequences.Filter | store.ts:82 | Every element the filter returns satisfies the predicate, and the result is no longer than the input |
| Sequences.FilterSpec | store.ts:82 | The filter's result is a subsequence of the input (order kept), and every kept value occurs as often as in the input |
| Sequences.FilterMembership | pages/Admin.tsx:11-14 | A value is in the filtered sequence if and only if it is in the input and satisfies the predicate |
| Sequences.FilterAll | store.ts:82 | When every element satisfies the predicate, the filter returns the input unchanged |
| Store.Merge | store.ts:78 | In `{ ...c, ...u }` each of the twelve fields is the supplied value when present and the old one otherwise |
| Store.MergeNoChange | store.ts:78 | Spreading an empty partial record leaves the campaign unchanged |
| Store.MergeOverride | store.ts:78 | Merging two partial records in turn equals merging their spread combination, later fields winning |
| Store.MergeIdempotent | store.ts:78 | Merging the same partial record twice equals merging it once |
| Store.MergeStatus | store.ts:78 | A status-only partial record changes the status and nothing else |
| Store.MergeShallow | store.ts:78 | A supplied targeting or analytics record replaces the old one whole, whatever the old campaign held |
| Store.UpdateAll | store.ts:77-79 | `updateCampaign` keeps the length and the order; a campaign with the id gets the partial record merged in, and every other campaign is unchanged |
| Store.DeleteAll | store.ts:81-83 | After `deleteCampaign` no campaign has the id, and the list is no longer |
| Store.DeleteSpec | store.ts:81-83 | Deleting keeps every campaign with another id, as often as before and in the same order |
| Store.UpdateUnique | store.ts:77-79 | With unique ids, updating the id at position k merges into exactly that campaign and leaves every other one unchanged |
| Store.UpdateAbsent | store.ts:78 | Updating an id that no campaign has leaves the list identical |
| Store.UpdateIdempotent | store.ts:77-79 | Applying the same update twice equals applying it once |
| Store.UpdateKeepsUnique | store.ts:77-79 | An update that leaves ids alone keeps ids unique |
| Store.DeleteAbsent | store.ts:82 | Deleting an id that no campaign has leaves the list identical |
| Store.DeleteUnique | store.ts:81-83 | With unique ids, deleting the id at position k removes exactly that campaign and closes the gap, so the length drops by one |
| Store.DeleteKeepsUnique | store.ts:81-83 | Deleting keeps ids unique |
| Store.AddKeepsUnique | store.ts:73-75 | Prepending keeps ids unique if and only if the new id is not already taken |
| Store.Seeds | store.ts:19-48 | The seeds are campaign "1" (Active, TikTok, 4231 views, 850 engagements) and campaign "2" (Pending, Blog, blog promotion, zero counters), both owned by "user-1" |
| Store.SeedsUnique | store.ts:19-48 | The two seed campaigns, ids "1" and "2", have unique ids |
| Store.SeedPauseScenario | store.ts:19-48 | Pausing seed "1" makes it Paused and leaves seed "2" Pending |
| Store.SeedDeleteScenario | store.ts:19-48 | Deleting seed "2" leaves only seed "1" |
| Store.RestoredUser | store.ts:56-58 | Mount loads the stored user when the key is present, and keeps null otherwise |
| Store.RestoredCampaigns | store.ts:56-62 | Mount loads the stored campaigns when the key is present, and keeps the seeds otherwise |
| Store.ReloadRestores | store.ts:56-71 | Storage that mirrors a state loads back exactly that user and those campaigns |
| Store.AppStore.constructor | store.ts:50-71 | A mount starts with the stored user, or none, and the stored campaigns, or the seeds, on the landing page; storage then holds both |
| Store.AppStore.SetUser | store.ts:65-67 | The user is replaced without validation; storage is rewritten unless the user stays null; campaigns and page are kept |
| Store.AppStore.SetPage | store.ts:98 | Any page is accepted, whoever is logged in; nothing else changes |
| Store.AppStore.AddCampaign | store.ts:73-75 | The new campaign becomes the head and the old list follows unchanged; storage holds the new list |
| Store.AppStore.UpdateCampaign | store.ts:77-79 | The list becomes its update by id, and storage holds it |
| Store.AppStore.DeleteCampaign | store.ts:81-83 | The list loses every campaign with the id, and storage holds it |
| Store.AppStore.Logout | store.ts:85-89 | No user, the landing page, campaigns untouched; a reload afterwards restores no user |
| Router.RenderPage | App.tsx:14-25 | The admin screen is only mounted for an admin, and the dashboard and creation screens only for a signed-in user |
| Router.Route | App.tsx:14-25 | A typed page shows its own screen, the login screen or the landing screen, and the admin screen only for an admin |
| Router.RouteFollowsPolicy | App.tsx:15-24 | Each page shows its own screen when its access requirement is met; otherwise a guest goes to login (signed-in pages) or to landing (admin) |
| Router.PublicPagesIgnoreUser | App.tsx:16-19 | Landing, login, register and verify show their screen whoever asks |
| Router.SignedInPages | App.tsx:20-21 | Dashboard and create show their screen if and only if a user is present, and login otherwise |
| Router.AdminPageGate | App.tsx:22 | The admin page shows the admin screen if and only if the user is an admin; anyone else sees landing |
| Router.UnknownPageShowsLanding | App.tsx:23 | An identifier that names no page shows landing |
| Router.SwitchShowsOtherMode | pages/Auth.tsx:111 | The link on an auth screen leads to the auth screen of the other mode |
| Router.AccessScenarios | App.tsx:20-22 | A signed-in non-admin asking for admin sees landing; a guest asking for the dashboard sees login |
| Auth.EmailLocalPart | pages/Auth.tsx:21 | The name taken from an email is its longest prefix without `@`, followed by `@` or the end |
| Auth.LocalPartOfAddress | pages/Auth.tsx:21 | The name of `local@domain` is `local` when `local` has no `@` |
| Auth.LocalPartWithoutAt | pages/Auth.tsx:21 | An email without `@` is its own name |
| Auth.NewUser | pages/Auth.tsx:17-24 | The new user's id is "user-" and the time; the email is copied; the user is admin if and only if the email contains "admin"; the user is never verified; the name is the form name when registering, or the email's local part when logging in |
| Auth.SwitchTarget | pages/Auth.tsx:111 | The link leads to the other mode's page, never to the current one |
| Auth.SwitchTwice | pages/Auth.tsx:111 | Following the link from the other mode comes back to this mode's page |
| Auth.AuthPage.constructor | pages/Auth.tsx:9-10 | The page starts with an empty form and not loading |
| Auth.AuthPage.HandleSubmit | pages/Auth.tsx:12-34 | Registering moves to verify and keeps user and storage; logging in stores the synthesised user, persists it and moves to the dashboard; loading ends off; campaigns are untouched |
| Auth.AuthPage.SwitchMode | pages/Auth.tsx:111 | The link shows the other mode's page; the mounted page takes the other mode and keeps its form and loading flag; the store changes only its page |
| Auth.SwitchThenSubmit | App.tsx:17-18 | After the switch from register to login, a submit logs in with the details typed for registering; the form is kept, loading ends off, the campaigns are untouched and storage holds the new user |
| Auth.ContinueToLogin | pages/Auth.tsx:135 | The verify page's button sets the login page and changes nothing else |
| Dashboard.Reduce | pages/Dashboard.tsx:26-29 | The `reduce` fold over non-negative counters never ends below its start |
| Dashboard.ReduceIsSum | pages/Dashboard.tsx:26-29 | The left-fold `reduce` from 0 equals the plain sum of the counter |
| Dashboard.DashboardTotals | pages/Dashboard.tsx:26-29 | Each of the four totals is the sum of its counter over all campaigns |
| Dashboard.TotalsEmpty | pages/Dashboard.tsx:26-29 | With no campaigns every total is 0 |
| Dashboard.TotalsNonNegative | pages/Dashboard.tsx:26-29 | Non-negative counters give non-negative totals |
| Dashboard.SumIgnoresStatus | pages/Dashboard.tsx:137 | A status change never moves a total |
| Dashboard.SumAfterDelete | pages/Dashboard.tsx:143 | With unique ids, deleting a campaign lowers each total by exactly its counter |
| Dashboard.Toggled | pages/Dashboard.tsx:137 | The button gives Paused if and only if the status was Active, and Active otherwise |
| Dashboard.ToggleTwice | pages/Dashboard.tsx:137 | Two clicks restore Active and Paused, but take Pending and Completed to Paused |
| Dashboard.ToggleClicked | pages/Dashboard.tsx:137 | With unique ids, a click changes the status of the clicked campaign only |
| Dashboard.DoubleToggleRestores | pages/Dashboard.tsx:137 | With unique ids, clicking twice on an Active or Paused campaign restores the whole list |
| Dashboard.DeleteClicked | pages/Dashboard.tsx:143 | The delete button removes the clicked campaign; with unique ids, exactly that one |
| Admin.Matches | pages/Admin.tsx:11-14 | A campaign matches when the lower-cased term occurs in its lower-cased name or platform label; every campaign matches the empty term |
| Admin.FilteredCampaigns | pages/Admin.tsx:11-14 | The search result is a subsequence of the campaigns; a campaign is in it if and only if it matches; matching campaigns keep their multiplicity |
| Admin.EmptyTermKeepsAll | pages/Admin.tsx:11-14 | An empty search term keeps every campaign |
| Admin.SearchIgnoresCase | pages/Admin.tsx:11-14 | Searching for the lower-cased term gives the same result as searching for the term itself |
| Admin.ActionSetsStatus | pages/Admin.tsx:124-138 | Activate, Pause and Complete set the status to Active, Paused and Completed on the campaigns with that id, and change nothing else |
| Admin.ActionIdempotent | pages/Admin.tsx:124-138 | Pressing the same button twice equals pressing it once |
| Admin.LastActionWins | pages/Admin.tsx:124-138 | After two buttons on the same campaign, only the last one counts |
| CreateCampaign.Interests | pages/CreateCampaign.tsx:61 | One interest per comma-separated part (one more than the commas), each part trimmed |
| CreateCampaign.InterestsOfEmpty | pages/CreateCampaign.tsx:61 | An empty field gives one empty interest |
| CreateCampaign.InterestsAreClean | pages/CreateCampaign.tsx:61 | No interest contains a comma or starts or ends with white space |
| CreateCampaign.InterestsOfList | pages/CreateCampaign.tsx:61 | Trimmed comma-free words joined by commas come back as those words |
| CreateCampaign.DesiredViews | pages/CreateCampaign.tsx:154 | The field stores the parsed integer, or 0 when `parseInt` gives NaN |
| CreateCampaign.DesiredViewsOfNumeral | pages/CreateCampaign.tsx:154 | A numeral is stored as its value |
| CreateCampaign.DesiredViewsNonNumeric | pages/CreateCampaign.tsx:154 | Text that does not start with white space, a sign or a digit is stored as 0 |
| CreateCampaign.NewCampaign | pages/CreateCampaign.tsx:49-66 | The new campaign is owned by the user; it has objective Views, status Pending and all counters 0; the other form fields are copied; the interests are split and trimmed |
| CreateCampaign.ObjectiveIgnored | pages/CreateCampaign.tsx:53 | The objective selected in the form makes no difference to the campaign |
| CreateCampaign.NewCampaignLeavesTotals | pages/CreateCampaign.tsx:65 | Adding a new campaign leaves every dashboard total unchanged |
| CreateCampaign.CreateCampaignPage.constructor | pages/CreateCampaign.tsx:13-23 | The form starts with the defaults: objective Views, TikTok, 1000 views, promote-and-suggest, ages 18-24, all genders, no interests |
| CreateCampaign.CreateCampaignPage.SetDesiredViews | pages/CreateCampaign.tsx:154 | The desired-views field takes the value of its text, and nothing else changes |
| CreateCampaign.CreateCampaignPage.HandleSubmit | pages/CreateCampaign.tsx:45-73 | Without a user nothing changes; otherwise the new campaign heads the store's list, success shows, the dashboard follows, and storage holds the list |

## Left out

- JSON encoding of storage: storage holds the parsed values the source writes with
  `JSON.stringify` and reads with `JSON.parse`. Malformed stored text, on which
  `JSON.parse` throws at mount, is not modelled.
- Timers: the simulated delays of the auth submit (1.5 s) and the creation submit
  (2 s) are modelled as immediate steps. Unmounting before the timer fires is not
  modelled.
- `Math.random()` ids and `Date.now()` / `new Date().toISOString()` timestamps are
  parameters of the operations that use them.
- The AI suggestion in the creation page calls an external service. It, its
  empty-name `alert`, and its loading and suggestion state are not part of this model.
- Rendering: JSX, progress percentages (`views / targetViews`, which is floating
  point), `toLocaleString` formatting, the chart,
  the landing page and the layout component are not part of this model.
- The context's error when used outside the provider (store.ts:109) is not
  modelled. Every page here is given the store.
- CreateCampaign.CreateCampaignPage.HandleSubmit and Auth.AuthPage.HandleSubmit:
  accept any form. The browser's form checks, which block the submit while they
  fail, are not modelled. These are `required` on the campaign name and media URL,
  and `required`, `type="number"`, `min="1"` on the desired views
  (pages/CreateCampaign.tsx:106,139,150-152). On the auth form they are `required`
  and `type="email"` (pages/Auth.tsx:57,70-71,82). The model therefore also admits
  an empty name or URL, desired views below 1 such as the 0 from
  `CreateCampaign.DesiredViews`, and a login email without `@`. These are inputs
  the running page never submits.
- Form field change handlers other than the desired-views field are plain record
  updates and are not modelled one by one.
- Text.ToLower: maps only the ASCII letters A-Z. Full Unicode case mapping is not modelled.
- Text.IsWhitespace: covers the ASCII white space, no-break space, byte-order mark
  and line/paragraph separators. It does not cover the other Unicode space separators.
- Text.ParseInt: `parseInt`'s hexadecimal `0x` prefix and the loss of
  precision above 2^53 are not modelled; digits are read in base 10 exactly.
- Integers are unbounded: analytics counters and totals do not model JavaScript
  number precision.
