# Pulse front end: session store, token form, explore list and page state

Pulse is a React front end for a creator-token platform. It is mostly presentation.
This project models the pieces of it that are sequential logic and proves what they do:

- **Session store** (`useAuth`). It holds either no user or one `User`. `login` replaces the
  user, `logout` clears it, and `updateProfile` shallow-merges a partial record when a user is
  present. Every change is written through to the single storage slot `"pulse-user"`, which is
  read once at mount. `Session.SessionStore` is a class with the fields `user` and `slot`. Each
  method is proved to perform a pure step on `Session.Store`. The lemmas about those steps state
  the invariant `slot == user` and the reload round trip. The JSON encoding of the slot is
  abstracted away.
- **Token creation form** (`TokenCreationForm`). The schema is a per-field rule `RuleHolds`
  with the exact bounds of the source:
  - name 2..50, symbol 2..10 (upper-cased on parse), description 10..500;
  - the mode and curve-type enums;
  - base price at least 0.001, royalty 0..10, seed liquidity absent or at least 0;
  - each social link empty or a URL.

  `Parse` returns the upper-cased record or the list of failing fields. The model also covers
  the keystroke upper-casing of the symbol, field visibility by mode, the defaults and the cost
  summary. Whether a string is a URL is a parameter (`isUrl`) of the validator.
- **Explore list** (`ExplorePage`). It covers:
  - the case-insensitive substring-and-category filter;
  - the keyed sort on a copy, modelled as an insertion sort that keeps tokens of equal rank in
    their input order, like the stable `Array.prototype.sort` (`Explore.SortOnStable`);
  - the holder total and the "token"/"tokens" label.
- **Route/tab mappings** of the admin and user dashboards, the admin status badge classes and the
  flagged-only ban button. Each page's `selectedTab` is a class field. A `Routing.Router` holds
  the current pathname that `navigate` changes.
- **Navigation bar**. It covers the role-driven menus, badge label, exact-path highlighting, the
  creator-only button and the logout-then-navigate handler.
- **Profile and Settings pages**. Each is a class holding its form record, updated one field or
  key at a time, plus the `isLoading` flag around the simulated save. Saving the profile pushes
  the form into the session store's merge.

Where the code and its design description differ, the model follows the code:

- The role literal for ordinary users is `'user'`, not `'investor'`. In the model it is
  `Role.Investor`.
- `updateProfile` accepts any field of `User`, including `type`, `id` and `principal`. So a profile
  update can change the role (`Session.MergeCanChangeRole`).
- A malformed storage slot makes `JSON.parse` throw. There is no recovery that treats it as
  logged out, and the model has none either.
- In fixed mode the Initial Liquidity input is hidden. Its default value of 10 is still added to
  the displayed creation cost (`TokenForm.HiddenLiquidityCounted`).

## Model

| member | source | states |
|---|---|---|
| Session.MergeFields | src/hooks/useAuth.tsx:47-51 | a merge takes every field the patch supplies and keeps every other field of the user |
| Session.MergeNoChanges | src/hooks/useAuth.tsx:49 | merging an empty patch leaves the user as it is |
| Session.MergeIdempotent | src/hooks/useAuth.tsx:49 | applying the same patch twice equals applying it once |
| Session.MergeThen | src/hooks/useAuth.tsx:49 | two successive merges equal one merge of the combined patch, the later patch winning |
| Session.MergeCanChangeRole | src/hooks/useAuth.tsx:21 | a patch may set the role to any value, since `Partial<User>` admits `type` |
| Session.AuthenticatedAfter | src/hooks/useAuth.tsx:37-57 | after an action the store is authenticated exactly when it was a login, or a profile update of an authenticated store; logout always signs out |
| Session.Start | src/hooks/useAuth.tsx:27 | the store starts with no user and the slot as found |
| Session.MountRestores | src/hooks/useAuth.tsx:29-35 | after mount the user is the stored value, the store is in sync, and it is authenticated exactly when something was stored |
| Session.LoginReplaces | src/hooks/useAuth.tsx:37-40 | login sets the user to exactly the given user with no merge with an earlier login, and leaves the store authenticated |
| Session.LogoutIdempotent | src/hooks/useAuth.tsx:42-45 | logout clears the user and the slot; logging out twice equals logging out once |
| Session.UpdateWhenSignedOut | src/hooks/useAuth.tsx:47-48 | with no user, updateProfile changes neither the user nor the slot |
| Session.UpdateWhenSignedIn | src/hooks/useAuth.tsx:47-53 | with a user, updateProfile stores the merged user and persists it |
| Session.OperationsKeepSynced | src/hooks/useAuth.tsx:37-53 | login, logout, updateProfile and a later mount all preserve slot == user |
| Session.ReloadAfterLogin | src/hooks/useAuth.tsx:31-40 | a fresh mount after login(u) yields the user u |
| Session.ReloadAfterUpdateOrLogout | src/hooks/useAuth.tsx:31-53 | a fresh mount after an update yields the persisted record, and after logout yields no user |
| Session.RunKeepsSynced | src/hooks/useAuth.tsx:27-53 | after mount, any sequence of login/logout/updateProfile keeps slot == user, and a reload restores the last user |
| Session.SessionStore.constructor | src/hooks/useAuth.tsx:27 | a new provider holds no user and the given slot |
| Session.SessionStore.IsAuthenticated | src/hooks/useAuth.tsx:57 | the flag agrees with the state of the store |
| Session.SessionStore.Mount | src/hooks/useAuth.tsx:29-35 | the mount effect performs the Mounted step and leaves a fresh store in sync |
| Session.SessionStore.Login | src/hooks/useAuth.tsx:37-40 | performs the LoggedIn step: the user is u and the slot equals it |
| Session.SessionStore.Logout | src/hooks/useAuth.tsx:42-45 | performs the LoggedOut step: no user and an empty slot |
| Session.SessionStore.UpdateProfile | src/hooks/useAuth.tsx:47-53 | performs the Updated step and preserves slot == user |
| Session.ReloadScenario | src/hooks/useAuth.tsx:31-40 | logging in and then mounting a new store on the same slot restores the user |
| TokenForm.Issues | src/components/TokenCreationForm.tsx:48-64 | a field is reported if and only if its rule fails |
| TokenForm.Parse | src/components/TokenCreationForm.tsx:48-64 | accepts exactly the valid records, returning the record with its symbol upper-cased; otherwise returns a non-empty list of exactly the failing fields |
| TokenForm.ValidIff | src/components/TokenCreationForm.tsx:49-63 | a record is valid if and only if all the length, enum, numeric and link rules hold, with the source's bounds |
| TokenForm.UnconstrainedFields | src/components/TokenCreationForm.tsx:53-62 | the total supply and the NFT switch never cause a rejection |
| TokenForm.OnSymbolInput | src/components/TokenCreationForm.tsx:186 | a keystroke stores the typed text with each character upper-cased, so the result is upper-case and of the same length |
| TokenForm.TypedSymbolKept | src/components/TokenCreationForm.tsx:50 | a valid record whose symbol was typed through the field parses to itself |
| TokenForm.VisibilityByMode | src/components/TokenCreationForm.tsx:271-451 | total supply is shown exactly when initial liquidity is hidden, curve type only alongside initial liquidity, and amm shows liquidity without curve type |
| TokenForm.DefaultsMeetOtherRules | src/components/TokenCreationForm.tsx:79-94 | the default values meet every rule except those on name, symbol and description |
| TokenForm.DefaultsReported | src/components/TokenCreationForm.tsx:79-94 | the unchanged defaults are rejected, with exactly name, symbol and description reported |
| TokenForm.CreationCost | src/components/TokenCreationForm.tsx:530-551 | the total is the platform fee 0.1 plus gas 0.01 plus the seed liquidity when it is set and non-zero |
| TokenForm.CostOfValidForm | src/components/TokenCreationForm.tsx:541-551 | for a valid form the total is at least 0.11, and above 0.11 exactly when the liquidity line is shown |
| TokenForm.HiddenLiquidityCounted | src/components/TokenCreationForm.tsx:448-551 | in fixed mode the liquidity input is hidden, yet the default 10 is still counted: the total is 10.11 |
| Text.UpperNormalises | src/components/TokenCreationForm.tsx:186 | upper-casing yields an upper-case string and is idempotent |
| Text.LowerIdempotent | src/pages/ExplorePage.tsx:160-162 | lower-casing twice equals lower-casing once |
| Text.IncludesEmpty | src/pages/ExplorePage.tsx:160-162 | every string includes the empty string |
| Text.SlicePrefix | src/pages/Profile.tsx:124 | `slice(0, n)` is the first n characters, or the whole string when shorter |
| Text.SliceSuffix | src/pages/Profile.tsx:124 | `slice(-n)` is the last n characters, or the whole string when shorter |
| Explore.Filter | src/pages/ExplorePage.tsx:159-165 | a token is kept if and only if it is in the list and matches both the search and the category, and a matching token is kept as many times as it occurs |
| Explore.EmptyQueryMatches | src/pages/ExplorePage.tsx:160-162 | an empty query matches every token |
| Explore.FilterNothing | src/pages/ExplorePage.tsx:159-165 | an empty query with category "all" returns the list unchanged |
| Explore.FilterAllCategories | src/pages/ExplorePage.tsx:163 | category "all" keeps exactly the tokens matching the search |
| Explore.FilterIsSubsequence | src/pages/ExplorePage.tsx:159 | the filtered list is a subsequence of the tokens in their original order |
| Explore.CompareByRank | src/pages/ExplorePage.tsx:167-181 | the comparator of every sort key is the difference of one numeric rank |
| Explore.Sort | src/pages/ExplorePage.tsx:167 | the sorted copy is a permutation of its input, in rank order |
| Explore.SortOnStable | src/pages/ExplorePage.tsx:167-181 | the tokens of any one rank appear in the sorted list in their input order |
| Explore.SortIdempotent | src/pages/ExplorePage.tsx:167-181 | sorting a sorted list changes nothing |
| Explore.SortedTokensSpec | src/pages/ExplorePage.tsx:159-181 | the displayed list is a permutation of the filtered list, in key order, holding exactly the matching tokens |
| Explore.SortOrders | src/pages/ExplorePage.tsx:167-181 | price_high gives non-increasing price, price_low non-decreasing price, change non-increasing change, and any other key non-increasing volume |
| Explore.SumHoldersAppend | src/pages/ExplorePage.tsx:373 | the holder total splits over a concatenation |
| Explore.SumHoldersBounds | src/pages/ExplorePage.tsx:373 | the holder total is at least each token's holders |
| Explore.TokensLabel | src/pages/ExplorePage.tsx:345 | the label is "tokens" exactly when more than one token was created |
| AdminDashboard.PathToTab | src/pages/AdminDashboard.tsx:47-54 | a path maps to one of the five tabs: "/users" wins over "/tokens", over "/revenue", over "/system", and overview exactly when the path contains none of them |
| AdminDashboard.TabToPath | src/pages/AdminDashboard.tsx:57-64 | overview maps to "/admin" and any other tab to "/admin/" + tab |
| AdminDashboard.TabRoundTrip | src/pages/AdminDashboard.tsx:47-64 | for each of the five tabs, mapping it to a path and back returns the tab |
| AdminDashboard.UsersPath | src/pages/AdminDashboard.tsx:49 | "/admin/users" selects users |
| AdminDashboard.TokensPath | src/pages/AdminDashboard.tsx:50 | "/admin/tokens" selects tokens |
| AdminDashboard.RevenuePath | src/pages/AdminDashboard.tsx:51 | "/admin/revenue" selects revenue |
| AdminDashboard.SystemPath | src/pages/AdminDashboard.tsx:52 | "/admin/system" selects system |
| AdminDashboard.BareAdminPath | src/pages/AdminDashboard.tsx:53 | "/admin" falls through to overview |
| AdminDashboard.OverviewPath | src/pages/AdminDashboard.tsx:53 | "/admin/overview" falls through to overview |
| AdminDashboard.StatusColor | src/pages/AdminDashboard.tsx:147-159 | active/verified give the success class, pending warning, flagged destructive, anything else secondary, each in both directions |
| AdminDashboard.BanMatchesBadge | src/pages/AdminDashboard.tsx:351 | the ban button is offered exactly for the tokens whose badge is destructive, that is the flagged ones |
| AdminDashboard.AdminDashboardPage.constructor | src/pages/AdminDashboard.tsx:44 | the page starts on overview |
| AdminDashboard.AdminDashboardPage.OnPathChange | src/pages/AdminDashboard.tsx:47-54 | the route effect selects the tab of the path |
| AdminDashboard.AdminDashboardPage.HandleTabChange | src/pages/AdminDashboard.tsx:57-64 | selects the tab, navigates to its path, and that path maps back to the tab |
| UserDashboard.PathToTab | src/pages/UserDashboard.tsx:31-36 | a path maps to one of the three tabs: "/trades" wins over "/watchlist", and portfolio exactly when the path contains neither |
| UserDashboard.TabToPath | src/pages/UserDashboard.tsx:39-46 | portfolio maps to "/dashboard" and any other tab to "/dashboard/" + tab |
| UserDashboard.TabRoundTrip | src/pages/UserDashboard.tsx:31-46 | for each of the three tabs, mapping it to a path and back returns the tab |
| UserDashboard.DashboardPath | src/pages/UserDashboard.tsx:35 | "/dashboard" selects portfolio |
| UserDashboard.TradesPath | src/pages/UserDashboard.tsx:33 | "/dashboard/trades" selects trades |
| UserDashboard.WatchlistPath | src/pages/UserDashboard.tsx:34 | "/dashboard/watchlist" selects watchlist |
| UserDashboard.PortfolioLinkPath | src/pages/UserDashboard.tsx:35 | "/portfolio" selects portfolio |
| UserDashboard.PortfolioTabPath | src/pages/UserDashboard.tsx:35 | "/dashboard/portfolio" selects portfolio |
| UserDashboard.UserDashboardPage.constructor | src/pages/UserDashboard.tsx:28 | the page starts on portfolio |
| UserDashboard.UserDashboardPage.OnPathChange | src/pages/UserDashboard.tsx:31-36 | the route effect selects the tab of the path |
| UserDashboard.UserDashboardPage.HandleTabChange | src/pages/UserDashboard.tsx:39-46 | selects the tab, navigates to its path, and that path maps back to the tab |
| Navigation.MenuPaths | src/components/Navigation.tsx:39-60 | creators get /creator, /creator/tokens, /creator/analytics; admins /admin, /admin/users, /admin/tokens, /admin/analytics; everyone else /dashboard, /explore, /portfolio |
| Navigation.MenusHaveDistinctPaths | src/components/Navigation.tsx:85 | the item paths of every menu are pairwise distinct |
| Navigation.AtMostOneActive | src/components/Navigation.tsx:88 | with exact-path highlighting, no two items of a menu are highlighted at once |
| Navigation.BadgeLabel | src/components/Navigation.tsx:75 | "Admin" exactly for admins, "Creator" exactly for creators, "Beta" exactly otherwise |
| Navigation.CreateTokenForCreatorsOnly | src/components/Navigation.tsx:113 | the Create Token button appears exactly when the badge reads "Creator", that is with the creator menu |
| Navigation.HandleLogout | src/components/Navigation.tsx:34-37 | logs out the store and then navigates to "/login" |
| Profile.SetField | src/pages/Profile.tsx:47-49 | sets the chosen field to the value and leaves the other five unchanged |
| Profile.InitialForm | src/pages/Profile.tsx:36-43 | each of the six form fields holds the user's field, with '' for a missing field or no user |
| Profile.SaveMerges | src/pages/Profile.tsx:56 | saving writes all six form fields into the user, '' included, and keeps id, principal, role and avatar |
| Profile.SaveThenReopen | src/pages/Profile.tsx:36-56 | reopening the page after a save shows exactly the saved form |
| Profile.UnchangedFormSavesNothingNew | src/pages/Profile.tsx:36-56 | saving an untouched form leaves a user with all optional fields set unchanged |
| Profile.BioCountFollowsEdits | src/pages/Profile.tsx:47-49 | editing the bio sets the counter to the new text's length, and editing any other field leaves it unchanged |
| Profile.BioLimitNotEnforced | src/pages/Profile.tsx:51-63 | a bio longer than 160 characters is still saved |
| Profile.AvatarOnly | src/pages/Profile.tsx:65-68 | the avatar change updates only the avatar |
| Profile.PrincipalLabel | src/pages/Profile.tsx:124 | a missing principal shows "..."; a present one shows its first 8 characters (all of it when shorter), "...", and its last 4 characters (all of it when shorter) |
| Profile.PrincipalLabelShapes | src/pages/Profile.tsx:124 | first 8 characters, "...", last 4; a principal of 12 or more characters shows 15; a short one repeats under JS slice clamping |
| Profile.ProfilePage.constructor | src/pages/Profile.tsx:36-45 | the form starts from the store's user and the page is not loading |
| Profile.ProfilePage.HandleInputChange | src/pages/Profile.tsx:47-49 | updates one field of the form and nothing else |
| Profile.ProfilePage.HandleSave | src/pages/Profile.tsx:51-53 | sets the loading flag and keeps the form |
| Profile.ProfilePage.SaveTimerFired | src/pages/Profile.tsx:55-62 | the store performs an update with the form, loading ends, and a signed-in user's form reopens unchanged |
| Profile.ProfilePage.HandleAvatarChange | src/pages/Profile.tsx:65-73 | the store performs an update of the avatar alone |
| Settings.DefaultsShape | src/pages/Settings.tsx:48-59 | the record has exactly the ten keys, with emailNotifications on, twoFactorAuth off and currency USD |
| Settings.Changed | src/pages/Settings.tsx:63-65 | sets the key to the value and leaves every other key unchanged |
| Settings.ChangesCompose | src/pages/Settings.tsx:63-65 | a second change of the same key overrides the first, and changes of different keys commute |
| Settings.TwoFactorBadgeFollowsSwitch | src/pages/Settings.tsx:157-165 | the "Enabled" badge is shown exactly when the switch was last set on |
| Settings.SettingsPage.constructor | src/pages/Settings.tsx:48-61 | the page starts with the defaults and not loading |
| Settings.SettingsPage.HandleSettingChange | src/pages/Settings.tsx:63-65 | changes one key of the record |
| Settings.SettingsPage.HandleSave | src/pages/Settings.tsx:67-69 | sets the loading flag and keeps the settings |
| Settings.SettingsPage.SaveTimerFired | src/pages/Settings.tsx:71-77 | clears the loading flag, keeps the settings and gives a non-destructive notice |
| Settings.SettingsPage.HandleExportData | src/pages/Settings.tsx:80-86 | gives the export notice and changes no state |
| Settings.SettingsPage.HandleDeleteAccount | src/pages/Settings.tsx:88-95 | gives a destructive notice and changes no state |

## Left out

- Browser storage and JSON: the slot is an `Option<User>`, and `JSON.stringify`/`JSON.parse` are taken to round-trip. The uncaught throw of `JSON.parse` on a malformed slot is not modelled.
- React machinery is not modelled: context, effect scheduling, re-rendering, subscriber notification, stale closures, and the throw of `useAuth` outside its provider. The model assumes each handler sees the current state.
- Timers and simulated latency are not modelled. Each `setTimeout` callback is a separate method (`SaveTimerFired`) that the caller invokes later. Toast texts are kept only where a contract mentions them.
- Navigation.HandleLogout: the store and the router are separate objects, so the order of the two calls is not observable in its contract. Only the final state is stated.
- `src/pages/Login.tsx` is not part of this model, because it generates identifiers from randomness and the clock.
- `src/pages/CreatorDashboard.tsx`, `src/pages/Index.tsx`, `src/components/CyberpunkTokenButton.jsx` and the route table of `src/App.tsx` are not part of this model. They hold fixtures and presentation only.
- Floating-point aggregates and number formatting are not modelled: `toFixed`, `toLocaleString`, the average change, the volume total, the portfolio gain and loss, and the creator totals. Numbers are exact reals, so NaN, infinities and rounding are absent.
- The fixed list of mock tokens and creators is not modelled. The explore operations take any list of tokens.
- The token form's `onSubmit` is not modelled, that is the creating flag, the reset and closing the dialog.
- zod's URL check is the parameter `isUrl`. Upper- and lower-casing map ASCII letters only, and lengths count characters, not UTF-16 code units.
- Session.Merge: a `Partial<User>` whose key is present with the value `undefined` is not modelled. A patch field is either supplied with a value or absent.
- Profile.SetField: `handleInputChange` accepts any string key. The model restricts it to the six form fields the page uses, so no stray key can be added to the form.
- Settings.Changed: a setting value is a boolean or a string, as the handler's signature allows.
- The notification counter and the search box of the navigation bar are not modelled, since they have no behaviour.
