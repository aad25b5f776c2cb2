# TenantHub admin dashboard: the state logic of its screens, in Dafny

TenantHub is a multi-tenant administration dashboard. A superadmin manages
tenants and companies, owners and superadmins manage coupons, and every
signed-in user sees notifications. The behaviour that is not rendering sits
in a few handlers and decision functions inside the React components. This
project models those and proves what they guarantee:

- **Coupon list** (`Coupons`): the `coupons` state and its three handlers.
  Add appends a coupon with a fresh id and the creation defaults. Edit merges
  the form into the selected coupon. Delete filters an id out. Also the
  case-insensitive search and the status badge. `CouponStore` is the
  component's state. Its methods replace the list as the handlers do and keep
  the invariant that ids are distinct.
- **Route gating** (`Routing`): the `ProtectedRoute` decision over the
  session's `loading` flag, its current user and a route's role list. Also
  the route table of `AppRoutes`, and what each role can reach.
- **Session** (`Auth`): the e-mail-based role classification, and the
  `currentUser` / `loading` / `error` steps of the email login, the Google
  login and logout. The identity provider's answer is an input.
- **Layout** (`Dashboard`): the per-role sidebar items, the sidebar toggle and
  the avatar initials. The initials are proved equal to an independent
  definition, the first character of every word.
- **Notifications** (`Notifications`): the unread count, mark one and mark
  all as read, the backend calls that mark-all makes, the type styles and the
  fetch guard.
- **Company and tenant lists** (`Companies`, `Tenants`): delete by id,
  add and edit handlers that change no list, search and badge.

Shared pieces: `Lists` gives JavaScript's `filter` and `map` with their
properties: membership, counts, order kept, pointwise results. `Text` gives
`toLowerCase`, `includes`, `startsWith`, and `split(" ")` / `join` with both
round trips. `Models` holds the records.

The code has no coupon redemption, no computed expiry, no checks on discount
values or dates, and no per-action permission function. A coupon's `status`
is whatever the edit form submits, `"expired"` included. The model follows
the code and contains none of these.

Two facts about the wiring that the model makes visible but does not change:
`App.tsx` never passes `userRole` to `DashboardLayout`, so the sidebar always
shows the default "user" items. Several sidebar links (`/dashboard/users`,
`/dashboard/settings`, `/dashboard/tasks`, ...) are not in the route table,
so `Routing.Route` sends them to "/" (`Routing.UnroutedRoleLinks`,
`Routing.UnroutedSuperAdminLinks`).

Paths are matched as the router's route patterns match them: the letter case
does not matter, and any number of trailing slashes is accepted.

## Model

| member | source | states |
|---|---|---|
| `Lists.Filter` | src/components/coupon/CouponManagement.tsx:249 | `filter` keeps exactly the elements that pass, no more elements than the input |
| `Lists.FilterIsSubsequence` | src/components/coupon/CouponManagement.tsx:249 | `filter` keeps the input's order |
| `Lists.FilterCounts` | src/components/coupon/CouponManagement.tsx:249 | `filter` keeps each passing value as often as it occurs and drops the others |
| `Lists.FilterKeepsAll` | src/components/coupon/CouponManagement.tsx:254-259 | when every element passes, `filter` returns the list itself |
| `Lists.Map` | src/components/coupon/CouponManagement.tsx:231-235 | `map` keeps the length, and element `i` is the function applied to input element `i` |
| `Lists.FilterPointwiseShrinks` | src/components/notifications/NotificationCenter.tsx:26 | when no element newly passes after a pointwise change, the filtered list does not grow |
| `Text.ToLower` | src/components/coupon/CouponManagement.tsx:256 | `toLowerCase` keeps the length and lower-cases each character |
| `Text.IncludesIffOccurs` | src/components/coupon/CouponManagement.tsx:256 | `includes` holds exactly when the needle occurs at some position |
| `Text.EmptyQueryMatches` | src/components/coupon/CouponManagement.tsx:256 | the empty query is contained in every string |
| `Text.SelfMatches` | src/components/coupon/CouponManagement.tsx:256 | a string matches itself, ignoring case |
| `Text.QueryCaseIrrelevant` | src/components/coupon/CouponManagement.tsx:256 | the query's letter case does not change the match |
| `Text.Split` | src/components/dashboard/DashboardLayout.tsx:243 | `split(" ")` yields at least one piece and no piece holds a space |
| `Text.JoinSplit` | src/components/dashboard/DashboardLayout.tsx:243 | joining the pieces of a split with spaces gives back the string |
| `Text.SplitJoin` | src/components/dashboard/DashboardLayout.tsx:243 | splitting a join of space-free pieces gives back the pieces |
| `Text.SplitAfterSpace` | src/components/dashboard/DashboardLayout.tsx:243 | a leading space splits off an empty first piece |
| `Coupons.Max` | src/components/coupon/CouponManagement.tsx:197 | the maximum bounds every id and is one of them when there are ids |
| `Coupons.NextId` | src/components/coupon/CouponManagement.tsx:196-198 | the new id is larger than every existing id, so it is fresh; an empty list gives 1 (see Findings) |
| `Coupons.AddAppendsFreshCoupon` | src/components/coupon/CouponManagement.tsx:176-199 | `Added`, the add handler's new list: add appends one coupon at the end and leaves the earlier ones as they were; the new id exceeds every existing id; `currentUses` 0, status "active", `createdBy` "admin", `createdAt` today, no purchase limits |
| `Coupons.AddNormalisesBlankFields` | src/components/coupon/CouponManagement.tsx:176-190 | `NewCoupon`: a zero `maxUses` becomes absent (unlimited); a missing or empty tenant or company becomes absent; the other form fields are copied |
| `Coupons.AddKeepsIdsDistinct` | src/components/coupon/CouponManagement.tsx:196-199 | add keeps the ids of the list distinct |
| `Coupons.EditKeepsBookkeeping` | src/components/coupon/CouponManagement.tsx:212-233 | `ApplyEdit`, the merge of the form into a coupon: edit keeps id, `currentUses`, `createdAt`, `createdBy`, `minPurchaseAmount`, `maxDiscountAmount`, and overwrites each form field |
| `Coupons.EditChangesOnlyTarget` | src/components/coupon/CouponManagement.tsx:230-236 | `Edited`, the edit handler's new list: edit keeps length, order and ids; changes exactly the coupons with the selected id; no selection changes nothing |
| `Coupons.EditKeepsIdsDistinct` | src/components/coupon/CouponManagement.tsx:230-236 | edit keeps the ids distinct |
| `Coupons.DeleteRemovesOnlyTarget` | src/components/coupon/CouponManagement.tsx:249 | `Without`, the delete handler's new list: delete removes every coupon with the id and keeps every other one, as often as it occurred, in order |
| `Coupons.DeleteKeepsIdsDistinct` | src/components/coupon/CouponManagement.tsx:249 | delete keeps the ids distinct |
| `Coupons.SubsequenceKeepsIdsDistinct` | src/components/coupon/CouponManagement.tsx:249 | removing coupons from a list with distinct ids keeps them distinct |
| `Coupons.SearchKeepsMatchesInOrder` | src/components/coupon/CouponManagement.tsx:254-259 | `FilteredCoupons` with `Matches`: search keeps, in order, exactly the coupons whose code or non-empty description contains the query ignoring case |
| `Coupons.EmptySearchShowsAll` | src/components/coupon/CouponManagement.tsx:254-259 | `FilteredCoupons`: an empty query shows every coupon |
| `Coupons.SearchFindsByCode` | src/components/coupon/CouponManagement.tsx:256 | `Matches`: a coupon is found by its own code in any letter case |
| `Coupons.BadgeVariantSeparatesStatuses` | src/components/coupon/CouponManagement.tsx:266-277 | `StatusBadgeVariant`: active, inactive and expired get default, secondary and destructive; "outline" is exactly for any other status |
| `Coupons.NextIdAsWrittenAgrees` | src/components/coupon/CouponManagement.tsx:196-198 | on a non-empty list the id computed as written equals `NextId` |
| `Coupons.JsMaxOfNumbers` | src/components/coupon/CouponManagement.tsx:197 | `Math.max` over the ids of a non-empty list is their maximum |
| `Coupons.EmptyListAddsDuplicateIds` | src/components/coupon/CouponManagement.tsx:196-199 | as written, two adds to an empty list both produce the id minus infinity |
| `Coupons.CouponStore.constructor` | src/components/coupon/CouponManagement.tsx:73-122 | the screen starts from a list with distinct ids and closed dialogs |
| `Coupons.CouponStore.AddCoupon` | src/components/coupon/CouponManagement.tsx:169-203 | the new list is the old one plus the new coupon with id `NextId`; ids stay distinct; the add dialog closes |
| `Coupons.CouponStore.EditCoupon` | src/components/coupon/CouponManagement.tsx:205-240 | the new list is the edited one, same length and ids; ids stay distinct; the edit dialog closes |
| `Coupons.CouponStore.DeleteCoupon` | src/components/coupon/CouponManagement.tsx:242-252 | the new list is the old one without the id; ids stay distinct |
| `Routing.ProtectedRouteDecision` | src/App.tsx:15-45 | `ProtectedRoute`: loading gives the placeholder whatever the user or roles; no user redirects to "/"; a non-null role outside a given list redirects to "/dashboard"; otherwise the page renders |
| `Routing.NullRoleOrNoListPasses` | src/App.tsx:36-44 | `ProtectedRoute` with `RoleRefused`: a null role passes every role list; a route without a list admits every signed-in user |
| `Routing.StripTrailingSlashes` | src/App.tsx:60-110 | the path with its trailing slashes dropped is a prefix of it and does not end in a slash |
| `Routing.StripDropsOnlySlashes` | src/App.tsx:60-110 | `StripTrailingSlashes` drops only slashes: every character past its result is a slash |
| `Routing.StripTrailingSlashesOfLower` | src/App.tsx:60-110 | lower-casing a path and dropping its trailing slashes can be done in either order |
| `Routing.SameIgnoringCaseTransfer` | src/App.tsx:60-110 | paths equal ignoring case match the same route patterns |
| `Routing.SameKeySameRoute` | src/App.tsx:60-110 | two paths equal ignoring case and trailing slashes reach the same route |
| `Routing.TrailingSlashIrrelevant` | src/App.tsx:60-110 | a trailing slash does not change the route a path reaches |
| `Routing.LetterCaseIrrelevant` | src/App.tsx:60-110 | the letter case of a path does not change the route it reaches |
| `Routing.TablePaths` | src/App.tsx:66-107 | `MatchedPage`, the table of guarded routes: the table's four guarded paths select the dashboard, tenant, company and coupon pages |
| `Routing.GuardedPagesNeedSession` | src/App.tsx:58-111 | `Route`, the route table of `AppRoutes`: a page other than home renders only for a signed-in user once loading is over; home renders only at "/" (or a run of slashes) without a user |
| `Routing.UserRoleRoutes` | src/App.tsx:66-107 | `Route` with `RequiredRoles`: "user" is sent to "/dashboard" from tenants, companies and coupons, and reaches the dashboard |
| `Routing.OwnerRoleRoutes` | src/App.tsx:66-107 | `Route` with `RequiredRoles`: "owner" reaches coupons and the dashboard only |
| `Routing.OwnerReachesCouponsWithSlash` | src/App.tsx:98-106 | `Route`: "owner" also reaches coupons at "/dashboard/coupons/" |
| `Routing.SuperAdminRoutes` | src/App.tsx:66-107 | `Route`: "superadmin" reaches every guarded page, whatever the case or trailing slashes of its path |
| `Routing.RootAndUnknownPaths` | src/App.tsx:60-110 | `Route`: "/" sends a signed-in user to "/dashboard"; a path matching no pattern of the table, ignoring case and trailing slashes, redirects to "/" |
| `Routing.UnroutedRoleLinks` | src/App.tsx:60-110 | `Route` on `Dashboard.RoleBlock`: every owner and user sidebar link after "Dashboard" matches no route and leads to "/" |
| `Routing.UnroutedSuperAdminLinks` | src/App.tsx:60-110 | `Route` on `Dashboard.RoleBlock`: the superadmin's "/dashboard/users" and "/dashboard/settings" links match no route and lead to "/" |
| `Routing.LoginEmailDecidesAccess` | src/App.tsx:36-42 | `Auth.SessionUser`, then `Route`: a user from a login always has a role; reaches tenants and companies iff the e-mail contains "admin", coupons iff it contains "admin" or "owner" |
| `Auth.RoleClassification` | src/contexts/AuthContext.tsx:43-56 | `UserRoleFor`, the model of `getUserRole`: superadmin iff the e-mail contains "admin"; owner iff it contains "owner" and not "admin"; "user" for no user, no e-mail or neither word |
| `Auth.IncludesInfix` | src/contexts/AuthContext.tsx:49-51 | a string contains each of its infixes |
| `Auth.AdminWinsOverOwner` | src/contexts/AuthContext.tsx:49-52 | `UserRoleFor`: an e-mail holding both words, in either order, is classified "superadmin" |
| `Auth.AuthSession.constructor` | src/contexts/AuthContext.tsx:59-61 | the provider starts with no user, `loading` true and no error |
| `Auth.AuthSession.SignIn` | src/contexts/AuthContext.tsx:108-162 | success stores the account with its classified role, "default-tenant" and "default-company" and clears the error; failure keeps the user, sets the message and re-throws; `loading` ends false |
| `Auth.AuthSession.LoginWithEmail` | src/contexts/AuthContext.tsx:108-136 | as `SignIn`, with the credentials message on failure |
| `Auth.AuthSession.LoginWithGoogle` | src/contexts/AuthContext.tsx:138-162 | as `SignIn`, with the Google message on failure |
| `Auth.AuthSession.Logout` | src/contexts/AuthContext.tsx:164-184 | a demo user is removed and the user cleared; otherwise a successful sign-out clears the user, a failed one keeps it, sets the message and re-throws; `loading` ends false |
| `Dashboard.SuperAdminMenuWellFormed` | src/components/dashboard/DashboardLayout.tsx:61-105 | `RoleBlock(SuperAdmin)` after `DashboardItem`: the superadmin's six items: "Dashboard" first, the others listing only "superadmin", every link under "/dashboard", no link twice |
| `Dashboard.OwnerMenuWellFormed` | src/components/dashboard/DashboardLayout.tsx:106-129 | `RoleBlock(Owner)` after `DashboardItem`: the owner's four items: "Dashboard" first, the others listing only "owner", every link under "/dashboard", no link twice |
| `Dashboard.UserMenuWellFormed` | src/components/dashboard/DashboardLayout.tsx:130-147 | `RoleBlock(User)` after `DashboardItem`: the user's three items: "Dashboard" first, the others listing only "user", every link under "/dashboard", no link twice |
| `Dashboard.SuperAdminMenuNames` | src/components/dashboard/DashboardLayout.tsx:72-105 | `RoleBlock(SuperAdmin)`: the superadmin's item names, in order |
| `Dashboard.OwnerMenuNames` | src/components/dashboard/DashboardLayout.tsx:108-129 | `RoleBlock(Owner)`: the owner's item names, in order |
| `Dashboard.UserMenuNames` | src/components/dashboard/DashboardLayout.tsx:132-147 | `RoleBlock(User)`: the user's item names, in order |
| `Dashboard.NavigationItems` | src/components/dashboard/DashboardLayout.tsx:61-150 | the items are `DashboardItem` followed by the role's `RoleBlock`, links included; "Dashboard" first; 6, 4 or 3 items by role with their names in order; every item lists the role and only it after the first; every href starts with "/dashboard" and the hrefs are distinct |
| `Dashboard.Sidebar.constructor` | src/components/dashboard/DashboardLayout.tsx:49 | the sidebar starts closed |
| `Dashboard.Sidebar.Toggle` | src/components/dashboard/DashboardLayout.tsx:56-58 | toggling negates `sidebarOpen` |
| `Dashboard.ToggleTwice` | src/components/dashboard/DashboardLayout.tsx:56-58 | toggling twice restores `sidebarOpen` |
| `Dashboard.FirstCharsAppend` | src/components/dashboard/DashboardLayout.tsx:244-245 | the first characters of two lists of pieces concatenate |
| `Dashboard.FirstCharsOfSplit` | src/components/dashboard/DashboardLayout.tsx:242-245 | `FirstChars` of `Split`: the first characters of the split pieces are the word starts of the string |
| `Dashboard.InitialsAreWordStarts` | src/components/dashboard/DashboardLayout.tsx:242-245 | `Initials`, the avatar fallback: the initials are the first character of each word, in order; empty pieces add nothing; no space, no longer than the name |
| `Dashboard.WordStartsBounds` | src/components/dashboard/DashboardLayout.tsx:242-245 | word starts hold no space and are no longer than the string |
| `Notifications.UnreadCountMeaning` | src/components/notifications/NotificationCenter.tsx:26 | `UnreadCount`: the unread count is at most the length and is zero exactly when every notification is read |
| `Notifications.MarkReadOnlyTarget` | src/components/notifications/NotificationCenter.tsx:48-53 | `MarkRead`, the mark-one update: mark-as-read changes only `read`, sets it exactly on the notifications with the id, keeps length and order |
| `Notifications.MarkReadNeverIncreasesUnread` | src/components/notifications/NotificationCenter.tsx:48-53 | `MarkRead` and `UnreadCount`: mark-as-read never raises the unread count |
| `Notifications.AllReadClearsUnread` | src/components/notifications/NotificationCenter.tsx:55-61 | `AllRead`, the mark-all update: after mark-all every notification is read, nothing else changed, the count is 0, and marking all again changes nothing |
| `Notifications.UnreadIdsMatchCount` | src/components/notifications/NotificationCenter.tsx:55-59 | `UnreadIds`: mark-all makes as many backend calls as there are unread notifications, none when all are read |
| `Notifications.TypeStylesSeparateKinds` | src/components/notifications/NotificationCenter.tsx:63-74 | `TypeStyles`: the four declared types get four different styles; every other type is styled as "info" (blue) |
| `Notifications.NotificationCenter.constructor` | src/components/notifications/NotificationCenter.tsx:22-23 | no notifications, popover closed, no backend calls |
| `Notifications.NotificationCenter.RequestMarkAsRead` | src/lib/firebase.ts:80-94 | one backend mark-as-read call is recorded with its id |
| `Notifications.NotificationCenter.HandleMarkAsRead` | src/components/notifications/NotificationCenter.tsx:48-53 | one backend call with the id, then the list marked for that id |
| `Notifications.NotificationCenter.HandleMarkAllAsRead` | src/components/notifications/NotificationCenter.tsx:55-61 | one backend call per unread notification in list order, none for read ones, then every notification marked read |
| `Notifications.NotificationCenter.FetchNotifications` | src/components/notifications/NotificationCenter.tsx:34-46 | without a user id nothing is fetched; otherwise the list becomes what the backend returned |
| `Notifications.NotificationCenter.OnDependenciesChanged` | src/components/notifications/NotificationCenter.tsx:28-32 | `ShouldFetch`: the effect fetches only with a user id and an open popover |
| `Notifications.NotificationCenter.SetOpen` | src/components/notifications/NotificationCenter.tsx:87 | sets `isOpen`; the fetch effect runs only when `isOpen` changed, and then fetches only with a user id and an open popover |
| `Companies.DeleteCompanyRemovesOnlyTarget` | src/components/company/CompanyManagement.tsx:153 | `CompaniesWithout`: delete removes every company with the id and keeps every other one, as often as it occurred, in order |
| `Companies.CompanySearchKeepsMatchesInOrder` | src/components/company/CompanyManagement.tsx:158-164 | `FilteredCompanies` with `CompanyMatches`: search keeps, in order, exactly the companies whose name, description or non-empty tenant name contains the query ignoring case |
| `Companies.EmptyCompanySearchShowsAll` | src/components/company/CompanyManagement.tsx:158-164 | `FilteredCompanies`: an empty query shows every company |
| `Companies.CompanySearchFindsByTenant` | src/components/company/CompanyManagement.tsx:162-163 | `CompanyMatches`: a company is found by its tenant's name in any letter case |
| `Companies.CompanyBadgeSeparatesStatuses` | src/components/company/CompanyManagement.tsx:316-320 | `CompanyBadge`: "default" exactly for active, "secondary" for inactive |
| `Companies.CompanyDirectory.constructor` | src/components/company/CompanyManagement.tsx:59-99 | the screen starts from its list with closed dialogs |
| `Companies.CompanyDirectory.AddCompany` | src/components/company/CompanyManagement.tsx:123-133 | the add dialog closes and the list is unchanged |
| `Companies.CompanyDirectory.EditCompany` | src/components/company/CompanyManagement.tsx:135-145 | the edit dialog closes and the list is unchanged |
| `Companies.CompanyDirectory.DeleteCompany` | src/components/company/CompanyManagement.tsx:147-156 | the new list is the old one without the id |
| `Tenants.DeleteTenantRemovesOnlyTarget` | src/components/tenant/TenantManagement.tsx:96-99 | `TenantsWithout`: delete removes every tenant with the id and keeps every other one, as often as it occurred, in order |
| `Tenants.TenantSearchKeepsMatchesInOrder` | src/components/tenant/TenantManagement.tsx:101-105 | `FilteredTenants` with `TenantMatches`: search keeps, in order, exactly the tenants whose name or description contains the query ignoring case |
| `Tenants.EmptyTenantSearchShowsAll` | src/components/tenant/TenantManagement.tsx:101-105 | `FilteredTenants`: an empty query shows every tenant |
| `Tenants.TenantBadgeSeparatesStatuses` | src/components/tenant/TenantManagement.tsx:200-204 | `TenantBadge`: "default" exactly for active, "secondary" for inactive |
| `Tenants.TenantDirectory.constructor` | src/components/tenant/TenantManagement.tsx:54-82 | the screen starts from its list with closed dialogs |
| `Tenants.TenantDirectory.AddTenant` | src/components/tenant/TenantManagement.tsx:84-88 | the add dialog closes and the list is unchanged |
| `Tenants.TenantDirectory.EditTenant` | src/components/tenant/TenantManagement.tsx:90-94 | the edit dialog closes and the list is unchanged |
| `Tenants.TenantDirectory.DeleteTenant` | src/components/tenant/TenantManagement.tsx:96-99 | the new list is the old one without the id |

## Findings

| source | as written | input that shows it | evidently intended | confidence | as-written member | corrected member |
|---|---|---|---|---|---|---|
| src/components/coupon/CouponManagement.tsx:196-198 | the new id is `Math.max(...ids) + 1`; with no coupons `Math.max()` is minus infinity, and minus infinity plus one is still minus infinity, stored as "-Infinity" | delete every coupon, then add two: both get the id "-Infinity", so a later edit or delete of one also hits the other | a new coupon gets an id no other coupon has (1 for an empty list) | not executed | `Coupons.EmptyListAddsDuplicateIds` | `Coupons.NextId` |

The store's `AddCoupon` uses the corrected `NextId`. `Coupons.NextIdAsWrittenAgrees`
proves that the two agree on every non-empty list.

## Left out

- Rendering, icons, dialogs' open/close triggers and `FormData` extraction: a form is an already-parsed `CouponForm`. The dialog flags are kept only where a handler closes them.
- `Number(...)` parsing: `NaN` and the float encoding are not modelled. Amounts are `real`, and a blank number field stands as zero.
- The `setTimeout` delays and `isLoading` toggles. Each handler's update is applied to the list as it is when the update runs. So the model does not capture two handlers whose delays overlap, where the later update overwrites the earlier one from a stale copy of the list.
- Notifications.NotificationCenter.HandleMarkAsRead: applies its update to the current list in one step. The handler awaits the backend and then maps the list it captured at the click. So the model does not capture two overlapping clicks, where the later update restores the earlier notification to unread.
- Notifications.NotificationCenter.HandleMarkAllAsRead: applies its final update to the current list in one step. The handler maps the list it captured before its backend calls. So the model does not capture a fetch or a single mark that completes during those calls and is then overwritten.
- Routing.Route: matches letter case for ASCII letters only, and does not model percent-decoding of the path or repeated slashes inside it.
- Coupon ids are whole numbers. A non-numeric id string, and the string conversion itself, are outside the model.
- `toLowerCase` is modelled for ASCII letters only; the full Unicode case mapping is not.
- Dashboard.Initials: takes the first character of each word. JavaScript's `n[0]` takes the first UTF-16 code unit, which for a character outside the Basic Multilingual Plane (an emoji, say) is half of a surrogate pair; strings here are sequences of characters, not of code units.
- `applicableProducts` and `applicableCategories` of a coupon: no screen sets or reads them.
- The mock seed lists: each screen's constructor takes its initial list as a parameter.
- The `onAuthStateChanged` subscription and the restore of a demo user from local storage (JSON parsing, which is also where a null role can come from). Logout's check of local storage is the `demoUserStored` flag.
- Auth.AuthSession.SignIn: states the state after the handler, not the intermediate render with `loading` true.
- `getUserRole` reads the provider's current user. The model takes the e-mail of the account that just signed in.
- The `VITE_TEMPO` extra routes of `AppRoutes`, and `handleLogout` of the layout, which only navigates to "/".
- Date formatting (`toLocaleDateString`, `Intl.DateTimeFormat`) and `createdAt` from the clock: the date is a parameter.
- The backend SDK wrappers (src/lib/supabase.ts, src/lib/firebase.ts): a fetch result is an input, and mark-as-read calls are recorded in order. Their success flag is ignored by the handlers and not modelled.
- src/components/home.tsx and src/components/dashboard/Dashboard.tsx: presentation only.
