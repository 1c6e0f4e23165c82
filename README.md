# Restaurant admin app: a verified model of its state logic

The restaurant admin app is a back-office front end for a restaurant: menus,
categories, tables, orders, reservations, payments and sales reports. It
ships twice: a React single-page app and a jQuery multi-page app. Beneath
the markup, both hold a few small state machines and decision functions.
This project models those in Dafny and proves what they guarantee.

| module (file) | models |
|---|---|
| `Common` (common.dfy) | The JavaScript behaviour the rest relies on: truthiness of optional strings and numbers, `a \|\| b`, ASCII `toLowerCase`, `trim` over the ECMAScript white-space set, `includes`, `startsWith`, decimal rendering of a number, and `Array.prototype.filter`/`findIndex` with their algebra. |
| `Fetch` (fetch.dfy) | `useFetch` and `usePaginatedFetch`: the `data`/`loading`/`error` cells and the pagination record, which classes update in place. Each request is a `Begin` step and a `ResolveSuccess`/`ResolveFailure` step. Navigation is specified by pure functions on `Pagination`. The effect that refetches when page or limit changes is a log of issued queries. |
| `Auth` (auth.dfy) | `AuthProvider`: the `user`, the `loading` flag, the `localStorage` token slot and the navigation target are fields of `Store`. It covers startup restore, the mock credential check in `login`, and `logout`. |
| `RouteGuard` (route_guard.dfy) | `ProtectedRoute`: a pure decision over the session with four outcomes. |
| `MenuCatalogue` (menu_catalogue.dfy) | The menu page's module arrays `categories` and `menus`. It covers the three filters, the per-category count loop, the sort by display order, and the local updates after save, delete, reorder and availability toggle. |
| `Form` (form.dfy) | `useForm`: values, errors, touched fields and the submitting flag, with every handler. |
| `Utils` (utils.js helpers: utils.dfy) | `truncateText`, `calculatePercentage`, `getStatusColorClass`, and the phone and e-mail recognisers, written as hand-made recognisers of the two regular expressions. |
| `DataTable` (datatable.dfy) | The status badge, the `{data}` cell template, the action buttons, the date-range row predicate and the dropdown search pattern. |
| `Api` (api.dfy) | Request options for JSON calls and uploads, the error rule of `handleResponse`, and every endpoint of the service groups. |
| `Sidebar` (sidebar.dfy) | The React sidebar's navigation table, which uses roles `admin`/`kasir`, and its role filter. |
| `DashboardLayout` (dashboard_layout.dfy) | The dashboard layout's navigation table, which uses roles `owner`/`cashier`; the role badge; the active-entry test; and logout. |
| `SidebarContext` (sidebar_context.dfy) | The two sidebar flags with their toggles, and the provider check of `useSidebar`. |
| `DashboardStatus` (dashboard_status.dfy) | The jQuery dashboard's case-sensitive order-status switches. |

Where the code changes state in place, the model is a class with those
fields. Each method is proved against a pure transition function on a
snapshot of the fields: `State() == F(old(State()))`. The lemmas are stated
about those functions. Where the code is a pure lookup or expression, the
model is a function, and its contract says what the result means.

Some behaviour comes from outside the modelled code. Each such input is a
parameter:
- the responses of the API client;
- how the confirmation dialogs end;
- the DOM reads of the filter controls;
- `Date` parsing;
- regex escaping.

Several guarantees one would expect of this layer are absent from the code.
The model follows the code:
- **No supersession or cancellation.** Nothing stops a superseded request, or one whose view was unmounted, from writing its result. The hooks keep no request token, so whichever request settles last writes last.
- **A failure keeps the data.** A failed request does not reset `data` to `null`; the code never clears `data`.
- **No pagination invariant.** Neither `totalPages == ceil(total / limit)` nor a page kept in range holds in general.
  - `changeLimit` leaves `totalPages` stale and accepts any limit (`Fetch.ChangeLimitLeavesTotalPagesStale`, `Fetch.ChangeLimitAcceptsZero`).
  - A server response can install an out-of-range page (`Fetch.ResponseMayLeaveRange`).
  - Navigation does keep an in-range page in range (`Fetch.NavigationKeepsPageInRange`).
- **Two role vocabularies.** The React sidebar grants `admin`/`kasir`, but the session store issues `owner` (login) and `cashier` (restore). The sidebar takes its user from `hooks/useAuth`, which is not part of this model: if that hook hands out the session store's users, they see no entry at all (`Sidebar.SessionUsersSeeNothing`). The sidebar is mounted only by `Layout.jsx`, which `App.jsx` does not route to; `App.jsx` mounts the dashboard layout. The dashboard layout uses `owner`/`cashier` and agrees with the route guard (`DashboardLayout.ReportsEntryMatchesGuard`).

## Model

| member | source | states |
|---|---|---|
| Common.ToLower | src/js/pages/menu.js:283 | `toLowerCase` keeps the length and lowercases each character on its own (ASCII letters only). |
| Common.Trim | src/js/pages/menu.js:283 | `trim` returns a factor of its input that neither starts nor ends with white space, everything cut off being white space. |
| Common.BlankTrimsToEmpty | src/js/pages/menu.js:283 | A string of white space only trims to ''. |
| Common.Includes | src/js/pages/menu.js:303-304 | `includes` holds iff the text occurs at some position. |
| Common.StartsWith | src/components/layouts/DashboardLayout.jsx:60 | `startsWith`: the text begins with the prefix; characterised by DashboardLayout.ActiveIffExtends. |
| Common.Filter | src/js/pages/menu.js:290-305 | `filter` keeps exactly the elements passing the test, in their order (with Common.FilterIsSubsequence). |
| Common.FirstIndex | src/js/pages/menu.js:377 | `findIndex`: the first position passing the test, or -1 iff none does. |
| Common.NatToString | src/js/services/api.js:52 | `${n}` for a status code: a non-empty string of decimal digits without a leading zero. |
| Common.DecimalValueOfNatToString | src/js/services/api.js:52 | Reading the rendering back as decimal digits gives the number itself, so the rendering names `n`. |
| Fetch.ErrorMessage | src/hooks/useFetch.js:28-30 | The error is the payload `message` when truthy, else the exception message when truthy, else "An error occurred"; it is never empty. |
| Fetch.Single.constructor | src/hooks/useFetch.js:12-14 | A single fetch starts with no data, loading, and no error. |
| Fetch.Single.Begin | src/hooks/useFetch.js:18-19 | Starting a request raises `loading`, clears `error` and keeps `data`. |
| Fetch.Single.ResolveSuccess | src/hooks/useFetch.js:26-27 | Success stores and returns the response data and ends loading. |
| Fetch.Single.ResolveFailure | src/hooks/useFetch.js:28-33 | Failure returns null, keeps `data`, sets the chosen message and ends loading. |
| Fetch.RowsOf | src/hooks/useFetch.js:76 | The rows are `response.data.data`, or `[]` when absent. |
| Fetch.PaginationOf | src/hooks/useFetch.js:77-82 | Each pagination field is the server's value when truthy, else 1/10/0/0. |
| Fetch.GoToPage | src/hooks/useFetch.js:97-101 | The page becomes n exactly when 1 ≤ n ≤ totalPages; limit, total and totalPages never change. |
| Fetch.NextPage | src/hooks/useFetch.js:103-105 | One page forward from a page between 0 and below the last page; no change at or past the last page or from a negative page. |
| Fetch.PrevPage | src/hooks/useFetch.js:107-109 | One page back from pages 2 to totalPages+1; no change at page 1. |
| Fetch.ChangeLimit | src/hooks/useFetch.js:111-113 | The limit becomes n and the page 1; total and totalPages are kept. |
| Fetch.EffectRequests | src/hooks/useFetch.js:93-95 | A request is issued exactly when page or limit changed, and it is for the new (page, limit). |
| Fetch.Paginated.constructor | src/hooks/useFetch.js:51-59 | No rows, loading, no error, pagination 1/10/0/0, nothing requested yet. |
| Fetch.Paginated.Begin | src/hooks/useFetch.js:61-64 | A request for the query is logged, loading rises and the error clears; data and pagination are kept. |
| Fetch.Paginated.Mount | src/hooks/useFetch.js:93-95 | The mount effect requests the current page and limit. |
| Fetch.Paginated.Refetch | src/hooks/useFetch.js:61 | `refetch()` with no arguments requests page 1, limit 10. |
| Fetch.Paginated.Commit | src/hooks/useFetch.js:93-95 | Installing a pagination record requests the new page and limit iff either changed. |
| Fetch.Paginated.ResolveSuccess | src/hooks/useFetch.js:76-90 | Success installs the defaulted rows and pagination, and requests again when page or limit changed. |
| Fetch.Paginated.ResolveFailure | src/hooks/useFetch.js:85-90 | Failure returns null, keeps rows and pagination, sets the message and ends loading. |
| Fetch.Paginated.GoTo | src/hooks/useFetch.js:97-101 | The new pagination is GoToPage of the old one, together with the effect's request; when a request is issued loading is set and error cleared, otherwise both are kept. |
| Fetch.Paginated.Next | src/hooks/useFetch.js:103-105 | The new pagination is NextPage of the old one, together with the effect's request; when a request is issued loading is set and error cleared, otherwise both are kept. |
| Fetch.Paginated.Prev | src/hooks/useFetch.js:107-109 | The new pagination is PrevPage of the old one, together with the effect's request; when a request is issued loading is set and error cleared, otherwise both are kept. |
| Fetch.Paginated.SetLimit | src/hooks/useFetch.js:111-113 | The new pagination is ChangeLimit of the old one, together with the effect's request; when a request is issued loading is set and error cleared, otherwise both are kept. |
| Fetch.NavigationKeepsPageInRange | src/hooks/useFetch.js:97-113 | Any sequence of navigation calls keeps 1 ≤ page ≤ max(1, totalPages). |
| Fetch.NavigationKeepsTotals | src/hooks/useFetch.js:97-113 | No navigation call changes total or totalPages. |
| Fetch.EmptyResultPinsPage | src/hooks/useFetch.js:97-109 | With totalPages 0, page moves never change anything. |
| Fetch.ChangeLimitLeavesTotalPagesStale | src/hooks/useFetch.js:111-113 | After a limit change totalPages can disagree with ceil(total/limit). |
| Fetch.ChangeLimitAcceptsZero | src/hooks/useFetch.js:111-113 | A limit of 0 is stored as given. |
| Fetch.ResponseMayLeaveRange | src/hooks/useFetch.js:77-82 | A server response can install a page beyond totalPages. |
| Auth.MockAuthenticate | src/context/AuthContext.jsx:59-76 | Login succeeds iff the credentials are admin/password; it then yields the mock token and an owner user, and otherwise fails with "Invalid credentials". |
| Auth.LandingPath | src/context/AuthContext.jsx:85-89 | Owner and cashier land on /dashboard; every other role lands on /. |
| Auth.Initial | src/context/AuthContext.jsx:12-13 | Initially there is no user, loading is on, the stored token is kept, and no children render. |
| Auth.StartRestore | src/context/AuthContext.jsx:16-26 | The mount effect waits for the lookup iff a truthy token is stored; otherwise loading ends. |
| Auth.Logout | src/context/AuthContext.jsx:99-106 | Logout clears token and user and targets /login. |
| Auth.ResolveRestore | src/context/AuthContext.jsx:28-50 | A resolved lookup sets the user; a rejected one logs out; loading ends either way. |
| Auth.BeginLogin | src/context/AuthContext.jsx:55 | Login first raises loading. |
| Auth.FinishLogin | src/context/AuthContext.jsx:78-96 | Success stores the token and user and navigates by role; failure changes only loading, which ends either way. |
| Auth.Store.constructor | src/context/AuthContext.jsx:12-13 | The store starts in the initial session. |
| Auth.Store.IsAuthenticated | src/context/AuthContext.jsx:113 | Authenticated iff a user is present. |
| Auth.Store.StartupCheck | src/context/AuthContext.jsx:16-26 | The store applies the mount effect and reports whether a lookup is pending. |
| Auth.Store.FinishStartup | src/context/AuthContext.jsx:28-50 | The store applies the lookup's outcome. |
| Auth.Store.StartLogin | src/context/AuthContext.jsx:55 | The store raises loading. |
| Auth.Store.CompleteLogin | src/context/AuthContext.jsx:78-96 | The store applies the login outcome and rethrows a rejection. |
| Auth.Store.SignIn | src/context/AuthContext.jsx:53-97 | A whole login against the mock check. |
| Auth.Store.SignOut | src/context/AuthContext.jsx:99-106 | The store's state becomes Logout of the old state. |
| Auth.Store.Navigate | src/components/layouts/DashboardLayout.jsx:13 | Navigation changes only the target location. |
| Auth.NoTokenStartup | src/context/AuthContext.jsx:18-25 | Startup without a token ends loading with no user, and children render. |
| Auth.TokenStartup | src/context/AuthContext.jsx:28-50 | Startup with a token ends with the mock cashier user, or logged out when the lookup fails. |
| Auth.LogoutIdempotent | src/context/AuthContext.jsx:99-106 | Logging out twice gives the same state as once. |
| Auth.MockLoginOutcome | src/context/AuthContext.jsx:53-97 | admin/password gives the owner with the mock token at /dashboard; other credentials change nothing but loading. |
| Auth.Login | src/context/AuthContext.jsx:53-97 | A whole `login` is BeginLogin then FinishLogin on the mock check; its outcomes are stated by Auth.MockLoginOutcome. |
| Auth.TransitionsKeepConsistent | src/context/AuthContext.jsx:16-106 | Every transition keeps "a user is present only with a stored token". |
| RouteGuard.Decide | src/utils/ProtectedRoute.jsx:4-24 | Exactly one outcome: Loading iff loading; RedirectLogin iff loaded with no user; RedirectUnauthorized iff the role differs from a truthy required role; Allow otherwise. |
| RouteGuard.Target | src/utils/ProtectedRoute.jsx:13-20 | Redirects go to /login and /unauthorized; the other outcomes navigate nowhere. |
| RouteGuard.AllowIffAuthenticated | src/utils/ProtectedRoute.jsx:13-23 | Without a required role, a loaded session is allowed iff authenticated. |
| RouteGuard.WrongRoleIsUnauthorized | src/utils/ProtectedRoute.jsx:18-20 | An authenticated user whose role differs from the required role goes to /unauthorized. |
| RouteGuard.OwnerLoginScenario | src/App.jsx:50-56 | After the mock login the reports route is allowed and a cashier-only route is refused. |
| RouteGuard.RestoredSessionLosesReports | src/context/AuthContext.jsx:37 | A session restored from a token (role cashier) is refused the owner-only reports route. |
| RouteGuard.StartupShowsPlaceholder | src/utils/ProtectedRoute.jsx:8-10 | While the restore is pending, every route shows the loading placeholder. |
| MenuCatalogue.IndexOfCategory | src/js/pages/menu.js:377 | The first category with the id, or -1 iff none has it. |
| MenuCatalogue.IndexOfMenu | src/js/pages/menu.js:709 | The first menu with the id, or -1 iff none has it. |
| MenuCatalogue.ByCategory | src/js/pages/menu.js:289-291 | A chosen category keeps exactly the menus with that category id; an empty choice keeps all. |
| MenuCatalogue.ByAvailability | src/js/pages/menu.js:294-298 | 'tersedia' keeps available menus, 'habis' unavailable ones, anything else keeps all. |
| MenuCatalogue.BySearch | src/js/pages/menu.js:301-306 | A menu is kept iff its lowercased name or description contains the term; an empty term keeps all. |
| MenuCatalogue.FilterMenus | src/js/pages/menu.js:280-306 | `filterMenus`: the category, availability and search filters in that order over the trimmed, lowercased term; characterised by the next three rows. |
| MenuCatalogue.FilterMenusIsOneFilter | src/js/pages/menu.js:280-310 | The three filters together are one filter by the conjunction, over the trimmed, lowercased term. |
| MenuCatalogue.FilterMenusMembership | src/js/pages/menu.js:280-310 | A menu is shown iff it is in the list and passes every active filter. |
| MenuCatalogue.FilterMenusKeepsOrder | src/js/pages/menu.js:280-310 | The shown menus keep the list's order. |
| MenuCatalogue.NoFilterShowsAll | src/js/pages/menu.js:283-306 | No category, no availability filter and a search box holding only white space show every menu, in order. |
| MenuCatalogue.CountByCategory | src/js/pages/menu.js:139-142 | The loop's dictionary gives each category its number of menus: present iff positive, read as 0 when absent. |
| MenuCatalogue.CountIsFilterLength | src/js/pages/menu.js:150 | The displayed count is the number of menus referencing the category. |
| MenuCatalogue.CountIn | src/js/pages/menu.js:139-142 | The number of menus with the category id, never more than the menus; tied to the filter by MenuCatalogue.CountIsFilterLength. |
| MenuCatalogue.DisplayedCount | src/js/pages/menu.js:150 | `categoryCounts[id] \|\| 0`; equal to CountIn by MenuCatalogue.CountByCategory. |
| MenuCatalogue.CountPositiveIffReferenced | src/js/pages/menu.js:139-142 | A count is positive iff some menu references the category. |
| MenuCatalogue.Insert | src/js/pages/menu.js:136 | One insertion step of the sort keeps the multiset of categories. |
| MenuCatalogue.InsertSorted | src/js/pages/menu.js:136 | Inserting into a sorted list keeps it sorted by display order. |
| MenuCatalogue.SortByOrder | src/js/pages/menu.js:136 | The sort gives a permutation ordered by display order. |
| MenuCatalogue.InsertKeepsTies | src/js/pages/menu.js:136 | An insertion step keeps the categories of each display order in the order they had with the new one in front. |
| MenuCatalogue.SortByOrderIsStable | src/js/pages/menu.js:136 | The sort is stable, as ECMAScript's `Array.prototype.sort` is: for every display order, its categories appear in their input order. |
| MenuCatalogue.LastIndex | src/js/pages/menu.js:554-557 | The last position of an id in the reordered list, or -1 iff absent. |
| MenuCatalogue.ReorderedOrder | src/js/pages/menu.js:565-570 | The order a category ends with: the last listed position + 1 of its id if it is the first category with that id, else its old order; pinned down by ReorderedPosition and ReorderedUnlisted. |
| MenuCatalogue.ReorderedPosition | src/js/pages/menu.js:554-570 | A listed category (ids distinct) gets display order position + 1. |
| MenuCatalogue.ReorderedUnlisted | src/js/pages/menu.js:565-570 | A category not in the list keeps its display order. |
| MenuCatalogue.ReorderLoopStep | src/js/pages/menu.js:565-570 | Each update of the loop preserves the reorder invariant. |
| MenuCatalogue.Catalogue.constructor | src/js/pages/menu.js:12-13 | Both arrays start empty. |
| MenuCatalogue.Catalogue.Load | src/js/pages/menu.js:85-121 | Loading replaces both arrays with the fetched lists. |
| MenuCatalogue.Catalogue.SortCategories | src/js/pages/menu.js:136 | The categories are sorted in place, as a permutation; menus are untouched. |
| MenuCatalogue.Catalogue.SaveCategory | src/js/pages/menu.js:375-384 | An edit replaces the element at the first matching index (no change if absent); an add appends exactly the result. |
| MenuCatalogue.Catalogue.SaveMenu | src/js/pages/menu.js:707-716 | An edit replaces the element at the first matching index (no change if absent); an add appends exactly the result. |
| MenuCatalogue.Catalogue.DeleteCategory | src/js/pages/menu.js:406-446 | Refused iff a menu references the category, cancelled when not confirmed, otherwise exactly the entries with that id are removed; menus never change. |
| MenuCatalogue.Catalogue.DeleteMenu | src/js/pages/menu.js:737-768 | A confirmed delete removes exactly the menus with the id; a cancelled one changes nothing. |
| MenuCatalogue.Renumber | src/js/pages/menu.js:554-570 | The loop over the updates: the first category carrying each listed id gets that id's last position + 1, every other category keeps its order, and nothing else about any category changes. |
| MenuCatalogue.Catalogue.SaveReorderedCategories | src/js/pages/menu.js:554-570 | The categories become the renumbered list and the menus are untouched. |
| MenuCatalogue.Catalogue.ToggleMenuAvailability | src/js/pages/menu.js:776-792 | The first matching menu's availability flips and nothing else changes; an unknown id changes nothing. |
| Form.ErrorOf | src/hooks/useForm.js:36 | A missing key reads as no error. |
| Form.Initial | src/hooks/useForm.js:12-15 | Values are the initial values; errors and touched are empty; not submitting. |
| Form.Reset | src/hooks/useForm.js:18-23 | Reset gives the initial state. |
| Form.EventValue | src/hooks/useForm.js:27-28 | A checkbox contributes `checked`, any other input `value`. |
| Form.ClearError | src/hooks/useForm.js:36-41 | A shown error of the field becomes null; other errors are untouched. |
| Form.Change | src/hooks/useForm.js:26-42 | `handleChange` stores the event's value (`checked` for a checkbox) and clears that field's error; stated by Form.ChangeHidesError. |
| Form.SetField | src/hooks/useForm.js:45-58 | Only the named field's value is set, and only its error is cleared. |
| Form.Blur | src/hooks/useForm.js:61-78 | The field becomes touched; its error is set only when the validator reports a truthy message; errors are never cleared. |
| Form.BeginSubmit | src/hooks/useForm.js:81-102 | With a validator, errors become its output and every value key becomes touched; submitting starts iff no key is reported. |
| Form.Proceeds | src/hooks/useForm.js:97-102 | Submission goes ahead without a validator or when it reports no key; used by Form.FormHook.HandleSubmit and Form.SubmittedFormIsClean. |
| Form.FinishSubmit | src/hooks/useForm.js:109-111 | Submitting ends, whether onSubmit resolved or threw. |
| Form.ErrorMessage | src/hooks/useForm.js:115-122 | A message is returned iff the field is touched with a truthy error, and it is that error. |
| Form.HasError | src/hooks/useForm.js:115-117 | `hasError`: the field is touched and its message is truthy; Form.ErrorMessage returns a message exactly when it holds. |
| Form.FormHook.constructor | src/hooks/useForm.js:11-15 | The hook starts in the initial state with nothing submitted. |
| Form.FormHook.ResetForm | src/hooks/useForm.js:18-23 | The hook's state becomes Reset of the old state. |
| Form.FormHook.HandleChange | src/hooks/useForm.js:26-42 | The hook's state becomes Change of the old state. |
| Form.FormHook.SetFieldValue | src/hooks/useForm.js:45-58 | The hook's state becomes SetField of the old state. |
| Form.FormHook.HandleBlur | src/hooks/useForm.js:61-78 | The hook's state becomes Blur of the old state. |
| Form.FormHook.HandleSubmit | src/hooks/useForm.js:81-105 | onSubmit is called with the values iff validation lets the submission through. |
| Form.FormHook.SubmitSettled | src/hooks/useForm.js:109-111 | Submitting ends. |
| Form.FormHook.GetErrorMessage | src/hooks/useForm.js:120-122 | The hook's message is ErrorMessage of its state. |
| Form.ChangeHidesError | src/hooks/useForm.js:26-42 | After a change the field shows no error, holds the new value, and other fields are unchanged. |
| Form.BlockedSubmitShowsErrors | src/hooks/useForm.js:85-99 | A blocked submission shows each invalid field's message and does not start submitting. |
| Form.NullMessageStillBlocks | src/hooks/useForm.js:97-99 | A reported key blocks the submission even when its message is null, though no error is shown. |
| Form.SubmittedFormIsClean | src/hooks/useForm.js:85-102 | A submission that goes ahead shows no errors. |
| Form.BlurWithoutValidator | src/hooks/useForm.js:61-69 | Without a validator, blur only marks the field touched. |
| Form.SubmitCycleEndsIdle | src/hooks/useForm.js:102-111 | A full submit cycle ends not submitting, with the values kept. |
| Form.ResetForgetsHistory | src/hooks/useForm.js:18-23 | A reset makes every earlier history look the same and shows no error. |
| Utils.TruncateText | src/js/services/utils.js:55-59 | Empty text gives ''; text within the limit (default 50) is kept; longer text is its prefix plus '...'. |
| Utils.TruncateBound | src/js/services/utils.js:58 | For a non-negative limit the result never exceeds limit + 3. |
| Utils.CalculatePercentage | src/js/services/utils.js:123-126 | 0 for a zero total; otherwise the integer nearest 100·value/total, with halves rounded up. |
| Utils.PercentageIsUnique | src/js/services/utils.js:125 | The rounding bound determines the result uniquely. |
| Utils.PercentageExamples | src/js/services/utils.js:123-126 | 1 of 2 is 50, 1 of 3 is 33, 2 of 3 is 67, and a zero total gives 0. |
| Utils.StatusColorClass | src/js/services/utils.js:133-166 | Each class is chosen iff the lowercased status is in its group; grey iff in none. |
| Utils.StatusColorClassIgnoresCase | src/js/services/utils.js:134 | The colour does not depend on letter case. |
| Utils.StatusColorClassExample | src/js/services/utils.js:134-141 | "Paid" is green. |
| Utils.StripPhoneSeparators | src/js/services/utils.js:214 | No '-' or white space remains and the result is no longer than the input. |
| Utils.StripKeepsOthers | src/js/services/utils.js:214 | A character occurs in the stripped number exactly when it occurs in the input and is not a separator. |
| Utils.StripAppend | src/js/services/utils.js:214 | Stripping separators distributes over concatenation. |
| Utils.PhonePattern | src/js/services/utils.js:213 | Accepts iff the text splits into a +62/62/0 prefix, '8', a digit 1-9, and 7 to 11 more digits. |
| Utils.PhoneSplitOnly | src/js/services/utils.js:213 | The prefix split is determined by the leading characters. |
| Utils.ValidatePhone | src/js/services/utils.js:212-216 | A phone is valid iff the stripped text matches the pattern. |
| Utils.SeparatorIgnored | src/js/services/utils.js:214 | Inserting a separator anywhere never changes the verdict. |
| Utils.PhoneAccepted | src/js/services/utils.js:212-216 | 081234567890 is accepted. |
| Utils.PhoneRefused | src/js/services/utils.js:212-216 | 0712345678 is refused. |
| Utils.ValidateEmail | src/js/services/utils.js:223-226 | Accepts iff the text is non-empty-local '@' domain, the domain has a '.' with text on both sides, and neither side holds white space or a second '@'. |
| Utils.EmailAccepted | src/js/services/utils.js:223-226 | admin@restoran.com is accepted. |
| Utils.EmailNeedsDot | src/js/services/utils.js:224 | An address without '.' is refused. |
| Utils.EmailRefusesWhitespace | src/js/services/utils.js:224 | An address with white space is refused. |
| DataTable.BadgeClass | src/js/components/datatable.js:176-197 | The class for the lowercased status from the table, else 'badge-info'. |
| DataTable.BadgeText | src/js/components/datatable.js:187-198 | The Indonesian text for the lowercased status, else the status as given. |
| DataTable.TablesAgreeOnKeys | src/js/components/datatable.js:176-195 | The class and text tables list the same statuses, so every known status has both a colour and a label. |
| DataTable.BadgeIgnoresCase | src/js/components/datatable.js:197-198 | A known status gets the same badge in any letter case. |
| DataTable.StatusFormatter | src/js/components/datatable.js:174-201 | The badge span with BadgeClass and BadgeText; its known and unknown cases are the next rows. |
| DataTable.KnownStatusBadge | src/js/components/datatable.js:176-198 | Every status the tables list, spelt as listed, gets its table colour and label (tersedia: badge-success, Tersedia; habis: badge-danger, Habis). |
| DataTable.UnknownStatusBadge | src/js/components/datatable.js:197-200 | An unknown status renders as an info badge with its own spelling. |
| DataTable.ReplaceAll | src/js/components/datatable.js:162 | `replace(/{data}/g, …)` for a literal pattern: left to right, non-overlapping; characterised by the Replace* rows. |
| DataTable.ReplaceWithoutMatch | src/js/components/datatable.js:162 | A template without `{data}` is unchanged by the replacement. |
| DataTable.ReplaceBySelf | src/js/components/datatable.js:162 | Replacing the placeholder by itself changes nothing. |
| DataTable.ReplaceKeepsLength | src/js/components/datatable.js:162 | A replacement as long as the placeholder keeps the length. |
| DataTable.CellFormatter | src/js/components/datatable.js:159-166 | Outside display mode the data is returned; a template without `{data}` is returned as is; in display mode every `{data}` becomes the data (DataTable.CellFillsEveryPlaceholder). |
| DataTable.CellFillsPlaceholder | src/js/components/datatable.js:161-162 | A template with one `{data}` shows the data in its place. |
| DataTable.JoinWith | src/js/components/datatable.js:162 | Pieces glued with a separator: the shape of a template with a placeholder between consecutive pieces. |
| DataTable.ReplaceJoined | src/js/components/datatable.js:162 | Replacing a pattern in pieces joined by it, none containing the pattern's first character, gives the pieces joined by the replacement. |
| DataTable.CellFillsEveryPlaceholder | src/js/components/datatable.js:162 | In display mode, a template of `{`-free pieces joined by `{data}` renders as the same pieces joined by the data: every `{data}` is replaced, not only the first. |
| DataTable.ButtonList | src/js/components/datatable.js:212-224 | One button per action, in order, each carrying the row id. |
| DataTable.ButtonHtml | src/js/components/datatable.js:216-223 | One action's button: its class, name and title around `data-id`; stated by DataTable.ButtonCarriesId. |
| DataTable.Buttons | src/js/components/datatable.js:212-225 | `buttons.join('')`: the buttons' markup in action order; stated by DataTable.ButtonsAppend. |
| DataTable.ButtonsAppend | src/js/components/datatable.js:212-226 | The button markup of two action lists is the concatenation of each list's markup. |
| DataTable.ButtonCarriesId | src/js/components/datatable.js:216-223 | Every button carries `data-id` with the row id. |
| DataTable.RowId | src/js/components/datatable.js:213 | The id is `row.id` when truthy, else the cell data. |
| DataTable.ActionFormatter | src/js/components/datatable.js:208-228 | '' outside display mode; otherwise the wrapped buttons for the row id. |
| DataTable.DateInRange | src/js/components/datatable.js:102-126 | Both bounds empty keep every row; two bounds are an inclusive range; one bound is an inclusive one-sided check. |
| DataTable.InclusiveRange | src/js/components/datatable.js:117-119 | With valid dates the row is kept iff min ≤ date ≤ max. |
| DataTable.InvalidRowDateHidden | src/js/components/datatable.js:117-125 | With any bound set, an unparsable row date hides the row. |
| DataTable.InvalidBoundHidesAll | src/js/components/datatable.js:117-122 | An unparsable lower bound hides every row. |
| DataTable.DropdownPattern | src/js/components/datatable.js:88-91 | '' for no selection, otherwise the anchored `^value$`. |
| Api.HeaderValue | src/js/services/api.js:17-29 | A header is found iff one with that name is in the list, and the value is that header's. |
| Api.AuthHeaders | src/js/services/api.js:26-29 | Authorization is 'Bearer ' + token iff a truthy token is stored. |
| Api.JsonHeaders | src/js/services/api.js:19-29 | Content-Type and Accept are application/json, Authorization iff a token, and no other header is present. |
| Api.CreateFetchOptions | src/js/services/api.js:16-37 | Content-Type and Accept are always application/json; Authorization iff a token; no other header; a body iff data is given and the method is POST or PUT. |
| Api.UploadOptions | src/js/services/api.js:120-136 | An upload is a POST whose only headers are Accept and the same Authorization rule (no Content-Type, nothing else), with the form data as body. |
| Api.AuthorizationIffToken | src/js/services/api.js:26-29 | JSON requests and uploads send the same Authorization header, present iff a token exists. |
| Api.ReadsCarryNoBody | src/js/services/api.js:32-34 | GET and DELETE never carry a body. |
| Api.HandleResponse | src/js/services/api.js:45-57 | An OK response yields the payload; otherwise the error is the payload `message` when truthy, else 'HTTP error <status>', never empty. |
| Api.NotFoundMessage | src/js/services/api.js:52 | A 404 without message reads 'HTTP error 404'. |
| Api.Offered | src/js/services/api.js:143-249 | Which calls the endpoint groups define; stated by Api.MissingOperations. |
| Api.Endpoint | src/js/services/api.js:143-249 | The endpoint path each group function requests; stated by Api.ItemEndpoints, Api.DateRangeQuery and the Api.Default* rows. |
| Api.MethodOf | src/js/services/api.js:81-112 | The HTTP method each group function's helper (get, post, put, del) uses; stated by Api.BodyIffWrite. |
| Api.DataOf | src/js/services/api.js:91-104 | The data a post or put passes on; none for get and del; stated by Api.BodyIffWrite. |
| Api.RequestOptions | src/js/services/api.js:81-112 | The options `fetchApi` receives for a call; stated by Api.BodyIffWrite and Api.EveryRequestAuthorized. |
| Api.RequestUrl | src/js/services/api.js:67 | Every request URL starts with the base URL. |
| Api.BodyIffWrite | src/js/services/api.js:81-112 | A call sends a body iff its method is POST or PUT. |
| Api.EveryRequestAuthorized | src/js/services/api.js:26-29 | Every call sends Authorization iff a token is stored. |
| Api.ItemEndpoints | src/js/services/api.js:143-148 | getById, update and delete address collection + '/' + id, status updates add '/status', create addresses the collection. |
| Api.DateRangeQuery | src/js/services/api.js:175 | Date-range lookups append `?startDate=…&endDate=…` to the collection, after the base URL. |
| Api.DefaultTopItemsLimit | src/js/services/api.js:223 | Asking for top items without a limit requests the same URL as asking with limit 5. |
| Api.DefaultRecentOrdersLimit | src/js/services/api.js:224 | Asking for recent orders without a limit requests the same URL as asking with limit 5. |
| Api.DefaultGrouping | src/js/services/api.js:247 | Sales by time without a grouping requests the same URL as grouping by 'day'. |
| Api.MissingOperations | src/js/services/api.js:143-214 | Orders and payments cannot be deleted; tables and categories have no status endpoint; some groups lack date ranges. |
| Sidebar.FilteredNavItems | src/components/layouts/Sidebar.jsx:73-76 | No user gives no entries; otherwise an entry is kept iff its access list contains the role, in table order. |
| Sidebar.StaffItemsAccess | src/components/layouts/Sidebar.jsx:21-70 | Eight entries: the first seven open to admin and kasir, Reports to admin only. |
| Sidebar.AdminSeesAll | src/components/layouts/Sidebar.jsx:21-76 | admin sees all eight entries. |
| Sidebar.KasirSeesAllButReports | src/components/layouts/Sidebar.jsx:21-76 | kasir sees every entry but Reports. |
| Sidebar.OtherRolesSeeNothing | src/components/layouts/Sidebar.jsx:26-75 | Any other role sees no entry. |
| Sidebar.SessionUsersSeeNothing | src/components/layouts/Sidebar.jsx:75 | The owner and cashier users the session store issues see no entry. |
| DashboardLayout.RoleOf | src/components/layouts/DashboardLayout.jsx:32 | `user?.role` is undefined without a user. |
| DashboardLayout.FilteredNavItems | src/components/layouts/DashboardLayout.jsx:31-33 | An entry is kept iff there is a user whose role is in its access list, in table order. |
| DashboardLayout.StaffItemsAccess | src/components/layouts/DashboardLayout.jsx:19-28 | Eight entries: seven open to owner and cashier, /reports to owner only. |
| DashboardLayout.NoUserNoItems | src/components/layouts/DashboardLayout.jsx:31-33 | Without a user the list is empty. |
| DashboardLayout.OwnerSeesAll | src/components/layouts/DashboardLayout.jsx:19-33 | owner sees all eight entries. |
| DashboardLayout.CashierSeesAllButReports | src/components/layouts/DashboardLayout.jsx:19-33 | cashier sees all entries but /reports. |
| DashboardLayout.ReportsEntryMatchesGuard | src/components/layouts/DashboardLayout.jsx:27 | The reports entry is shown exactly to the role the reports route requires. |
| DashboardLayout.RoleBadge | src/components/layouts/DashboardLayout.jsx:99 | 'Owner' iff the role is owner, otherwise 'Kasir'. |
| DashboardLayout.IsActive | src/components/layouts/DashboardLayout.jsx:60 | `location.pathname.startsWith(item.path)`; stated by DashboardLayout.ActiveIffExtends. |
| DashboardLayout.ActiveIffExtends | src/components/layouts/DashboardLayout.jsx:60 | An entry is highlighted iff the pathname extends the entry's path. |
| DashboardLayout.HandleLogout | src/components/layouts/DashboardLayout.jsx:11-14 | Logout then navigation to /login leaves the state Logout gives. |
| SidebarContext.ToggleSidebar | src/context/SidebarContext.jsx:9-11 | Flips `collapsed` only. |
| SidebarContext.ToggleMobileSidebar | src/context/SidebarContext.jsx:13-15 | Flips `mobileOpen` only. |
| SidebarContext.CloseMobileSidebar | src/context/SidebarContext.jsx:17-19 | Closes the drawer and leaves `collapsed` alone. |
| SidebarContext.TogglesAreInvolutions | src/context/SidebarContext.jsx:9-15 | Toggling twice restores the flags. |
| SidebarContext.CloseIsIdempotent | src/context/SidebarContext.jsx:17-19 | Closing twice is closing once. |
| SidebarContext.TogglesCommute | src/context/SidebarContext.jsx:9-19 | The two flags are independent. |
| SidebarContext.Provider.constructor | src/context/SidebarContext.jsx:6-7 | Both flags start false. |
| SidebarContext.Provider.Toggle | src/context/SidebarContext.jsx:9-11 | The provider's flags become ToggleSidebar of the old ones. |
| SidebarContext.Provider.ToggleMobile | src/context/SidebarContext.jsx:13-15 | The provider's flags become ToggleMobileSidebar of the old ones. |
| SidebarContext.Provider.CloseMobile | src/context/SidebarContext.jsx:17-19 | The provider's flags become CloseMobileSidebar of the old ones. |
| SidebarContext.UseSidebar | src/context/SidebarContext.jsx:36-41 | The context is returned iff a provider is above; otherwise the fixed error. |
| DashboardStatus.GetStatusClass | src/js/pages/dashboard.js:366-381 | The five statuses get the data table's classes; every other spelling gets badge-info. |
| DashboardStatus.GetStatusText | src/js/pages/dashboard.js:386-401 | The five statuses get the data table's labels; every other status is returned unchanged. |
| DashboardStatus.AgreesWithStatusFormatter | src/js/pages/dashboard.js:366-401 | For the five lowercase statuses the dashboard and the data table badge agree. |
| DashboardStatus.CaseSensitive | src/js/pages/dashboard.js:367-399 | A differently-cased status falls to the default here while the data table still recognises it. |
| DashboardStatus.CapitalisedNew | src/js/pages/dashboard.js:386-399 | "New" reads "New" on the dashboard and "Baru" in the data table. |

## Left out

- Rendering: JSX, jQuery DOM updates, class-string assembly, icons, charts and alert dialogs. They are presentation only.
- Network and timers are outside the model. This covers `fetch`, the API client `api.request`, the mock `setTimeout` delays and `debounce`. Their results are parameters. In the hooks (`Fetch`, `Auth`, `Form`) an async call is an explicit start step and a settle step. The page handlers of `MenuCatalogue.Catalogue` are each applied as one atomic step.
- `localStorage` and `react-router` navigation are outside the model. They appear as the `token` and `location` fields of `Auth.Store`.
- Concurrency: several requests of one hook that are in flight at once. The hooks apply whichever resolution runs, and so does the model; no interleaving beyond that is explored.
- Fetch.Paginated.Begin: the `filters` argument of `fetchData` is not modelled, because no caller in the code passes it.
- Fetch.Paginated.ResolveSuccess: takes a response body as given. In the code a resolved response whose `data` is null or undefined throws at `response.data.data` (useFetch.js:76) and takes the failure path (85-87); the model covers that case only as a ResolveFailure step.
- Fetch: the default `options = {}` is a new object on every render, so the hooks' `fetchData` changes on each render. This React render-loop effect is outside the state machine.
- Form: React's stale closures are not modelled. The real `handleChange`, `setFieldValue` and `handleBlur` read the `errors` and `values` of the render that created them; the model reads the current state.
- Form.FormHook.HandleSubmit: `onSubmit` is recorded as the values it was called with. Its own effects are unknown code.
- Utils.CalculatePercentage: uses exact rational rounding. Float error in `Math.round(value / total * 100)` is not modelled.
- Utils.TruncateText: For a negative length the code's `substring` clamps it to 0, and the model does the same. The bound of length + 3 is therefore stated for non-negative lengths only.
- `toLowerCase` is ASCII-only in the model; JavaScript also lowercases non-ASCII letters.
- Utils.TruncateText: JavaScript's `length` and `substring` count UTF-16 code units, while a Dafny string counts Unicode scalar values, so for text with characters outside the Basic Multilingual Plane (emoji) the cut falls at a different place; the model cuts by characters.
- DataTable.CellFillsEveryPlaceholder: covers templates whose text between placeholders contains no `{`; a template such as `{{data}` is handled by DataTable.ReplaceAll but not described by this lemma.
- DataTable.CellFormatter: the `$` patterns of `String.prototype.replace` in the data (such as `$&`) are not interpreted. The data is inserted literally.
- DataTable.BadgeClass: properties inherited from `Object.prototype` (a status of "constructor", say) are not modelled as table hits.
- MenuCatalogue.CountByCategory: a `category_id` naming an `Object.prototype` property ("constructor", "__proto__") breaks the `categoryCounts[...] || 0` tally in the code (menu.js:141); the model's map has no inherited keys.
- MenuCatalogue.DisplayedCount: for the same ids, `categoryCounts[id] || 0` (menu.js:150) reads an inherited property in the code; the model reads 0 or the tally.
- MenuCatalogue.Catalogue.ToggleMenuAvailability: applied as one atomic step. The code computes the new status (menu.js:783) before `await mockUpdateMenuStatus` (789) and writes it after (792), so two toggles in flight both write the same value and the menu flips once, where two model calls cancel out. That interleaving is not captured.
- MenuCatalogue.Catalogue.DeleteCategory: applied as one atomic step. The code checks for referencing menus (menu.js:409-414) before `await confirmDialog` (417) and `await mockDeleteCategory` (429) and filters after (432), so a menu added during those awaits does not block the delete. That interleaving is not captured.
- MenuCatalogue.SortByOrder: display orders are integers. A NaN from `parseInt` (menu.js:353) makes the comparator return NaN, which leaves the order implementation-defined; that case is not modelled.
- DataTable.DateInRange: `new Date(...)` parsing is a parameter that maps a string to a time or to Invalid.
- DataTable.DropdownPattern: `escapeRegex` is foreign. Its argument is the already escaped text.
- `setupDateRangeFilter`, `setupDropdownFilter` and the other `setup*` functions register handlers with DataTables. Only their predicate and pattern are modelled.
- Api: the token comes from `getAuthToken` in `src/js/services/auth.js`, which is not part of this model. The stored token is a parameter.
- Api.CreateFetchOptions: `data` is either absent or an object. Falsy primitives (0, '', false) passed as data are not modelled.
- Api: `JSON.stringify` is foreign, so a JSON body holds the payload it serialises. A parse failure of `response.json()` is not modelled.
- Api: the template literals of the endpoints take string arguments. The dashboard limit is therefore the string "5".
- DashboardLayout: two things are not modelled: the mobile open/closed state `isSidebarOpen`, and the header's display name `user?.nama_lengkap \|\| 'User'`. Both are view state.
- Sidebar: `hooks/useAuth` is not part of this model. The sidebar's user is a parameter of the same shape as the session's user.
- The mock data generators and the other pages' handlers are left out: dashboard statistics, order, table, reservation and payment pages. They are demo data and DOM wiring.
