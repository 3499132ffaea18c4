# Issue tracker client: a Dafny model

This project models the logic inside a small single-page issue-tracker client. The
client is mostly rendering and HTTP glue. The parts modelled here are:

- **Entities** (`types.dfy`, module `Types`): `User`, `Issue` and `AuthResponse`, with roles, statuses and
  priorities as enumerations and their wire spellings. An assignee is either an embedded user or a bare identifier.
- **Responses and effects** (`http.dfy`, module `Http`): the HTTP client is not modelled. Each view
  receives a request's outcome as an input: a response body of a given shape, or an error with an optional
  server message. Everything a view does to the outside world is appended, in order, to an effect log:
  requests, alerts, the confirmation dialog and navigations.
- **Authorization header** (`auth_token.dfy`, module `AuthToken`): `setAuthToken` either sets or deletes the
  `Authorization` default header of the page-wide API client, which is modelled as a class.
- **Session store** (`auth_context.dfy`, module `AuthContext`): `localStorage` and the `AuthProvider` are
  classes. Their methods (`Init`, `Login`, `Logout`) run step by step in the source's order. Each is proved
  equal to a function on a `Session` value. Lemmas about those functions give the round trips: log in then
  reload restores the user; log out then reload finds none. Other lemmas cover the parse-failure cleanup and
  when the user and the bearer header are in step: after the mount effect from a fresh mount, after a login
  with a non-empty token, and after logout. A login with an empty token sets the user without a header.
- **Route guard and route table** (`routing.dfy`, module `Routing`).
- **Issue list** (`issue_list.dfy`, module `IssueList`): a case-insensitive search over title or description,
  combined by AND with the status and priority filters. Pages hold five issues, and the page is taken with
  JavaScript `slice` semantics. The lemmas show that the filter is complete and keeps order, that the pages
  put together give back the list, and what the "Showing x to y" line says. The view's state is a class.
  Its page number never drops below one and is not reset when a filter changes, so a stale page number
  shows an empty page.
- **Issue detail** (`issue_detail.dfy`, module `IssueDetail`): the draft/merge update, the render
  precedence, and delete gating. The confirmation is asked before the role is checked.
- **Create issue** (`create_issue.dfy`, module `CreateIssue`): the form, its change handler, the payload, the
  error-message precedence and how the users response is accepted.
- **Dashboard** (`dashboard.dfy`, module `Dashboard`): the counts and the recent-activity prefix.

Behaviour of the code the model keeps:

- The dashboard computes total, open and resolved. It does not compute an in-progress count.
- Both views read `GET /issue`. The issue list takes issues only from an object with an `issues` array. The
  dashboard takes them only from a bare array. `Dashboard.NoBodyFeedsBothViews` proves that no response
  body feeds both views.
- The detail view returns before its `try` when the route's title is missing. It then stays on "Loading"
  for good.
- Cancelling an edit keeps the abandoned draft. The next edit starts from it.

## Model

| member | source | states |
|---|---|---|
| Types.RoleName | src/types.ts:5 | a role is spelled exactly `user` or `admin`, and `admin` exactly for the admin role |
| Types.ParseStatus | src/types.ts:12 | a string denotes a status exactly when it is `Open`, `In-Progress` or `Resolved` |
| Types.ParsePriority | src/types.ts:13 | a string denotes a priority exactly when it is `High`, `Medium` or `Low` |
| Types.StatusNameRoundTrip | src/types.ts:12 | parsing a status's spelling gives the status back; a parsed string is the spelling; no status is spelled `All` |
| Types.PriorityNameRoundTrip | src/types.ts:13 | parsing a priority's spelling gives the priority back; a parsed string is the spelling; no priority is spelled `All` |
| Types.StatusNameInjective | src/types.ts:12 | two statuses are spelled the same exactly when they are equal |
| Types.PriorityNameInjective | src/types.ts:13 | two priorities are spelled the same exactly when they are equal |
| AuthToken.WithToken | src/utils/setAuthToken.ts:3-12 | a non-empty token sets `Authorization` to `Bearer ` + token; an empty one leaves the key absent; no other header changes |
| AuthToken.WithTokenIdempotent | src/utils/setAuthToken.ts:3-12 | setting the same token twice equals setting it once |
| AuthToken.WithTokenLastWins | src/utils/setAuthToken.ts:3-12 | setting a then b equals setting b |
| AuthToken.ApiClient.constructor | src/utils/setAuthToken.ts:1 | the client is loaded with whatever default headers its own module configures; those defaults are a parameter, not assumed empty |
| AuthToken.ApiClient.SetAuthToken | src/utils/setAuthToken.ts:3-12 | the in-place assign or delete leaves the headers `WithToken` of the old ones |
| AuthContext.Lookup | src/components/context/AuthContext.tsx:20-21 | `getItem` gives the stored string exactly for a present key, and null otherwise |
| AuthContext.Reloaded | src/components/context/AuthContext.tsx:16-17 | a page load keeps storage, gives the client its configured defaults, and restarts the provider with no user and loading |
| AuthContext.Restored | src/components/context/AuthContext.tsx:19-34 | the mount effect always ends loading; storage is either untouched or has lost exactly both keys; a user is only ever set from the parsed stored value, together with a bearer header; no other header changes |
| AuthContext.LoggedIn | src/components/context/AuthContext.tsx:36-41 | login keeps the loading flag, and with a non-empty token leaves user and bearer header in step |
| AuthContext.LoggedOut | src/components/context/AuthContext.tsx:43-50 | logout keeps the loading flag and leaves user and bearer header in step (neither is set) |
| AuthContext.RestoreWithoutCredentials | src/components/context/AuthContext.tsx:20-22 | a token or stored user that is missing or empty leaves storage, headers and user as they were; loading ends |
| AuthContext.RestoreParsed | src/components/context/AuthContext.tsx:22-25 | both present and the user parses: the user is the parsed value, the header carries `Bearer ` + the stored token, storage is untouched, loading ends |
| AuthContext.RestoreParseFailure | src/components/context/AuthContext.tsx:26-30 | the parse fails: both keys are removed and other keys are kept; the headers lose exactly `Authorization`; no user is set; loading ends |
| AuthContext.LoginEffects | src/components/context/AuthContext.tsx:36-41 | login stores `token` = t and `user` = serialize(u), keeps other keys, sets the header through `setAuthToken(t)`, and makes u current |
| AuthContext.LogoutEffects | src/components/context/AuthContext.tsx:43-50 | logout leaves both keys absent and the other keys as they were, with no Authorization header and no user |
| AuthContext.LoginThenReload | src/components/context/AuthContext.tsx:19-41 | login with a non-empty token, then a reload and the mount effect, restore the same user, with the reloaded client's defaults plus the bearer header for that token, given that parse undoes serialize |
| AuthContext.LogoutThenReload | src/components/context/AuthContext.tsx:19-50 | logout, then a reload and the mount effect, give no user, and the client keeps exactly its configured defaults |
| AuthContext.LoginWithEmptyTokenIsNotRestored | src/components/context/AuthContext.tsx:22-41 | login with an empty token shows the user but sets no header, and a reload loses the session |
| AuthContext.RestoreStaysInStep | src/components/context/AuthContext.tsx:19-34 | from a fresh mount (no user, no bearer header), the mount effect leaves a user exactly when a bearer header is set |
| AuthContext.LocalStorage.constructor | src/components/context/AuthContext.tsx:20-21 | storage starts with the given entries |
| AuthContext.LocalStorage.GetItem | src/components/context/AuthContext.tsx:20-21 | `getItem` returns a value exactly for a stored key, and then its stored string |
| AuthContext.LocalStorage.SetItem | src/components/context/AuthContext.tsx:37-38 | `setItem` stores the value under the key and changes no other entry |
| AuthContext.LocalStorage.RemoveItem | src/components/context/AuthContext.tsx:28-29 | `removeItem` removes the key and changes no other entry |
| AuthContext.AuthProvider.constructor | src/components/context/AuthContext.tsx:16-17 | the provider starts with no user and `isLoading` true |
| AuthContext.AuthProvider.Init | src/components/context/AuthContext.tsx:19-34 | the step-by-step mount effect ends in `Restored` of the state before it |
| AuthContext.AuthProvider.Login | src/components/context/AuthContext.tsx:36-41 | the step-by-step login ends in `LoggedIn` of the state before it |
| AuthContext.AuthProvider.Logout | src/components/context/AuthContext.tsx:43-50 | the step-by-step logout (empty, then remove) ends in `LoggedOut` of the state before it |
| Routing.PrivateRoute | src/components/Routing.tsx:13-25 | placeholder exactly while loading; login redirect exactly when loaded with no user; children exactly when loaded with a user |
| Routing.PathText | src/components/Routing.tsx:30-48 | every route pattern is an absolute path |
| Routing.PathTextInjective | src/components/Routing.tsx:30-48 | two patterns of the table are spelled the same exactly when they are the same route |
| Routing.ElementOfIsFirstMatch | src/components/Routing.tsx:29-49 | the element looked up is that of the first route with the pattern; nothing is found only when no route has it |
| Routing.RouteTable | src/components/Routing.tsx:30-48 | /, /issues, /issues/new, /issues/:title and /profile are exactly the guarded patterns; /login and /signup are public; /dashboard redirects to / |
| Routing.Visit | src/components/Routing.tsx:13-48 | every pattern of the table is matched; a visit shows the loading placeholder exactly for a guarded route while loading |
| Routing.Settle | src/components/Routing.tsx:13-48 | following redirects always stays within the table, and ends on the placeholder only while loading |
| Routing.PrivateRouteVisits | src/components/Routing.tsx:13-46 | a guarded route shows the placeholder while loading, goes to /login with no user, and shows its page with a user |
| Routing.EveryRouteSettles | src/components/Routing.tsx:20-48 | once loaded, every route settles on a page within two redirects; with no user every guarded route and /dashboard end at the login page; with a user /dashboard ends at the dashboard |
| IssueList.IncludesIffOccurs | src/components/Issues/IssueList.tsx:37-38 | `includes` holds exactly when the needle occurs at some position of the haystack |
| IssueList.IncludesEmpty | src/components/Issues/IssueList.tsx:37-38 | the empty search text is included in every string |
| IssueList.Lower | src/components/Issues/IssueList.tsx:37-38 | `toLowerCase` keeps the length and lowers each ASCII letter in place |
| IssueList.Includes | src/components/Issues/IssueList.tsx:37-38 | a found needle is no longer than the haystack, and the empty needle is always found |
| IssueList.Filtered | src/components/Issues/IssueList.tsx:35-43 | the result is no longer than the list; every kept issue is in the list and passes search, status and priority; every issue that passes is kept |
| IssueList.FilteredAppend | src/components/Issues/IssueList.tsx:35-43 | filtering keeps order: the filter of a concatenation is the concatenation of the filters |
| IssueList.NoFiltersKeepsAll | src/components/Issues/IssueList.tsx:10-12 | with an empty query and both filters `All`, the whole list comes back unchanged |
| IssueList.TotalPages | src/components/Issues/IssueList.tsx:46 | the page count is the ceiling of n/5: n <= 5·pages < n + 5 |
| IssueList.SliceBound | src/components/Issues/IssueList.tsx:47-50 | a slice bound is clamped into [0, length], and a non-negative bound is min(bound, length) |
| IssueList.Slice | src/components/Issues/IssueList.tsx:47-50 | `slice` gives the items from the clamped start up to the clamped end, in order, or nothing when the end is not past the start |
| IssueList.PageOf | src/components/Issues/IssueList.tsx:47-50 | a page holds at most five issues, for any page number |
| IssueList.PageContents | src/components/Issues/IssueList.tsx:47-50 | page p >= 1 is the items from (p-1)·5 to min(p·5, n), or empty once (p-1)·5 >= n |
| IssueList.PageBeyondLastIsEmpty | src/components/Issues/IssueList.tsx:46-50 | a page number above `totalPages` gives an empty page |
| IssueList.PagesThroughIsPrefix | src/components/Issues/IssueList.tsx:47-50 | pages 1..k together are the first min(5k, n) items |
| IssueList.PagesReassemble | src/components/Issues/IssueList.tsx:46-50 | pages 1..totalPages together give back the filtered list |
| IssueList.FirstAndLastPageSizes | src/components/Issues/IssueList.tsx:46-50 | page 1 holds min(5, n) items; the last page holds n mod 5 items, or 5 when that is 0 |
| IssueList.ControlsIffSeveralPages | src/components/Issues/IssueList.tsx:157 | the pagination controls appear exactly when there are at least two pages |
| IssueList.ShowingRangeDescribesPage | src/components/Issues/IssueList.tsx:162 | on an existing page, "Showing (p-1)·5+1 to min(p·5, n)" is a non-empty range within 1..n and names exactly the page's items |
| IssueList.StalePageShowsInvertedRange | src/components/Issues/IssueList.tsx:162 | on a page number past the last page, the first number of the line exceeds the second |
| IssueList.PageAfterChange | src/components/Issues/IssueList.tsx:52-56 | a requested page in 1..totalPages is taken; any other request leaves the page as it was; a page >= 1 stays >= 1 |
| IssueList.IssuesFrom | src/components/Issues/IssueList.tsx:25-27 | issues are taken exactly from a body whose `issues` field is an array, and they are that array |
| IssueList.IssueListView.constructor | src/components/Issues/IssueList.tsx:8-13 | the view starts on page 1 with no issues, loading, no search text and both filters `All` |
| IssueList.IssueListView.PaginatedIssues | src/components/Issues/IssueList.tsx:47-50 | the shown page has at most five issues; on an existing page it is the filtered issues from (p-1)·5 up to min(5p, n); past the last page it is empty |
| IssueList.IssueListView.FetchIssues | src/components/Issues/IssueList.tsx:21-33 | the issues are replaced by the body's `issues` array when there is one, and otherwise kept; loading ends on every path |
| IssueList.IssueListView.HandlePageChange | src/components/Issues/IssueList.tsx:52-56 | the page becomes `PageAfterChange` of the current page count; the page stays >= 1 |
| IssueList.IssueListView.SetSearchQuery | src/components/Issues/IssueList.tsx:84 | the search text changes and the page number does not |
| IssueList.IssueListView.SetStatusFilter | src/components/Issues/IssueList.tsx:94 | the status filter changes and the page number does not |
| IssueList.IssueListView.SetPriorityFilter | src/components/Issues/IssueList.tsx:106 | the priority filter changes and the page number does not |
| IssueDetail.Merge | src/components/Issues/IssueDetail.tsx:56 | the merged issue has exactly the draft's description, status and priority, and the original id, title, assignee and creation time |
| IssueDetail.MergeOwnDraft | src/components/Issues/IssueDetail.tsx:30-37 | saving the draft the issue was loaded with gives the same issue back |
| IssueDetail.MergeLastWins | src/components/Issues/IssueDetail.tsx:56 | merging two drafts in turn equals merging the second |
| IssueDetail.ScreenOf | src/components/Issues/IssueDetail.tsx:81-83 | the view shows loading, then the error, then "not found", then the issue, each exactly under its condition |
| IssueDetail.AssigneeLabel | src/components/Issues/IssueDetail.tsx:150 | an embedded user shows its name, a bare id shows itself, and no assignee shows nothing |
| IssueDetail.DeleteEffects | src/components/Issues/IssueDetail.tsx:64-79 | no issue, no effect; a declined confirmation is the only effect; a confirming non-admin gets exactly the "Only admins" alert after it; a confirmed admin delete is three effects with the DELETE second, after the confirmation and before the navigation or the failure alert |
| IssueDetail.DeleteGate | src/components/Issues/IssueDetail.tsx:64-79 | a DELETE of `/issue/{title}` is sent exactly for an issue with an accepted confirmation and an admin user; confirmation always comes first; navigation to /issues happens exactly after a successful delete |
| IssueDetail.IssueDetailView.constructor | src/components/Issues/IssueDetail.tsx:13-22 | the view starts loading, not editing, with no issue, no error and the draft ("", Open, Low) |
| IssueDetail.IssueDetailView.FetchIssue | src/components/Issues/IssueDetail.tsx:24-48 | with no title nothing happens and loading never ends; otherwise one GET is sent, a returned issue sets the issue and the draft, a failure sets the error, and loading ends |
| IssueDetail.IssueDetailView.HandleUpdate | src/components/Issues/IssueDetail.tsx:50-62 | with no issue nothing happens; otherwise the draft is PUT; success merges it and leaves edit mode; failure alerts and changes nothing else |
| IssueDetail.IssueDetailView.HandleDelete | src/components/Issues/IssueDetail.tsx:64-79 | the effects are exactly `DeleteEffects` of the issue, user, answer and outcome |
| IssueDetail.IssueDetailView.StartEditing | src/components/Issues/IssueDetail.tsx:118 | the Edit button enters edit mode |
| IssueDetail.IssueDetailView.CancelEditing | src/components/Issues/IssueDetail.tsx:108 | Cancel leaves edit mode and changes neither the issue nor the draft |
| IssueDetail.IssueDetailView.EditDescription | src/components/Issues/IssueDetail.tsx:207 | only the draft's description changes |
| IssueDetail.IssueDetailView.EditStatus | src/components/Issues/IssueDetail.tsx:159 | only the draft's status changes |
| IssueDetail.IssueDetailView.EditPriority | src/components/Issues/IssueDetail.tsx:182 | only the draft's priority changes |
| CreateIssue.WithField | src/components/Issues/CreateIssue.tsx:44-47 | the named field takes the value, and every other field keeps its own |
| CreateIssue.WithFieldUndo | src/components/Issues/CreateIssue.tsx:44-47 | writing a field's old value back restores the form |
| CreateIssue.PayloadOf | src/components/Issues/CreateIssue.tsx:62-71 | title, description, status and priority are copied; `assignee` is present exactly when the form's is non-empty, and then equals it |
| CreateIssue.ErrorMessage | src/components/Issues/CreateIssue.tsx:81 | the message is the non-empty server message, else the non-empty error message, else the generic text; it is never empty |
| CreateIssue.UsersFrom | src/components/Issues/CreateIssue.tsx:16-32 | users are loaded exactly from a bare array or a `users` array; any other body is a format error; a failure or a missing body is ignored |
| CreateIssue.SubmitEffects | src/components/Issues/CreateIssue.tsx:62-81 | a logged-in submit first POSTs `PayloadOf` the form, exactly once; it then navigates to /issues on success (two effects), and does nothing more on failure (one effect) |
| CreateIssue.CreateIssueView.constructor | src/components/Issues/CreateIssue.tsx:36-42 | the form starts with empty title, description and assignee, status Open and priority Low, with no error and not loading |
| CreateIssue.CreateIssueView.FetchUsers | src/components/Issues/CreateIssue.tsx:16-32 | the users and the error change exactly as `UsersFrom` says |
| CreateIssue.CreateIssueView.HandleChange | src/components/Issues/CreateIssue.tsx:44-47 | the form becomes `WithField` of the old form |
| CreateIssue.CreateIssueView.HandleSubmit | src/components/Issues/CreateIssue.tsx:49-85 | with no user only the login error is set and nothing is sent; otherwise exactly one POST of `PayloadOf` the form, then /issues on success or `ErrorMessage` on failure; loading ends |
| Dashboard.CountStatus | src/components/Dashboard.tsx:24-26 | a status count never exceeds the number of issues |
| Dashboard.StatusCountsPartition | src/components/Dashboard.tsx:24-26 | the open, in-progress and resolved counts add up to the total |
| Dashboard.StatsOf | src/components/Dashboard.tsx:23-27 | total is the length, `open` counts Open and `resolved` counts Resolved; open + resolved <= total and the rest are in progress |
| Dashboard.CountMatchesListFilter | src/components/Dashboard.tsx:25-26 | a status count equals the size of the issue list filtered to that status alone |
| Dashboard.Recent | src/components/Dashboard.tsx:71 | recent activity is the first min(5, n) issues, in order |
| Dashboard.IssuesFrom | src/components/Dashboard.tsx:21 | issues are taken exactly from a bare-array body, and they are its items |
| Dashboard.NoBodyFeedsBothViews | src/components/Dashboard.tsx:21 | no response body of `GET /issue` is accepted by both the dashboard and the issue list |
| Dashboard.DashboardView.constructor | src/components/Dashboard.tsx:7-13 | the view starts loading, with no issues and zero counts |
| Dashboard.DashboardView.FetchIssues | src/components/Dashboard.tsx:16-37 | issues and counts are replaced only by a bare array, and the counts always match the issues; loading ends on every path |

## Left out

- `console.error` and `console.log` calls are left out. They only write diagnostics to the browser console.
- Rendering: JSX, CSS classes, icons, the "Loading..." texts, and the 50-character description excerpt on the
  dashboard are left out. They are presentation only.
- The sidebar, the layout and the app shell are left out. They only compose components and call `logout` and
  `navigate`.
- The HTTP client (`src/utils/api`) is not part of this model. The default headers a client is loaded with are
  a parameter (`ApiClient` constructor, `Reloaded`), so nothing is assumed about them.
  A request's outcome is a parameter of the
  method that sends it, and the request is recorded as an effect.
- `localStorage` is a string map. `JSON.stringify` and `JSON.parse` are function parameters. A parse that
  would throw answers None. JSON that parses to a value which is not a user, such as `null`, is not modelled.
- `toLowerCase` lowers ASCII letters only. Full Unicode case mapping is not modelled.
- Dates and `toLocaleDateString` are left out. They are locale-dependent formatting.
- `window.confirm` is a boolean input. `alert` is an effect.
- Async interleaving is left out: responses that arrive after unmount, and requests in flight at the same time.
- How the router ranks and matches URLs against patterns is left out. Routes are named by their patterns.
- The login and signup pages, and the profile page, are not part of this model.
- IssueDetail.IssueDetailView.FetchIssue: the `issue` field of the response is an Option. It does not
  distinguish a missing `data` from a missing `issue` field, because the code treats both the same way.
- Routing.EveryRouteSettles: it follows at most two redirects. That is the longest chain the table has.
