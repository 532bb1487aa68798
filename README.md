# IPRESCRIBE admin dashboard — a Dafny model of its front-end logic

This project models the logic of a React admin dashboard for an e-prescribing service. It covers:

- the session context: the token and user kept in `localStorage`, plus `login`, `logout` and restore-on-mount;
- the route guard and the route table;
- the dashboard API client, with its two interceptors and its query hooks;
- the login mutation and the login form's validation;
- the patients table: display fallbacks, search and status filter, pagination, chip and avatar colours;
- the top bar's initials, name and role caption, and its logout entry;
- the landing page's waitlist form;
- the colour-mode and sidebar contexts.

State that the components change in place is modelled imperatively:

- React state, `localStorage` and `window.location` become Dafny classes.
- `localStorage` and `window.location` share one `Browser.Window` object. Its `storage` map is the key/value store. Its `log` records every write and navigation in order, so "clear the session, then navigate" can be stated as an order of effects.
- Each class method's `ensures` gives the new value of every field it may change.
- Pure computations are functions, and lemmas relate them. Examples: a saved session is restored intact, the filter keeps exactly the matching rows in order, and reading the pages in order gives back the rows.

Things the code reaches but the model cannot see are parameters:

- `JSON.stringify`/`JSON.parse` are function parameters. The parse outcome is `Malformed`, a user, or JSON `null`.
- The server's reply to a request is a parameter, as a `Result` value.
- The random outcome of the waitlist's simulated call is a boolean parameter.

Strings are sequences of code points. The JavaScript string operations used are defined in `Text`:

- `trim` and the regular-expression class `\s` use the ECMAScript whitespace set;
- `charAt` and `charCodeAt` (the latter returns the UTF-16 high surrogate for characters outside the Basic Multilingual Plane);
- `split(c)[0]`, `includes`, and the `||` fallback on nullable strings;
- `length`, which counts UTF-16 code units, so a character outside the Basic Multilingual Plane counts twice.

Route matching follows react-router v6 defaults:

- matching is case-insensitive;
- trailing slashes are ignored;
- `/dashboard/` followed by a splat also matches `/dashboard` itself.

`isAdmin` (`src/contexts/AuthContext.tsx:93`) looks only at the user's roles and ignores the token, and `Auth.IsAdmin` does the same. `Guard.AdmitsUserWithoutToken` shows the consequence: the guard renders a protected page for a user with no token while `isAuthenticated` is false.

`logout` and the API client's 401 handler both send the browser to `/loginpage`. No route has that path, so the catch-all redirects it to `/`: see `Routes.LogoutHrefIsNotARoute`.

## Model

Helpers that only name a sub-step of a modelled member have no row of their own: `Auth.IsAuthenticated`, `Auth.IsAdmin`, `Text.DigitsValue`, `Text.LeadingSpace`, `Text.TrailingSpace`, `Text.LowerOfConcat`, `Text.IncludesEmpty`, `Routes.LowerDashboard`, `Auth.RoundTrips`, `Auth.HasStoredSession`, `Auth.StoredSessionMalformed`, `Auth.Paired`, the `EmailPatterns` predicates `LoginMatchAt`, `Plain`, `WaitlistMatchAt` and `InnerDot`, and the `EmailPatterns` lemmas that the pattern proofs call (`WaitlistMatchIsSplit`, `PlainHasNoAt`, `FirstAtIndex`, `MatchHasNoSpace`, `MatchDomain`).

| member | source | states |
|---|---|---|
| Text.Trim | src/components/layout/Topbar.tsx:62 | `trim()` removes only whitespace, from both ends, and leaves a result that neither starts nor ends with whitespace |
| Text.TrimEmptyIffAllSpace | src/pages/auth/LoginPage.tsx:29 | `s.trim()` is empty exactly when `s` is whitespace only |
| Text.TrimKeepsUntrimmed | src/components/layout/Topbar.tsx:62 | trimming a string with non-space ends changes nothing |
| Text.BeforeFirst | src/components/layout/Topbar.tsx:64 | `split(c)[0]` is the longest prefix without `c`; it is followed by `c` or ends the string |
| Text.FirstChar | src/components/layout/Topbar.tsx:52 | `charAt(0)` is the first character, or empty for an empty string |
| Text.FirstCodeUnit | src/pages/dashboard/components/PatientTables.tsx:204 | `charCodeAt(0)` is below 0x10000; it is the code point itself in the BMP, otherwise the high surrogate whose 0x400-wide block holds the code point's offset from 0x10000 |
| Text.Utf16Length | src/pages/auth/LoginPage.tsx:33 | `length` counts one unit per BMP character and two per other character: between the number of characters and twice it, zero only for the empty string |
| Text.Utf16LengthOfChar | src/pages/auth/LoginPage.tsx:33 | one BMP character has length 1; one character outside it has length 2 |
| Text.Utf16LengthConcat | src/pages/auth/LoginPage.tsx:33 | the length of a concatenation is the sum of the lengths, so with the per-character lemma it pins the length of every string |
| Text.Lower | src/pages/dashboard/components/PatientTables.tsx:153-159 | `toLowerCase()` keeps the length and maps each character to its lower-case form |
| Text.Upper | src/components/layout/Topbar.tsx:52-54 | `toUpperCase()` keeps the length and maps each character to its upper-case form |
| Text.Includes | src/pages/dashboard/components/PatientTables.tsx:159-162 | `s.includes(t)` needs `t` no longer than `s`, and holds when `t` is a prefix or a suffix of `s` |
| Text.Or | src/pages/dashboard/components/PatientTables.tsx:128 | `s \|\| fallback` is `s` when it is present and non-empty, else the fallback |
| Text.LowerOfUpper | src/pages/dashboard/components/PatientTables.tsx:159 | lower-casing after upper-casing equals lower-casing alone |
| Text.NatToString | src/pages/dashboard/components/PatientTables.tsx:123 | for a natural number below 10^21, the decimal digits of `n`, without a leading zero, whose value read back is `n` |
| Text.IntToString | src/pages/dashboard/components/PatientTables.tsx:123 | for an integer id, the decimal rendering starts with `-` exactly for negative numbers; after any sign come decimal digits, without a leading zero unless the number is 0, that read back as the absolute value |
| Text.IntToStringInjective | src/api/DashboardApi.ts:219 | distinct ids print as distinct texts, so each id gets its own URL |
| Http.Target | src/api/DashboardApi.ts:8 | the address contacted is the base URL followed by the request's relative URL |
| Http.NewRequest | src/api/DashboardApi.ts:7-13 | a fresh request carries exactly the JSON `Content-Type`/`Accept` defaults |
| Browser.Window.GetItem | src/contexts/AuthContext.tsx:63-64 | `localStorage.getItem` gives the stored string, or null for an absent key |
| Browser.Window.SetItem | src/contexts/AuthContext.tsx:85-86 | `localStorage.setItem` stores the value under the key and records the write |
| Browser.Window.RemoveItem | src/contexts/AuthContext.tsx:51-52 | `localStorage.removeItem` drops the key and records the removal |
| Browser.Window.Navigate | src/contexts/AuthContext.tsx:58 | assigning `window.location.href` leaves storage alone and records the navigation |
| Auth.HasAdminRole | src/contexts/AuthContext.tsx:93 | true exactly when some role has slug `admin` |
| Auth.SaveSession | src/contexts/AuthContext.tsx:84-86 | `login` writes both session keys with the given values and leaves every other key unchanged |
| Auth.ClearSession | src/contexts/AuthContext.tsx:50-52 | `logout` removes exactly the two session keys and keeps every other entry |
| Auth.ClearSessionTwice | src/contexts/AuthContext.tsx:50-52 | a second logout removes nothing more: clearing the session is idempotent |
| Auth.RestoreStep | src/contexts/AuthContext.tsx:61-82 | with both keys non-empty, restore adopts the token and the parsed user, or clears both keys and the session when parsing throws; otherwise nothing changes |
| Auth.LoginThenRestore | src/contexts/AuthContext.tsx:61-90 | a session saved by `login` (non-empty token, round-tripping JSON) is restored intact and authenticated on the next mount |
| Auth.ClearThenRestore | src/contexts/AuthContext.tsx:50-82 | after logout nothing is restored and the context is unauthenticated |
| Auth.RestoreIdempotent | src/contexts/AuthContext.tsx:61-82 | running restore again on its own result changes nothing |
| Auth.SessionKeysStayPaired | src/contexts/AuthContext.tsx:50-90 | login, logout and restore never leave one session key stored without the other |
| Auth.UseAuth | src/contexts/AuthContext.tsx:32-38 | outside a provider the hook fails with its fixed message; inside, it returns the provider's value |
| Auth.AuthProvider.constructor | src/contexts/AuthContext.tsx:45-47 | the provider starts with no token, no user, and loading |
| Auth.AuthProvider.Value | src/contexts/AuthContext.tsx:92-103 | `isAuthenticated` is a non-empty token plus a user; `isAdmin` is a user with an admin role, whatever the token |
| Auth.AuthProvider.Restore | src/contexts/AuthContext.tsx:61-82 | the mount effect leaves storage and session as `RestoreStep` says, removes the keys only for malformed data, and always stops loading |
| Auth.AuthProvider.Login | src/contexts/AuthContext.tsx:84-90 | writes the token and then the serialised user, and adopts both |
| Auth.AuthProvider.Logout | src/contexts/AuthContext.tsx:50-59 | removes both keys, then navigates to `/loginpage`, and drops token and user |
| Guard.Decide | src/components/ProtectedRoute.tsx:11-27 | loading first, then `/login` without a user, then `/unauthorized` for a non-admin on an admin route, else render; each outcome as an if-and-only-if |
| Guard.RenderedAdminRouteMeansAdmin | src/components/ProtectedRoute.tsx:18-27 | an admin route renders only for an admin; authentication then depends on the token alone |
| Guard.AdmitsUserWithoutToken | src/components/ProtectedRoute.tsx:18-27 | the guard renders for a user whose token is missing or empty, while `isAuthenticated` is false |
| Guard.AdminRouteScenario | src/components/ProtectedRoute.tsx:11-27 | the four states of an admin route: spinner, login redirect, unauthorized redirect, render |
| Routes.Resolve | src/routes/AppRoutes.tsx:10-28 | `/`, `/login` and `/unauthorized` show their pages; the dashboard subtree is admin-guarded; anything else redirects to `/` with replace |
| Routes.RoutesDisjoint | src/routes/AppRoutes.tsx:12-24 | no path matches two of the four route patterns |
| Routes.GuardedWhenSubtree | src/routes/AppRoutes.tsx:17-24 | every path in the dashboard subtree resolves to the admin-guarded dashboard |
| Routes.DashboardSubtreeIsGuarded | src/routes/AppRoutes.tsx:17-24 | `/dashboard`, `/dashboard/<anything>` and its upper-case spelling all resolve to the admin-guarded dashboard |
| Routes.ResolveIgnoresCase | src/routes/AppRoutes.tsx:10-28 | resolution does not depend on the case of ASCII letters in the path |
| Routes.LogoutHrefIsNotARoute | src/routes/AppRoutes.tsx:27 | `/loginpage`, where logout sends the browser, falls to the catch-all and is redirected to `/` |
| Routes.Visit | src/routes/AppRoutes.tsx:10-28 | a visit shows a public page without the layout, redirects to `/`, or follows the guard's decision |
| Routes.RedirectsEndOnPublicPages | src/routes/AppRoutes.tsx:12-27 | every redirect target shows a public page outright, so redirects never chain |
| Routes.DashboardVisits | src/routes/AppRoutes.tsx:17-24 | a dashboard visit shows the spinner, the login redirect, the unauthorized redirect, or the dashboard in the layout |
| DashboardApi.WithAuthorization | src/api/DashboardApi.ts:16-27 | with a non-empty stored token only the `Authorization` header changes; otherwise the request goes out unchanged |
| DashboardApi.AuthorizationCarriesStoredToken | src/api/DashboardApi.ts:17-22 | the header is `Bearer ` followed by exactly the stored token, and the interceptor is idempotent |
| DashboardApi.OnResponseError | src/api/DashboardApi.ts:30-41 | a 401 removes both keys, then navigates to `/loginpage`; other errors touch nothing; every error is rejected unchanged |
| DashboardApi.DashboardStatsQuery | src/api/DashboardApi.ts:151-171 | key `['dashboardStats']`, enabled iff authenticated, one retry, 5-minute stale time, 10-minute gc time |
| DashboardApi.RecentPatientsQuery | src/api/DashboardApi.ts:174-202 | key `['recentPatients', page, perPage]` with defaults 1 and 10, enabled iff authenticated, one retry, 2-minute stale time |
| DashboardApi.PatientDetailsQuery | src/api/DashboardApi.ts:205-224 | key `['patientDetails', id]`, enabled iff authenticated and the id is non-zero |
| DashboardApi.QueryKeysIdentifyArguments | src/api/DashboardApi.ts:155-209 | equal cache keys mean equal arguments, and the three queries never share a key |
| DashboardApi.ErrorMessage | src/api/DashboardApi.ts:158 | a query refused before sending rejects with "User not authenticated"; otherwise with the transport error's message |
| DashboardApi.Run | src/api/DashboardApi.ts:156-165 | unauthenticated: nothing sent and "User not authenticated"; otherwise the intercepted request is sent and the reply's `data` or its error is returned |
| DashboardApi.StatsRequest | src/api/DashboardApi.ts:161-163 | a GET of `/admin/dashboard-stats` without parameters |
| DashboardApi.PatientsRequest | src/api/DashboardApi.ts:184-195 | a GET of `/admin/patients` with `page`, `per_page`, `sort_by=created_at`, `sort_order=desc` in that order |
| DashboardApi.PatientDetailsRequest | src/api/DashboardApi.ts:215-219 | a GET of `/admin/patients/<id>` |
| DashboardApi.UpdateStatusRequest | src/api/DashboardApi.ts:236 | a PUT of `/admin/patients/<id>/status` with body `{status}` |
| DashboardApi.FetchDashboardStats | src/api/DashboardApi.ts:156-165 | unauthenticated: nothing sent and "User not authenticated"; otherwise the intercepted stats GET is sent and the reply's `data` or its error is returned; the request goes to the base URL followed by `/admin/dashboard-stats` |
| DashboardApi.FetchRecentPatients | src/api/DashboardApi.ts:179-198 | unauthenticated: nothing sent; otherwise the intercepted patients GET with the page and page size is sent and the reply's `data` or its error is returned; the request goes to the base URL followed by `/admin/patients` |
| DashboardApi.FetchPatientDetails | src/api/DashboardApi.ts:210-220 | unauthenticated: nothing sent; otherwise the intercepted GET of that patient is sent and the reply's `data` or its error is returned; the request goes to the base URL followed by `/admin/patients/<id>` |
| DashboardApi.UpdatePatientStatus | src/api/DashboardApi.ts:227-240 | the mutation sends nothing when unauthenticated; otherwise it sends the intercepted PUT and returns the whole response body, or the transport error |
| DashboardApi.DisabledQueriesSendNothing | src/api/DashboardApi.ts:151-224 | an unauthenticated query function sends nothing; an enabled details query sends |
| DashboardApi.SentRequestsCarryStoredToken | src/api/DashboardApi.ts:16-27 | every sent query carries the stored bearer token |
| LoginHook.LoginClient.constructor | src/hooks/useLogin.ts:39-45 | the login client starts without common headers |
| LoginHook.LoginClient.LoginRequest | src/hooks/useLogin.ts:49-51 | POST `/login` with the credentials as body, the JSON headers, and any common headers |
| LoginHook.LoginClient.OnSuccess | src/hooks/useLogin.ts:53-62 | stores token then user, and sets the client's common bearer header |
| LoginHook.LoginClient.Mutate | src/hooks/useLogin.ts:47-67 | sends the login request; on success runs `onSuccess`; on failure changes nothing; returns the reply |
| LoginHook.SuccessfulLoginIsRestorable | src/hooks/useLogin.ts:53-56 | what `onSuccess` stores is restored as an authenticated session by the provider's next mount |
| EmailPatterns.DotAhead | src/pages/auth/LoginPage.tsx:29 | the scanner finds a `.` after a run of non-space characters, followed by a non-space, exactly when one exists |
| EmailPatterns.MatchFrom | src/pages/auth/LoginPage.tsx:29 | the scan from position `k` succeeds exactly when `\S+@\S+\.\S+` matches with its `@` at or after `k` |
| EmailPatterns.LoginPattern | src/pages/auth/LoginPage.tsx:29 | `/\S+@\S+\.\S+/.test(s)` holds exactly when some `@` and `.` positions satisfy the pattern |
| EmailPatterns.LoginPatternIsNotBlank | src/pages/auth/LoginPage.tsx:29 | an email the pattern accepts is never blank after trimming |
| EmailPatterns.WaitlistPattern | src/pages/landing/components/Footer.tsx:37-38 | the anchored pattern holds exactly for: no whitespace, one `@` after a non-empty local part, and a domain with an inner `.` |
| EmailPatterns.WaitlistImpliesLogin | src/pages/landing/components/Footer.tsx:37 | every waitlist-valid email passes the login check |
| EmailPatterns.LoginPatternIsLooser | src/pages/auth/LoginPage.tsx:29 | the login check accepts a leading space and a second `@`, which the waitlist check rejects |
| LoginPage.ValidationReduces | src/pages/auth/LoginPage.tsx:29-35 | submission needs exactly the login pattern and a password of at least six UTF-16 code units; the blank checks are implied |
| LoginPage.PasswordCountsCodeUnits | src/pages/auth/LoginPage.tsx:33 | three emoji pass the six-character check, five ASCII letters do not |
| LoginPage.ErrorBanner | src/pages/auth/LoginPage.tsx:154-168 | the banner shows only after a failure, with the error's message or the fixed fallback |
| LoginPage.LoginForm.constructor | src/pages/auth/LoginPage.tsx:18-20 | empty fields, password hidden, no mutation yet |
| LoginPage.LoginForm.SetEmail | src/pages/auth/LoginPage.tsx:203 | only the email changes |
| LoginPage.LoginForm.SetPassword | src/pages/auth/LoginPage.tsx:247 | only the password changes |
| LoginPage.LoginForm.ToggleShowPassword | src/pages/auth/LoginPage.tsx:253 | only the visibility flag flips |
| LoginPage.LoginForm.HandleLogin | src/pages/auth/LoginPage.tsx:25-44 | invalid input sends nothing; valid input sends one login with the untrimmed email; success stores token and user in that order and sets the client's bearer header; a failure is recorded and caught and changes nothing else; the auth context is never updated |
| PatientTable.PatientName | src/pages/dashboard/components/PatientTables.tsx:119-124 | the trimmed full name when a name part is set; otherwise the email, then the patient number, then `Patient <id>`, never empty |
| PatientTable.PatientNameBlankOnlyForBlankNames | src/pages/dashboard/components/PatientTables.tsx:119-124 | the name is blank exactly when the name parts are set but all whitespace |
| PatientTable.PatientEmail | src/pages/dashboard/components/PatientTables.tsx:127-129 | the patient's email, else the user's, else `No email`; never empty |
| PatientTable.PatientPhone | src/pages/dashboard/components/PatientTables.tsx:132-134 | the patient's phone, else the user's, else `No phone`; never empty |
| PatientTable.PatientLocation | src/pages/dashboard/components/PatientTables.tsx:137-139 | the patient's state, else the user's, else `Unknown`; never empty |
| PatientTable.Devices | src/pages/dashboard/components/PatientTables.tsx:143 | the user's device list when there is one, else no devices |
| PatientTable.PatientDevice | src/pages/dashboard/components/PatientTables.tsx:142-148 | the first device's name, else its platform, else `Unknown`; never empty |
| PatientTable.MatchesSearch | src/pages/dashboard/components/PatientTables.tsx:153-162 | the query matches the lower-cased name, email or location case-insensitively, or the phone as typed; the phone's truthiness guard changes nothing |
| PatientTable.MatchesStatus | src/pages/dashboard/components/PatientTables.tsx:164-165 | `all` passes every patient; any other filter passes exactly the patients with that status, compared case-sensitively |
| PatientTable.Keep | src/pages/dashboard/components/PatientTables.tsx:167 | a patient is kept exactly when it matches the search and the filter is `all` or its exact status; with `all` this is the search alone |
| PatientTable.EmptyQueryMatchesAll | src/pages/dashboard/components/PatientTables.tsx:158-162 | the empty search matches every patient, and the phone guard never fails |
| PatientTable.SearchIgnoresQueryCase | src/pages/dashboard/components/PatientTables.tsx:158-162 | a name match survives changing the case of the query |
| PatientTable.FilterBy | src/pages/dashboard/components/PatientTables.tsx:152 | `data.filter(keep)` holds exactly the data rows that `keep` accepts |
| PatientTable.FilterKeepsAllKept | src/pages/dashboard/components/PatientTables.tsx:152 | a filter that accepts every row returns the data unchanged |
| PatientTable.Filter | src/pages/dashboard/components/PatientTables.tsx:151-169 | a patient is kept exactly when it is in the data and matches both search and status |
| PatientTable.FilterIsSubsequence | src/pages/dashboard/components/PatientTables.tsx:151-169 | the filter keeps the original order, whatever the test |
| PatientTable.FilterDistributes | src/pages/dashboard/components/PatientTables.tsx:151-169 | filtering a concatenation filters each part |
| PatientTable.FilterKeepsAllWhenUnfiltered | src/pages/dashboard/components/PatientTables.tsx:151-169 | an empty query with status `all` keeps every row |
| PatientTable.FilterIdempotent | src/pages/dashboard/components/PatientTables.tsx:151-169 | filtering twice is filtering once |
| PatientTable.Window | src/pages/dashboard/components/PatientTables.tsx:173 | `slice(start, start + n)` gives at most `n` rows, element by element from `start`, clamped to the array |
| PatientTable.Paginate | src/pages/dashboard/components/PatientTables.tsx:171-174 | a page holds at most `rowsPerPage` rows, is empty past the end, and is the run starting at `page * rowsPerPage` |
| PatientTable.PageIsSlice | src/pages/dashboard/components/PatientTables.tsx:171-174 | page `m` is the slice between the clamped starts of pages `m` and `m + 1` |
| PatientTable.PageIsRun | src/pages/dashboard/components/PatientTables.tsx:171-174 | page `m` is the slice from `m * rowsPerPage` to `m * rowsPerPage + rowsPerPage`, both clamped to the rows |
| PatientTable.EveryRowOnItsPage | src/pages/dashboard/components/PatientTables.tsx:171-174 | row `i` appears on page `i / rowsPerPage` at position `i % rowsPerPage` |
| PatientTable.PagesConcatenate | src/pages/dashboard/components/PatientTables.tsx:171-174 | the first `n` pages, concatenated, are the first `n * rowsPerPage` rows: nothing lost or repeated |
| PatientTable.Pagination.constructor | src/pages/dashboard/components/PatientTables.tsx:84-85 | first page, ten rows per page |
| PatientTable.Pagination.ChangePage | src/pages/dashboard/components/PatientTables.tsx:176-178 | only the page changes |
| PatientTable.Pagination.ChangeRowsPerPage | src/pages/dashboard/components/PatientTables.tsx:180-183 | the new page size, and back to the first page |
| PatientTable.Pagination.Visible | src/pages/dashboard/components/PatientTables.tsx:151-174 | the visible rows are the filtered rows from `page * rowsPerPage` to `page * rowsPerPage + rowsPerPage`, clamped to their number: at most one page, each a data row that passes the filter |
| PatientTable.StatusColor | src/pages/dashboard/components/PatientTables.tsx:185-193 | active, pending and inactive (in any case) get their colours; every other status gets the default |
| PatientTable.StatusColorIgnoresCase | src/pages/dashboard/components/PatientTables.tsx:185-187 | the chip colour does not depend on the case of the status |
| PatientTable.AvatarColor | src/pages/dashboard/components/PatientTables.tsx:195-206 | primary for an empty name; otherwise the palette entry at the first UTF-16 code unit modulo five |
| PatientTable.AvatarInitial | src/pages/dashboard/components/PatientTables.tsx:214 | the upper-cased first character of the name, or `?` for an empty name |
| Topbar.UserInitials | src/components/layout/Topbar.tsx:47-55 | `A` without a user; one initial per set name, first name's before last name's, upper-cased; else the email's first character, upper-cased |
| Topbar.InitialsAreUpperCase | src/components/layout/Topbar.tsx:52-54 | the initials contain no lower-case ASCII letter |
| Topbar.UserName | src/components/layout/Topbar.tsx:57-65 | `Admin User` without a user; the trimmed `first last` (missing parts empty) when a name is set; else the email before its first `@` |
| Topbar.UserNameJoinsNames | src/components/layout/Topbar.tsx:59-62 | two set names without outer whitespace are shown joined by one space |
| Topbar.UserNameFirstOnly | src/components/layout/Topbar.tsx:59-62 | a first name alone is shown without the separating space |
| Topbar.UserNameBlankIffBlankNames | src/components/layout/Topbar.tsx:61-62 | the shown name is blank exactly when the set names are whitespace only |
| Topbar.RoleLabel | src/components/layout/Topbar.tsx:120 | `Admin` exactly when some role has slug `admin`, else `User` |
| Topbar.RoleLabelMatchesIsAdmin | src/components/layout/Topbar.tsx:120 | the caption agrees with the context's `isAdmin` |
| Topbar.ProfileMenu.constructor | src/components/layout/Topbar.tsx:27 | the menu starts closed |
| Topbar.ProfileMenu.HandleProfileMenuOpen | src/components/layout/Topbar.tsx:34-36 | opens the menu |
| Topbar.ProfileMenu.HandleMenuClose | src/components/layout/Topbar.tsx:38-40 | closes the menu |
| Topbar.ProfileMenu.HandleLogout | src/components/layout/Topbar.tsx:42-45 | closes the menu, then logs out: both keys removed, then navigation to `/loginpage`, the context unauthenticated and its loading flag untouched |
| Footer.OutcomeSnackbar | src/pages/landing/components/Footer.tsx:56-69 | the answer's snackbar is open, has success severity exactly on success, and differs from the validation error |
| Footer.SeverityMatchesMessage | src/pages/landing/components/Footer.tsx:39-69 | every snackbar the form opens is an error exactly when it does not announce a join |
| Footer.Waitlist.constructor | src/pages/landing/components/Footer.tsx:23-29 | empty email, not loading, snackbar closed |
| Footer.Waitlist.SetEmail | src/pages/landing/components/Footer.tsx:204 | only the email changes |
| Footer.Waitlist.Submit | src/pages/landing/components/Footer.tsx:33-47 | an invalid email opens the error snackbar and stops; a valid one sets `loading` and keeps the snackbar |
| Footer.Waitlist.Resume | src/pages/landing/components/Footer.tsx:50-78 | success reports the join and clears the email; failure reports the error and keeps it; `loading` ends false |
| Footer.Waitlist.HandleSubmit | src/pages/landing/components/Footer.tsx:33-79 | a full submission's final state for each outcome; it never leaves `loading` set |
| Footer.Waitlist.HandleCloseSnackbar | src/pages/landing/components/Footer.tsx:81-83 | hides the snackbar and keeps its message and severity |
| Theme.InitialMode | src/contexts/ThemeContext.tsx:16-19 | the stored mode when non-empty, unvalidated; else `light` |
| Theme.ToggleMode | src/contexts/ThemeContext.tsx:21-23 | `light` becomes `dark`; every other mode becomes `light` |
| Theme.ToggleTwice | src/contexts/ThemeContext.tsx:21-23 | two toggles from `light` or `dark` give the mode back |
| Theme.ToggleNormalises | src/contexts/ThemeContext.tsx:21-23 | a stored mode that is neither `light` nor `dark` becomes `light` on the first toggle |
| Theme.PaletteFor | src/contexts/ThemeContext.tsx:29-43 | the light colours exactly for `light`; every other mode gets the dark colours |
| Theme.ThemeProvider.constructor | src/contexts/ThemeContext.tsx:16-27 | the initial mode comes from storage and is written back at once |
| Theme.ThemeProvider.ToggleTheme | src/contexts/ThemeContext.tsx:21-27 | toggles, then persists, so storage's `theme-mode` equals the mode |
| UI.UseUI | src/contexts/UIContext.tsx:11-15 | outside a provider the hook fails with its fixed message; inside, it returns the value |
| UI.UIProvider.constructor | src/contexts/UIContext.tsx:18 | the sidebar starts closed |
| UI.UIProvider.Value | src/contexts/UIContext.tsx:23 | the context value carries the current flag |
| UI.UIProvider.ToggleSidebar | src/contexts/UIContext.tsx:20 | negates the flag |
| UI.UIProvider.ToggleTwice | src/contexts/UIContext.tsx:20 | two toggles restore the flag |

## Left out

- JSX rendering, MUI styling, animation, charts and the other page components. They hold no logic beyond what is modelled here.
- HTTP transport, timing and React Query's caching, deduplication and retries. Only the options the hooks pass, their keys and their query functions are modelled; the server's reply is a parameter.
- The response interceptor's success path, which is the identity function.
- `formatDate`/`formatDateTime` in the patients table. They depend on `Date` and the locale.
- JSON values other than an object or `null` in stored user data. The parse outcome is a user, `null` or malformed.
- Case mapping beyond ASCII letters. `toLowerCase`/`toUpperCase` are modelled on `A`–`Z` and `a`–`z` only.
- Text.FirstChar: `charAt(0)` of a character outside the Basic Multilingual Plane returns its high surrogate. The model returns the whole character, because strings are sequences of code points.
- PatientTable.Pagination.ChangeRowsPerPage: takes the parsed natural number. `parseInt` on text that is not a number (which gives `NaN`) is not modelled, because the page-size menu only offers 5, 10 and 25.
- Text.Includes: its contract gives a length bound and the prefix and suffix cases only. That `t` occurs at some index of `s` is the definition itself.
- Text.IntToString: ids are taken to be integers below 10^21 in absolute value. JavaScript numbers that are fractions, `NaN` or `-0`, and the exponent notation `String` uses from 10^21 on, are not modelled.
- Routes.Resolve: react-router's percent-decoding of paths and its handling of line terminators are not modelled.
- The waitlist's `setTimeout` delay and `Math.random()` outcome. The outcome is the boolean parameter of `Resume`. The `catch` branch with "Network error…" is unreachable, because the simulated promise never rejects.
- Concurrency: two interleaved submissions, or 401 responses arriving together. Each method is one atomic step.
- The login mutation's pending state, which only disables inputs.
- Patient fields the table logic never reads (dates, address, gender and the like).
- Topbar's search box state and its fallback theme value when no theme provider exists. Neither feeds any logic.
- `src/pages/dashboard/Dashboard.tsx` exports nothing named `DashboardHome`, so the route table's import is broken. The model treats `DashboardHome` as the dashboard page.
- `console.log`/`console.error` calls.
