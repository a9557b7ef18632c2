# Ticket tracker core, modelled in Dafny

This project models the core of a small ticket tracker (a Next.js application
backed by a hosted Postgres store and its authentication service). Users hold
tickets with a title, description, policy number, status and assignee. The
status is one of *assigned*, *in progress*, *transferred* or *solved*. An
admin sees and edits everything. Anyone else sees the tickets assigned to
them or created by them.

The model covers:

- **Server actions** (`app/actions.ts`): resolving or creating the caller's
  profile, the ticket listing with its visibility rule and newest-first
  order, the checks and the row of `createTicket`, the permission check and
  the partial update of `updateTicket`, and the list of assignable users. The
  store is a class `Actions.TicketStore` holding the ticket table (a sequence
  of rows) and the profile table (a map keyed by id). The session and the
  store's failures are inputs of each action.
- **Solved tickets view**: the status, policy-number and date filters, the
  grouping by UTC day (a `reduce` modelled as a loop proved equal to a
  specification function), the day keys sorted newest first, and the
  rendered sections.
- **Ticket board** and **user dashboard**: the four status columns, their
  counts, the four stat cards, and the role string handed to every card.
- **Ticket card**: the `canEdit` rule and what the card shows.
- **Add-ticket form** and **sign-up page**: their state as classes. The submit
  handlers are split at their one `await` into a start and a finish method,
  plus a method that runs the whole handler.
- **Middleware**: the request decision (let through, or redirect to the login
  page, deleting cookies in one case).
- **Auth provider**: the handler for the authentication service's events,
  the tokens it keeps in local storage, and the navigation effect.

Generic support lives in `seqs.dfy` (filtering as `Array.prototype.filter`
does it, subsequences, multiset partitions), `text.dfy` (`trim`,
`toLowerCase`, `includes`, `split("@")[0]`) and `ordering.dfy` (a sort by a
descending integer key).

Two behaviours of the code are worth stating up front:

- A non-admin who names another user as assignee is rejected by
  `createTicket` (app/actions.ts:145-150). So the self-assignment at
  app/actions.ts:170 never changes anything (`Actions.InsertedRowAfterChecks`).
- A ticket with a status outside the four lands on no board column and in no
  count; nothing reports it (app/components/ticket-board.tsx:17-22;
  `TicketBoard.UnrecognizedOnNoColumn`).

## Model

| member | source | states |
|---|---|---|
| Actions.FallbackName | app/actions.ts:49 | The fallback name is never empty and has no '@'. It is exactly the text of the email before the first '@' when that text is non-empty. It is "New User" when there is no email or that text is empty. |
| Actions.DefaultProfile | app/actions.ts:46-51 | A created profile has the caller's id, role user, and the session email or "". Its name is the fallback name of that email, so never empty. |
| Actions.ResolveProfileSound | app/actions.ts:7-73 | `Actions.ResolveProfile` defines what `getUserProfile` returns and stores. `getUserProfile` returns only the profile stored under the caller's id. It adds at most that one profile and never changes an existing one, so no role changes. A profile it creates has role user. |
| Actions.ResolveProfileStable | app/actions.ts:26-30 | Once a profile exists, resolving it again returns it and inserts nothing. |
| Actions.LookupProfile | app/actions.ts:89-90 | A join finds a profile if and only if one is stored under the id, and then it is that stored profile. |
| Actions.Join | app/actions.ts:87-91 | The listing holds one ticket per row, in row order. Each ticket's assignee and creator are the profiles stored under the row's assignee and creator ids, when stored, and absent otherwise. A joined profile has exactly the id in its column. |
| Actions.ListingHoldsVisibleRows | app/actions.ts:94-99 | `Actions.Listing` defines what `getTickets` returns: filter by `Actions.CanList`, sort, join. The listing holds the visible rows, each as often as in the table, and nothing else. |
| Actions.NonAdminListing | app/actions.ts:95-96 | A non-admin sees a row if and only if it is assigned to them or created by them. |
| Actions.AdminListing | app/actions.ts:85-92 | An admin's listing is a permutation of the whole table. |
| Actions.ListingNewestFirst | app/actions.ts:92 | The listing is ordered by `created_at`, newest first. |
| Actions.CreateCheckPasses | app/actions.ts:144-161 | `Actions.CreateCheck` defines the check chain of `createTicket`. A create request passes the checks if and only if the caller is an admin or names themself as assignee, and title, description and policy number are each present and not blank after trimming. |
| Actions.ForeignAssigneeRejectedFirst | app/actions.ts:145-150 | A non-admin naming another assignee is rejected with the assignee error, whatever the other fields hold. |
| Actions.FirstBlankFieldReported | app/actions.ts:152-161 | The first failing field, in the order title, description, policy number, is the one reported. A field fails when it is missing or white space only. |
| Actions.InsertedRowAfterChecks | app/actions.ts:163-174 | `Actions.InsertedRow` defines the inserted row. An inserted row has the caller as creator, keeps the requested assignee (the caller, for a non-admin), copies the other fields, and is visible to the caller. |
| Actions.ApplyPatch | app/actions.ts:228-235 | Each property of the updated row is the payload's value when given, and the row's own otherwise. A given policy number is stored as present. The id and the creator never change. |
| Actions.UpdateRowsEffect | app/actions.ts:226-236 | `Actions.UpdateRows` defines the update of the table. An update keeps the table's length and every row's id and creator. Rows with other ids are unchanged. On each matching row, each of title, description, status, assignee, policy number and date is the given value when given and the old one otherwise. |
| Actions.NonAdminNeedsSelfAssignment | app/actions.ts:218-224 | `Actions.MayUpdate` defines the permission test of `updateTicket`. For a non-admin, an update is allowed if and only if the payload assigns the ticket to the caller. A payload without an assignee (a bare status change) is refused. |
| Actions.NonAdminTakesOverAnyTicket | app/actions.ts:218-236 | A non-admin may update any ticket by assigning it to themself, including one they neither hold nor created. The ticket then shows in their listing. |
| Actions.TicketStore.GetUserProfile | app/actions.ts:7-73 | Returns a profile and changes the profile table as the profile resolution says. The ticket table is unchanged. |
| Actions.TicketStore.GetTickets | app/actions.ts:75-122 | No session, or a session whose user id is empty, gives [] and changes nothing. Otherwise it resolves the profile, and gives [] on a query failure or else the listing for that caller. It never changes the ticket table. |
| Actions.TicketStore.CreateTicket | app/actions.ts:124-196 | One case per error: no session (a session whose user id is empty counts as none), no profile, each failed check, store failure. Each leaves the ticket table unchanged. On success exactly the inserted row is appended and returned. |
| Actions.TicketStore.UpdateTicket | app/actions.ts:198-253 | One case per error: no session (a session whose user id is empty counts as none), no profile, permission denied, store failure. Each leaves the ticket table unchanged. On success the table becomes the patched table. |
| Actions.TicketStore.GetAvailableUsers | app/actions.ts:255-303 | No session, or a session whose user id is empty, gives []. No profile gives the default profile. A non-admin gets only their own profile. An admin gets every profile exactly once, or only their own profile when the query fails. |
| Actions.TicketStore.SelectAllProfiles | app/actions.ts:288-298 | The loop lists each stored profile exactly once and nothing else. |
| Text.TrimStart | app/actions.ts:153-159 | `trim` at the front removes exactly the leading white space and leaves a suffix of the input. |
| Text.TrimEnd | app/actions.ts:153-159 | `trim` at the back removes exactly the trailing white space and leaves a prefix of the input. |
| Text.BlankIffAllWhitespace | app/actions.ts:153-159 | `!s.trim()` holds if and only if every character of `s` is white space. |
| Text.ToLower | app/components/solved-tickets.tsx:59 | Lower-casing keeps the length and maps each character on its own. |
| Text.ToLowerIdempotent | app/components/solved-tickets.tsx:59 | Lower-casing twice is lower-casing once. |
| Text.IncludesIffOccurs | middleware.ts:12-13 | `includes` holds if and only if the needle occurs at some index. |
| Text.IncludesEmpty | app/components/solved-tickets.tsx:59 | Every string includes the empty string. |
| Text.BeforeFirst | app/actions.ts:49 | `split(sep)[0]` is a prefix without the separator. It is either the whole string or followed by the separator. |
| Ordering.SortDesc | app/actions.ts:92 | Sorting returns a permutation of its input. |
| Ordering.SortDescSorted | app/components/solved-tickets.tsx:74-76 | Sorting orders by the key, largest first. |
| SolvedTickets.FilterSolvedMembership | app/components/solved-tickets.tsx:56-61 | `SolvedTickets.FilterSolved` defines the corrected filter chain, from `SolvedTickets.MatchesSearch` and `SolvedTickets.MatchesDate`. A ticket is shown if and only if it is solved, its policy number contains the search ignoring case, and it passes the date filter. |
| SolvedTickets.FilterSolvedKeepsOrder | app/components/solved-tickets.tsx:56-61 | The shown tickets keep their input order. |
| SolvedTickets.FilterSolvedIdempotent | app/components/solved-tickets.tsx:56-61 | Filtering the shown tickets again changes nothing. |
| SolvedTickets.EmptySearchNeedsPolicyNumber | app/components/solved-tickets.tsx:58-59 | The empty search keeps a ticket if and only if it has a policy number. |
| SolvedTickets.SearchIgnoresCase | app/components/solved-tickets.tsx:59 | The search result does not change when either side is lower-cased first. |
| SolvedTickets.DateFilterPassThrough | app/components/solved-tickets.tsx:42-51 | The `all` filter, and a custom range with a missing bound, keep every ticket that passed the search. |
| SolvedTickets.CustomRangeEndOfDay | app/components/solved-tickets.tsx:43-47 | A one-day custom range keeps a ticket created late that day. It drops one created the next day or before the start. |
| SolvedTickets.AsWrittenShowsNothing | app/components/solved-tickets.tsx:58-60 | As written, the view drops every ticket under every criteria. |
| SolvedTickets.AsWrittenLosesSolvedTicket | app/components/solved-tickets.tsx:56-61 | On a concrete input, the as-written filter shows nothing and the corrected filter shows the solved ticket. |
| SolvedTickets.GroupingOfGroupsByDay | app/components/solved-tickets.tsx:64-72 | `SolvedTickets.GroupingOf` defines the reduce's groups and keys. The keys are the days that occur, each once. A day's list holds exactly that day's tickets, in input order, and is never empty. A day without a list has no tickets. |
| SolvedTickets.GroupingStep | app/components/solved-tickets.tsx:67-70 | One step of the reduce keeps the grouping exact. |
| SolvedTickets.GroupsCoverTickets | app/components/solved-tickets.tsx:64-72 | Every ticket's day is a key. |
| SolvedTickets.GroupByDay | app/components/solved-tickets.tsx:64-76 | The loop builds exactly the reduce's groups and key order, which group the tickets by day as above. |
| SolvedTickets.GroupOfEachTicket | app/components/solved-tickets.tsx:64-70 | A ticket lies in the group of its own day and in no other group. |
| SolvedTickets.GroupKeepsOrder | app/components/solved-tickets.tsx:70 | Each group is a subsequence of the input. |
| SolvedTickets.SortedDatesStrict | app/components/solved-tickets.tsx:74-76 | `SolvedTickets.SortedDates` defines the sorted keys. The sorted keys are a permutation of the keys, strictly newest first. |
| SolvedTickets.SolvedView | app/components/solved-tickets.tsx:159-181 | The view is built on the corrected filter; on the filter as written it always shows "nothing found" (`SolvedTickets.AsWrittenShowsNothing`). "Nothing found" appears if and only if the filter leaves nothing. Otherwise there is one section per day, strictly newest first, each the non-empty group of its day. Together the sections hold the shown tickets, each exactly once. |
| SolvedTickets.SectionsListByDay | app/components/solved-tickets.tsx:164-177 | The sections built from the sorted keys and the groups list the shown tickets by day. |
| SolvedTickets.FlattenIsPermutation | app/components/solved-tickets.tsx:164-177 | Read in order, the sections are a permutation of the shown tickets. |
| TicketBoard.Board | app/components/ticket-board.tsx:17-41 | There are four columns in the order assigned, in progress, transferred, solved, each with its title. Each column's count is the length of its list. |
| TicketBoard.ColumnExact | app/components/ticket-board.tsx:18-21 | A column holds exactly the input tickets of its status, in input order. |
| TicketBoard.UnrecognizedOnNoColumn | app/components/ticket-board.tsx:17-22 | A ticket with an unknown status is on no column. |
| TicketBoard.StatusPartition | app/components/ticket-board.tsx:17-22 | The four status filters split the tickets of known status, each into exactly one of them. |
| TicketBoard.BoardPartition | app/components/ticket-board.tsx:33-44 | Together the columns hold each ticket of known status once and nothing else. The counts sum to the number of such tickets. |
| TicketBoard.BoardCountsAllKnown | app/components/ticket-board.tsx:39 | When every status is known, the column counts sum to the number of tickets. |
| TicketBoard.ItemRole | app/components/ticket-board.tsx:50 | The role handed to a card is never empty. It is the user's role when that is non-empty, and "user" otherwise. |
| TicketBoard.BoardEditRights | app/components/ticket-board.tsx:44-51 | On the board a card is editable if and only if the service reports the viewer's role as "admin", or the card would be editable with no role at all. |
| UserDashboard.StatCards | app/components/user-dashboard.tsx:19-44 | There are four cards, titled like the board's columns in the same order. |
| UserDashboard.StatsCount | app/components/user-dashboard.tsx:12-17 | `UserDashboard.TicketStats` defines `ticketStats`. Each count is the number of tickets with that status, counted one by one. |
| UserDashboard.StatsSumAllKnown | app/components/user-dashboard.tsx:12-17 | When every status is known, the four counts sum to the number of tickets. |
| UserDashboard.StatsOrderIndependent | app/components/user-dashboard.tsx:12-17 | Reordering the tickets leaves the counts unchanged. |
| UserDashboard.CardsMatchBoard | app/components/user-dashboard.tsx:19-44 | Each card shows the same number, under the same title, as the board column in its place. |
| TicketItem.RenderItem | app/components/ticket-item.tsx:26-77 | The edit button and the edit modal both appear if and only if `canEdit` holds. The card shows the ticket's title and description. The assignee label is the joined assignee's full name when non-empty, and the creator label is the joined creator's full name (empty without a join). The assignee label is never empty: "Sin asignar" exactly when there is no joined name. The policy line appears if and only if the number is present and non-empty. |
| TicketItem.AdminEditsEverything | app/components/ticket-item.tsx:23 | The role "admin" may edit every ticket. |
| TicketItem.NonAdminEditDependsOnTicketOnly | app/components/ticket-item.tsx:23-24 | `TicketItem.CanEdit` defines `canEdit`. For any other role, or none, edit rights depend only on whether the joined assignee matches the ticket's assignee column. They are the same for every such role. |
| TicketItem.UnassignedNotEditable | app/components/ticket-item.tsx:24 | An unassigned ticket is editable only by an admin. |
| TicketItem.JoinedAssigneeEditableByAnyone | app/components/ticket-item.tsx:24 | A ticket whose assignee joined to that user's profile is editable by every viewer. |
| TicketItem.EditableListing | app/components/ticket-item.tsx:23-24 | On a list, an admin may edit all tickets, and every other role may edit the same ones as no role. |
| AddTicketForm.InitialForm | app/components/add-ticket-form.tsx:19-26 | The form starts empty, with status assigned and today's date. |
| AddTicketForm.AfterUsersLoaded | app/components/add-ticket-form.tsx:30-39 | The assignee becomes the viewer exactly when the viewer is the one available user. Otherwise the form is unchanged. |
| AddTicketForm.Payload | app/components/add-ticket-form.tsx:50-54 | With exactly one available user the payload names the viewer. Otherwise it names the chosen assignee. The other fields are copied, and the date becomes midnight UTC of the chosen day. |
| AddTicketForm.ResetForm | app/components/add-ticket-form.tsx:59-66 | After a reset the texts are empty, with status assigned and today's date. The assignee is non-empty if and only if there is one available user and a non-empty viewer id, and then it is the viewer. |
| AddTicketForm.UntouchedFormRejected | app/components/add-ticket-form.tsx:44-56 | `createTicket`'s checks reject the payload built from the untouched form. The assignee check rejects it for a non-admin with several users and a non-empty id; otherwise the title check does. In the page, the `required` inputs stop such a submit before the handler runs. |
| AddTicketForm.NonAdminPayloadNamesSelf | app/components/add-ticket-form.tsx:49-54 | A non-admin, who sees only themself, always submits themself as assignee, so the assignee check never rejects the form. |
| AddTicketForm.ResetKeepsSelfAssignment | app/components/add-ticket-form.tsx:59-66 | After a reset the next payload still names the sole-user viewer. With a non-empty viewer id, the reset form equals the form as first loaded. |
| AddTicketForm.Form.constructor | app/components/add-ticket-form.tsx:16-26 | A new form is initial, with no users and not submitting. |
| AddTicketForm.Form.UsersLoaded | app/components/add-ticket-form.tsx:29-39 | Stores the users and applies the self-assignment rule. |
| AddTicketForm.Form.StartSubmit | app/components/add-ticket-form.tsx:44-56 | Raises the flag and hands over the payload of the current state. |
| AddTicketForm.Form.FinishSubmit | app/components/add-ticket-form.tsx:58-76 | Resets the form on success and keeps it otherwise. The flag is down on every path. |
| AddTicketForm.Form.Submit | app/components/add-ticket-form.tsx:44-77 | The payload of the form as it stood goes through `createTicket`, with every one of its outcomes: no session, no profile, each failed check, store failure, or success. The profile table becomes the resolved one. On success the store gained exactly the inserted row for that payload, created by the session user, and the form is reset. On failure the ticket table and the form are unchanged. The flag ends down. |
| SignUp.Validate | app/signup/page.tsx:29-42 | Each outcome happens if and only if its condition holds: fields required, password shorter than six, confirmation mismatch, or valid. The first failing check wins. |
| SignUp.SixCharactersEnough | app/signup/page.tsx:34 | A six-character password passes the length check. |
| SignUp.LengthReportedBeforeMismatch | app/signup/page.tsx:34-42 | A short password is reported as short even when the confirmation also differs. |
| SignUp.Page.constructor | app/signup/page.tsx:15-21 | A new page has an empty form, is not loading, shows nothing and has scheduled nothing. |
| SignUp.Page.StartSubmit | app/signup/page.tsx:24-47 | The sign-up call is made if and only if the form is valid, with the loading flag up. Otherwise the validation message is shown and the flag stays down. |
| SignUp.Page.FinishSubmit | app/signup/page.tsx:49-72 | Success shows the notice and schedules the move to the login page. A refusal shows its message, or the default one. The flag is down either way. |
| SignUp.Page.Submit | app/signup/page.tsx:24-73 | The call happens exactly for a valid form. If it is made, a registration shows the success notice and schedules the login page. A refusal shows its message, or the default one, and schedules nothing. An invalid form shows its first error. The flag ends down, and the form is untouched. |
| Middleware.Decide | middleware.ts:5-59 | Static and API paths pass. A lookup that throws redirects to login. An invalid refresh token redirects to login and deletes both cookies. Otherwise a request without a session outside the auth prefixes redirects to login with `from`, and everything else passes. |
| Middleware.RedirectsGoToLogin | middleware.ts:27-58 | Every redirect goes to the login page. Cookies are deleted if and only if the refresh token is invalid. |
| Middleware.ExcludedIgnoresSession | middleware.ts:8-16 | `Middleware.IsExcluded` defines the excluded paths of lines 8-14. An excluded path passes whatever the session lookup gives. |
| Middleware.AuthPrefixNeverNeedsSession | middleware.ts:46 | `Middleware.HasAuthPrefix` defines the prefix test. A path starting with `/login` or `/signup` (so `/loginx` too) is never redirected for want of a session. |
| Middleware.OtherErrorsIgnored | middleware.ts:27-36 | Any other session error decides nothing by itself. |
| Middleware.NoSessionKeepsFrom | middleware.ts:46-50 | A redirect that carries `from` carries the request's own path. It happens only without a session, outside the auth prefixes, on a path that is not excluded. |
| Middleware.LoginSubpagePasses | middleware.ts:46 | `/login/reset` passes without a session. |
| Middleware.PicturePasses | middleware.ts:13 | A `.png` path passes even when the lookup throws. |
| Middleware.HomeNeedsSession | middleware.ts:46-50 | `/` without a session redirects to login with `from` set to `/`. |
| Navigation.TargetPath | components/auth/auth-provider.tsx:115-121 | The path is "/login" if and only if the target is the login page, and "/" if and only if it is home. |
| AuthProvider.StoreTokens | components/auth/auth-provider.tsx:60-68 | An access token is stored when present, and the refresh token with it when present. No other key changes, and only those two may be added. Without an access token storage is unchanged. |
| AuthProvider.StoreTokensIdempotent | components/auth/auth-provider.tsx:88-97 | Storing the same tokens again changes nothing, so the refresh branch's second write is a no-op. |
| AuthProvider.OnAuthEvent | components/auth/auth-provider.tsx:53-98 | A sign-in sets the user, and redirects home if and only if the page is an auth page. A sign-out or user deletion clears the user and the three storage keys and redirects to login. A token refresh sets the user without redirecting. Any other event only stores tokens. Only sign-in and sign-out events redirect. After a sign-in or a token refresh the storage is exactly the old storage with the session's tokens stored. After a sign-out it is that storage minus the three keys, and no other key changes. |
| AuthProvider.TokenStoredUnlessSignedOut | components/auth/auth-provider.tsx:60-97 | An access token carried by any event stays stored, except on sign-out or user deletion, which remove it. |
| AuthProvider.NavigationTarget | components/auth/auth-provider.tsx:106-124 | While loading nothing happens. Otherwise it redirects if and only if being signed in agrees with being on an auth page: to login with `from` when signed out, home when signed in. |
| AuthProvider.NavigationSettles | components/auth/auth-provider.tsx:106-124 | On the page the effect redirects to, the effect does nothing more: it cannot loop. |
| AuthProvider.PrefixAndExactTestsDisagree | components/auth/auth-provider.tsx:108-115 | `/login/reset` without a session passes the middleware's prefix test, and the provider then redirects it to login. |
| AuthProvider.SignInOnLoginPageRedirectsTwice | components/auth/auth-provider.tsx:70-76 | A sign-in on the login page is sent home by the handler and again by the navigation effect. |
| AuthProvider.Provider.constructor | components/auth/auth-provider.tsx:13-14 | The provider starts with no user, loading, and nothing pushed. |
| AuthProvider.Provider.Initialize | components/auth/auth-provider.tsx:19-46 | Loading ends on every path. The user is the session's user, or none after an error, an exception or no session. |
| AuthProvider.Provider.HandleAuthEvent | components/auth/auth-provider.tsx:53-98 | The new user and storage are the event's effect, and the router receives exactly its redirect. |
| AuthProvider.Provider.Navigate | components/auth/auth-provider.tsx:106-124 | The router receives exactly the effect's redirect, and nothing else changes. |

## Left out

- Network, store and authentication calls are not modelled as such. Their outcomes are parameters: the session, a `StoreFaults` record saying which store call fails, the sign-up reply, the session lookup result, and the auth event.
- Exceptions thrown inside the actions (caught and turned into `{ success: false }` or `[]`) are covered only through those failure inputs. The exception branch of `getAvailableUsers` (app/actions.ts:304-323) gives the same default profile as a failed lookup, and is not modelled separately.
- Row ids are assigned by the store. `CreateTicket` takes the new id as a parameter, and id uniqueness is not modelled.
- Profile timestamps (`created_at`, `updated_at`) are left out.
- `revalidatePath`, `router.refresh`, console logging, toasts and all page markup and styling are left out.
- The realtime subscription and its cleanup are left out.
- Actions.TicketStore.SelectAllProfiles: does not model the `ORDER BY full_name` of the admin's user list, because collation order is the store's; the list is in no particular order. The `users || [userProfile]` fallback for a null result is not modelled either.
- Text.ToLower: lower-cases only the letters A–Z. Full Unicode case mapping is not modelled.
- Text.TrimStart: the white space set is the ASCII white space, no-break space, byte-order mark and line and paragraph separators. Other Unicode space separators are not included.
- String lengths are lengths in characters, not in UTF-16 code units. This matters only for the six-character password minimum with characters outside the Basic Multilingual Plane.
- Dates and times are integers (milliseconds). Local calendar days, UTC days, "one month before" and "23:59:59 on the end day" are uninterpreted functions of a `Calendar` value. Time zones, daylight saving time and invalid dates are not modelled. The form's date field always holds a valid day.
- The form fields' `onChange` edits are not modelled. A form's contents are whatever `FormData` value it holds.
- The `required` attributes of the add-ticket form's inputs (app/components/add-ticket-form.tsx:95-101, 104-112, 115-123, 170-178) are not modelled. The browser blocks a submit with one of them empty, but `Form.Submit` calls `createTicket` even then. The sign-up page's `required` inputs (app/signup/page.tsx:89-140) are not modelled either; `Validate` reports the empty fields itself.
- Actions.Listing: rows with equal `created_at` keep their table order. The store's `order("created_at", { ascending: false })` (app/actions.ts:92) leaves the order of such ties open, so their order in `GetTickets`'s result is the model's choice.
- Middleware.Decide: does not model the matcher configuration (middleware.ts:62-74), which keeps some paths from reaching the middleware at all. It also does not keep the query string the cloned URL carries into the redirect.
- AuthProvider.NavigationTarget: the `from` path is kept as raw text. `encodeURIComponent` is not modelled.
- The role compared with "admin" on the board is the role string on the authentication service's user object, not the profile's role. lib/auth.ts declares no such field, and the model leaves its value free.
- `updateTicket` sends `undefined` for an absent property, and the store leaves undefined properties untouched; the model writes such a property as `Keep`. An empty `createdAt` string counts as absent.

## Findings

| source | as written | input that shows it | evidently intended | confidence | as-written member | corrected member |
|---|---|---|---|---|---|---|
| app/components/solved-tickets.tsx:59 | The search reads `ticket.policyNumber`, but the tickets from `getTickets` carry the number only as `policy_number` (app/actions.ts:106-117). The optional chain yields undefined, and every ticket fails the filter. | A solved ticket with policy number "POL-1", under the initial criteria (empty search, all dates): the view shows nothing. | Search the ticket's `policy_number`. The empty search then shows every solved ticket that has a policy number. | not executed | SolvedTickets.FilterSolvedAsWritten (with SolvedTickets.AsWrittenShowsNothing and SolvedTickets.AsWrittenLosesSolvedTicket) | SolvedTickets.FilterSolved (with SolvedTickets.FilterSolvedMembership and SolvedTickets.EmptySearchNeedsPolicyNumber) |
