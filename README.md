# ClubSphere client rules in Dafny

ClubSphere is a single-page web client for finding clubs and events and
joining them. Members pay for memberships and event places through a card
processor. Club managers run clubs and events. Admins approve clubs and assign
roles. Storage, authorisation and payment capture all happen in a backend, an
identity provider and a card processor. The client's own logic is a set of
small, deterministic rules, and this project models them:

- **Roles and gating.** `useRole` turns the backend user record into a role
  and three flags. The admin and manager guards turn those into spinner,
  redirect or page. The router table records which guard wraps which path.
  The navbar and dashboard sidebar map a role to a dashboard and its links.
- **Session.** `AuthProvider` keeps `{user, dbUser, loading}`. It is a class
  whose transitions are the provider's login, logout and auth-state
  callbacks. `useAxiosSecure` attaches the ID token to outgoing requests and
  logs out on 401/403. Its interceptor registrations are a class over the
  shared interceptor lists.
- **URL filters.** The club and event listings keep their filters in the
  query string. Query parameters are an ordered list of pairs, and a
  `URLSearchParams` object is a class over that list. The model proves what
  survives a reload.
- **Join and register flows.** The club and event pages check, in order:
  anonymous visitor, card payment, confirmation dialog, then the request. The
  sidebar picks one panel by a fixed priority. The card form confirms with
  the server only after a succeeded payment intent.
- **Forms.** The login and registration validators are restated as
  character predicates and proved equal to their regular-expression readings.
  The model also covers the password strength ticks and the create/edit
  payload builders for clubs and events, including prefill then resubmit.
- **Admin and manager tables.** The model covers the role-change guard, the
  approve/reject controls on pending clubs, membership status changes, the
  badge and label mappings, and the admin overview's totals and chart data.

The dialog answers, the backend's replies, the identity provider's and the
card processor's outcomes, and the current time are all parameters. What a
handler does is a sequence of `Effect`s: navigations, dialogs, requests sent,
cache keys invalidated and toasts. Its properties are stated over that
sequence.

The browse page's category list (`src/pages/Clubs.jsx:12-23`) does not
contain "Other". The club forms offer it (`ClubForms.ClubCategories`). A club
filed under "Other" can therefore only be found under "All". Logout follows
`src/providers/AuthProvider.jsx:42-46` as it is: the backend logout is posted
first, and the identity provider is signed out only if that post succeeds.

## Model

| member | source | states |
|---|---|---|
| Roles.UseRole | src/hooks/useRole.js:5-15 | loading is passed through; the role is never empty; each flag implies its own role |
| Roles.RoleDefault | src/hooks/useRole.js:9 | a missing record, a missing role or an empty role reads as "member"; any other role is kept as stored |
| Roles.FlagsExact | src/hooks/useRole.js:10-12 | isAdmin, isManager and isMember each hold exactly when the stored role is "admin", "clubManager" or "member" |
| Roles.AtMostOneFlag | src/hooks/useRole.js:10-12 | at most one flag holds, and an unknown role leaves all three false |
| Roles.NoRecordReadsMember | src/hooks/useRole.js:9-12 | with no backend record the role reads "member" while isMember is false |
| Gates.AdminGate | src/routes/AdminRoute.jsx:5-17 | loading shows the spinner; the page is shown exactly when not loading and admin; otherwise a replace-redirect to the member dashboard |
| Gates.ManagerGate | src/routes/ManagerRoute.jsx:5-17 | loading shows the spinner; the page is shown exactly when not loading and manager or admin; otherwise a replace-redirect to the member dashboard |
| Gates.AdminAdmittedByManagerGate | src/routes/ManagerRoute.jsx:12 | every session the admin gate admits, the manager gate admits too |
| Gates.GatesByRole | src/routes/AdminRoute.jsx:12-16 | once loaded, the admin gate admits exactly the "admin" role and the manager gate exactly "clubManager" or "admin" |
| Gates.MemberRefusedByManagerGate | src/routes/ManagerRoute.jsx:12-14 | a member, an unknown role or no record is redirected by the manager gate |
| Routes.FirstMatch | src/routes/router.jsx:38-182 | the entry found matches the path and no earlier entry does; none is found exactly when no entry matches |
| Routes.DispatchFindsEveryMatch | src/routes/router.jsx:38-182 | any path an entry matches resolves to that same entry |
| Routes.NoOverlap | src/routes/router.jsx:38-182 | no concrete path matches two patterns of the table |
| Routes.ResolveEntry | src/routes/router.jsx:38-182 | a path an entry matches renders that entry's page under that entry's guards |
| Routes.UnmatchedIsNotFound | src/routes/router.jsx:178-181 | a path no entry matches renders the not-found page with no guard |
| Routes.GuardLayout | src/routes/router.jsx:53-176 | public pages carry no guard; every dashboard page sits under the sign-in guard; admin pages add the admin guard, manager pages the manager guard, member pages and the profile neither |
| Routes.RedirectTargetUnguarded | src/routes/router.jsx:172 | the member dashboard the role guards redirect to renders the member overview under the sign-in guard alone, so the redirect never loops |
| Navigation.DashboardPathPage | src/components/common/Navbar.jsx:22-26 | the navbar's dashboard link resolves to the admin overview exactly for admins, the manager overview exactly for club managers, and the member overview otherwise |
| Navigation.DashboardPathAdmitted | src/components/common/Navbar.jsx:22-26 | the dashboard the navbar links to is admitted by its route's guards for that same role |
| Navigation.MenuLabelFollowsRole | src/components/common/Navbar.jsx:91 | the menu shows "Member" when the role is missing or empty, and otherwise exactly the stored role, which is also the role `useRole` reports |
| Navigation.RoleLabelMatchesLinks | src/components/dashboard/DashboardSidebar.jsx:61-71 | the label is "Admin", "Club Manager" or "Member" exactly when the admin, manager or member links are chosen, with admin checked first |
| Navigation.LinksUnderOwnSection | src/components/dashboard/DashboardSidebar.jsx:20-59 | each list has four links, all under its own role's dashboard section |
| Navigation.EndFlagOnlyOverview | src/components/dashboard/DashboardSidebar.jsx:139 | the exact-match flag is set on the overview link of each list and on no other link |
| Navigation.SidebarLinksAdmitted | src/components/dashboard/DashboardSidebar.jsx:20-65 | every sidebar link a session sees resolves to a page whose guards admit that session |
| Session.AuthSession.constructor | src/providers/AuthProvider.jsx:19-21 | a fresh provider has no user, no record, loading raised and no calls |
| Session.AuthSession.GetIdToken | src/providers/AuthProvider.jsx:48-53 | no token exactly when there is no user; otherwise that user's token |
| Session.AuthSession.CreateUser | src/providers/AuthProvider.jsx:25-30 | raises loading; creates the account, then sets name and photo only if creation succeeded; returns the first failure or the profile update's outcome |
| Session.AuthSession.LoginUser | src/providers/AuthProvider.jsx:32-35 | raises loading and makes one password sign-in, whose outcome it returns |
| Session.AuthSession.GoogleLogin | src/providers/AuthProvider.jsx:37-40 | raises loading and makes one Google sign-in, whose outcome it returns |
| Session.AuthSession.LogoutUser | src/providers/AuthProvider.jsx:42-46 | raises loading and posts the backend logout; signs out of the provider only when that post succeeds |
| Session.AuthSession.OnAuthStateChanged | src/providers/AuthProvider.jsx:56-79 | stores the user and always lowers loading; no user or a failed exchange leaves no record but keeps the user; the token is posted only when it was obtained |
| Session.RejectedLogoutKeepsSpinner | src/providers/AuthProvider.jsx:42-46 | an admin whose backend logout is rejected stays signed in with loading raised, so the admin gate turns from page to spinner |
| SecureClient.RequestConfig.AttachToken | src/hooks/useAxiosSecure.js:16-18 | a non-empty token sets the bearer header; no token or an empty one leaves the headers unchanged |
| SecureClient.InterceptRequest | src/hooks/useAxiosSecure.js:14-20 | the header carries the session user's token when there is one, and the config is otherwise untouched |
| SecureClient.OnResponse | src/hooks/useAxiosSecure.js:25 | a successful response passes through unchanged |
| SecureClient.OnResponseError | src/hooks/useAxiosSecure.js:26-32 | 401 and 403 log out and then navigate to /login; if the logout itself rejects, the handler settles with the logout's failure and does not navigate; any other status or no response does neither and the error is re-rejected |
| SecureClient.InterceptorList.Use | src/hooks/useAxiosSecure.js:13-24 | registering appends one active handler and returns its index |
| SecureClient.InterceptorList.Eject | src/hooks/useAxiosSecure.js:36-37 | ejecting deactivates exactly that index and nothing else |
| SecureClient.Mount | src/hooks/useAxiosSecure.js:12-33 | mounting adds one request and one response handler |
| SecureClient.Unmount | src/hooks/useAxiosSecure.js:35-38 | cleanup deactivates exactly the two handlers mounting added |
| SecureClient.MountThenUnmount | src/hooks/useAxiosSecure.js:12-39 | after mount and cleanup both lists hold only inactive new entries; the earlier handlers are untouched |
| UrlParams.Lookup | src/pages/Clubs.jsx:36-38 | `get` finds nothing exactly when no pair has the key; otherwise it returns the value of the first pair with that key |
| UrlParams.SetPairLookup | src/pages/Clubs.jsx:55-58 | after `set`, the key reads the new value, every other key reads as before, and no two pairs carry the key |
| UrlParams.SetAbsentAppends | src/pages/Clubs.jsx:55-58 | setting a key not yet present appends it at the end |
| UrlParams.SearchParams.constructor | src/pages/Clubs.jsx:43 | a new parameter list is empty |
| UrlParams.SearchParams.Append | src/pages/Clubs.jsx:44-46 | `append` adds the pair at the end |
| UrlParams.SearchParams.Set | src/pages/Clubs.jsx:56-58 | `set` gives the key the new value and leaves every other key's value alone |
| ClubsBrowse.InitialFilters | src/pages/Clubs.jsx:36-38 | a missing search, category or sort parameter reads as "", "All" or "newest"; category and sort are never empty |
| ClubsBrowse.RoundTrip | src/pages/Clubs.jsx:36-77 | for a non-empty category and sort, reloading the URL the handlers write gives back the same search, category and sort |
| ClubsBrowse.RoundTripOfChoices | src/pages/Clubs.jsx:36-77 | any listed category with any listed sort option survives a reload with any search text |
| ClubsBrowse.EmptyCategoryReloadsAsAll | src/pages/Clubs.jsx:37-57 | an empty category is written as an empty parameter and reloads as "All" |
| ClubsBrowse.RequestMatchesUrl | src/pages/Clubs.jsx:45-57 | the request's parameters and the URL's are the same list exactly when the category is non-empty |
| ClubsBrowse.ClubsPage.constructor | src/pages/Clubs.jsx:35-38 | the page state is the filters read from the URL |
| ClubsBrowse.ClubsPage.RequestParams | src/pages/Clubs.jsx:42-46 | the request pairs follow the search, category, sort rule on the current filters; category is sent exactly when it is neither empty nor "All" |
| ClubsBrowse.ClubsPage.WriteUrl | src/pages/Clubs.jsx:55-59 | the URL becomes the three-key rule applied to the current filters, with the filters unchanged |
| ClubsBrowse.ClubsPage.TypeSearch | src/pages/Clubs.jsx:96 | typing changes the search text only and leaves the URL alone |
| ClubsBrowse.ClubsPage.HandleSearch | src/pages/Clubs.jsx:53-60 | submitting writes the current filters to the URL |
| ClubsBrowse.ClubsPage.HandleCategoryChange | src/pages/Clubs.jsx:62-69 | the category changes, search and sort stay, and the URL holds the new filters |
| ClubsBrowse.ClubsPage.HandleSortChange | src/pages/Clubs.jsx:71-78 | the sort changes, search and category stay, and the URL holds the new filters |
| EventsBrowse.InitialEventFilters | src/pages/Events.jsx:20-21 | sort defaults to "date-asc"; the upcoming filter is off exactly when the parameter is "false" |
| EventsBrowse.UpcomingPairIffOn | src/pages/Events.jsx:26-48 | the `upcoming=true` pair is written exactly when the filter is on |
| EventsBrowse.SortRoundTrip | src/pages/Events.jsx:20-47 | a non-empty sort survives a reload |
| EventsBrowse.UpcomingOnRoundTrip | src/pages/Events.jsx:21-48 | the filter being on survives a reload |
| EventsBrowse.UpcomingOffLost | src/pages/Events.jsx:21-48 | as written, a page with the filter off reloads with it on |
| EventsBrowse.CorrectedRoundTrip | src/pages/Events.jsx:20-50 | writing the off state as `upcoming=false` makes every state with a non-empty sort survive a reload |
| EventsBrowse.EventsPage.constructor | src/pages/Events.jsx:19-21 | the page state is the filters read from the URL |
| EventsBrowse.EventsPage.RequestParams | src/pages/Events.jsx:25-28 | the request holds sort when set, then `upcoming=true` when on |
| EventsBrowse.EventsPage.WriteUrl | src/pages/Events.jsx:46-49 | the URL becomes the same pair rule applied to the current filters |
| EventsBrowse.EventsPage.HandleSortChange | src/pages/Events.jsx:35-41 | the sort changes, the upcoming filter stays, and the URL holds the new state |
| EventsBrowse.EventsPage.HandleUpcomingToggle | src/pages/Events.jsx:43-50 | the filter is negated, the sort stays, and the URL holds the new state |
| Checkout.ConfirmOnlyAfterSuccess | src/pages/EventDetails.jsx:58-69 | the server confirm is posted, and success reported, only when the card was confirmed with no error and status "succeeded" |
| Checkout.ConfirmNamesPurpose | src/pages/ClubDetails.jsx:42-52 | the confirm carries the payment intent and names the purpose: "membership" with the club id, or "event" with the event id |
| Checkout.CardPaymentForm.constructor | src/pages/EventDetails.jsx:33 | a new form is not processing and has done nothing |
| Checkout.CardPaymentForm.HandleSubmit | src/pages/EventDetails.jsx:35-75 | without a ready card SDK nothing happens; otherwise the submission's effects are recorded, processing ends false whatever the outcome, and success is reported exactly when intent, card and confirm all succeed |
| EventDetails.FindRegistration | src/pages/EventDetails.jsx:124 | the registration found is the first one for this event (no earlier entry names it); none is found exactly when no registration names it |
| EventDetails.PanelPriority | src/pages/EventDetails.jsx:267-308 | the sidebar shows registered, ended (date strictly before now), full, card form, then button: each exactly when its condition holds and no earlier one does |
| EventDetails.FullnessRule | src/pages/EventDetails.jsx:180-181 | no capacity or capacity 0 is never full; otherwise full exactly when registrations reach capacity |
| EventDetails.HintBesideControls | src/pages/EventDetails.jsx:310 | the login hint shows for an anonymous visitor exactly when the register controls show, and never for a signed-in one |
| EventDetails.PriceOf | src/pages/EventDetails.jsx:262-264 | the price is free exactly when the event is unpaid or its fee is not positive; otherwise it is the fee |
| EventDetails.RegisterPostedOnlyWhenConfirmed | src/pages/EventDetails.jsx:142-163 | an anonymous visitor is only sent to /login with the event as return target; the registration is posted once exactly when signed in, free and confirmed |
| EventDetails.EventPage.constructor | src/pages/EventDetails.jsx:109 | the card form starts closed |
| EventDetails.EventPage.HandleRegister | src/pages/EventDetails.jsx:142-163 | a signed-in visitor on a paid event only opens the card form; otherwise the register flow's effects are recorded |
| EventDetails.EventPage.OnPaymentSuccess | src/pages/EventDetails.jsx:292-295 | a paid registration closes the card form and refreshes this event's registration |
| ClubDetails.FindMembership | src/pages/ClubDetails.jsx:98-106 | nothing is found without a user; what is found is the first membership for this club; none is found only when no membership names it |
| ClubDetails.FirstForClub | src/pages/ClubDetails.jsx:103 | the membership found is the first one for this club (no earlier entry names it); none is found exactly when no membership names it |
| ClubDetails.PanelPriority | src/pages/ClubDetails.jsx:236-259 | any membership shows the notice; the card form needs the form opened and a positive fee; otherwise the join button |
| ClubDetails.AnyStatusIsMember | src/pages/ClubDetails.jsx:236-244 | a membership for the club in any status hides every join control |
| ClubDetails.HintBesideControls | src/pages/ClubDetails.jsx:236-268 | an anonymous visitor sees the login hint under the join controls, never the member notice; a signed-in visitor never sees the hint |
| ClubDetails.PriceOf | src/pages/ClubDetails.jsx:233 | the label reads free exactly when the fee is 0 or less, otherwise the fee |
| ClubDetails.UpcomingPreview | src/pages/ClubDetails.jsx:209 | at most three upcoming events are listed, the first ones in order |
| ClubDetails.JoinPostedOnlyWhenConfirmed | src/pages/ClubDetails.jsx:129-150 | an anonymous visitor is only sent to /login with the club as return target; the join is posted once exactly when signed in, the fee is 0 or less and it is confirmed; isPaid plays no part |
| ClubDetails.ClubPage.constructor | src/pages/ClubDetails.jsx:88 | the card form starts closed |
| ClubDetails.ClubPage.HandleJoin | src/pages/ClubDetails.jsx:129-150 | a signed-in visitor and a positive fee only open the card form; otherwise the join flow's effects are recorded |
| ClubDetails.ClubPage.OnPaymentSuccess | src/pages/ClubDetails.jsx:249-252 | a paid membership closes the card form and refreshes this club's membership |
| FieldRules.RequiredError | src/pages/dashboard/manager/CreateClub.jsx:68 | a required field errors, with its own message, exactly when it is undefined, null, empty text or false |
| FieldRules.EmailRuleIsRegex | src/pages/Register.jsx:115-121 | the email predicate holds exactly when the pattern matches: one "@", no whitespace, a non-empty local part, and a domain with a dot neither first nor last |
| FieldRules.PasswordRuleIsRegex | src/pages/Register.jsx:158-168 | the password predicate (six or more characters, an upper-case and a lower-case letter) holds exactly when the pattern and its two lookaheads accept |
| FieldRules.TicksMatchRule | src/pages/Register.jsx:185-199 | on one-line input all three strength ticks are shown exactly when the password rule accepts |
| FieldRules.HiddenTicksUnset | src/pages/Register.jsx:185 | the ticks are shown exactly under a non-empty password; when hidden, no tick would be set and the rule refuses the password |
| FieldRules.TicksWithLineSeparator | src/pages/Register.jsx:165-199 | a password containing a line break can show all three ticks while the rule refuses it |
| FieldRules.NameError | src/pages/Register.jsx:88-94 | a name passes exactly when it has at least four characters |
| FieldRules.PasswordError | src/pages/Register.jsx:158-168 | the required message for an empty password, the length message for one under six characters; no error exactly when the password rule accepts |
| FieldRules.EmailError | src/pages/Login.jsx:78-84 | both forms check the same email rule: no error exactly when the email is valid, and an empty email is reported as required |
| FieldRules.LoginPasswordError | src/pages/Login.jsx:109-111 | the login password is only required; any non-empty text passes |
| JsValues.Prefix | src/pages/dashboard/admin/AdminOverview.jsx:32 | `substring(0, n)` is a start of the text: the whole text when it has at most n characters, and exactly its first n otherwise |
| JsValues.ParseIntDecimal | src/pages/dashboard/manager/EditEvent.jsx:67-69 | the decimal numeral of a natural number parses back to that number |
| LoginPage.ReturnTarget | src/pages/Login.jsx:13 | the return target is the page the visitor came from, or "/" when there is none |
| LoginPage.LoginAcceptsAnyPassword | src/pages/Login.jsx:78-111 | the login form is accepted exactly when the email is valid and the password is non-empty |
| LoginPage.SignInNavigatesOnlyOnSuccess | src/pages/Login.jsx:23-49 | a sign-in navigates exactly when it succeeds, with replace, to the return target; a failure only toasts its message or the fallback; no request is sent |
| LoginPage.LoginForm.constructor | src/pages/Login.jsx:15 | the form is not loading and has done nothing |
| LoginPage.LoginForm.Submit | src/pages/Login.jsx:23-36 | an invalid form does nothing; otherwise one password sign-in, its effects, and loading reset |
| LoginPage.LoginForm.GoogleSubmit | src/pages/Login.jsx:38-49 | one Google sign-in, its effects with the Google fallback message, and loading reset |
| RegisterPage.UserRecord | src/pages/Register.jsx:33-43 | the backend record has exactly name, email and photoURL, the photo defaulting to "" when falsy |
| RegisterPage.RegisterOutcome | src/pages/Register.jsx:27-52 | the record is posted exactly when the account was created and the token obtained; it navigates to "/" exactly when the post also succeeds |
| RegisterPage.RegisterForm.constructor | src/pages/Register.jsx:16 | the form is not loading and has done nothing |
| RegisterPage.RegisterForm.Submit | src/pages/Register.jsx:27-52 | an invalid form does nothing; otherwise account creation, the record post when reached, their effects, and loading reset |
| RegisterPage.RegisterForm.GoogleSubmit | src/pages/Register.jsx:54-65 | one Google sign-in; on success a toast and navigation to "/", on failure a toast with the Google fallback; loading reset |
| EventForms.ApprovedClubs | src/pages/dashboard/manager/CreateEvent.jsx:18 | every approved club is offered, nothing else is, and the list is no longer than the input |
| EventForms.CreateViewOf | src/pages/dashboard/manager/CreateEvent.jsx:55-62 | the form is replaced by a notice exactly when no club is approved; otherwise it offers at least one club, all approved |
| EventForms.FeeError | src/pages/dashboard/manager/CreateEvent.jsx:192-195 | only a paid event's fee is checked: a blank fee gives "Event fee is required for paid events", a number below 0.01 gives "Fee must be greater than 0", and any other fee passes |
| EventForms.EventPayload | src/pages/dashboard/manager/CreateEvent.jsx:44-51 | other fields pass through; isPaid defaults to false; an unpaid event sends fee 0; an unparsable fee sends 0; an empty capacity sends null, otherwise its parsed integer |
| EventForms.EditSavesEmptyFeeAsZero | src/pages/dashboard/manager/EditEvent.jsx:170-174 | the edit form accepts a paid event with an empty fee, and it is saved with fee 0 |
| EventForms.EventPrefill | src/pages/dashboard/manager/EditEvent.jsx:33-46 | title, description, location, isPaid and fee are copied; the date is cut to 16 characters; a missing or zero capacity prefills as "", a positive one as itself |
| EventForms.ResubmitUnedited | src/pages/dashboard/manager/EditEvent.jsx:36-71 | resubmitting an unedited prefill keeps a positive capacity, sends a missing or zero capacity as null, and sends fee 0 for unpaid events |
| EventForms.CreateEventOutcome | src/pages/dashboard/manager/CreateEvent.jsx:31-51 | one POST /events; on success a toast and navigation to the manager's events; on failure only a toast |
| EventForms.EditEventOutcome | src/pages/dashboard/manager/EditEvent.jsx:48-71 | one PATCH of the event; on success it refreshes the manager's events and navigates to them |
| ClubForms.AcceptedCategoryIsListed | src/pages/dashboard/manager/CreateClub.jsx:100-107 | an accepted form's category is one of the ten listed values |
| ClubForms.ClubPayload | src/pages/dashboard/manager/CreateClub.jsx:46-51 | every other field passes through; the fee becomes its parsed number, or 0 when empty or unparsable |
| ClubForms.EmptyFeeIsFree | src/pages/dashboard/manager/CreateClub.jsx:49 | an empty fee is sent as 0 |
| ClubForms.ClubPrefill | src/pages/dashboard/manager/EditClub.jsx:43-54 | the six club fields are copied as stored |
| ClubForms.ResubmitUnedited | src/pages/dashboard/manager/EditClub.jsx:45-74 | resubmitting an unedited prefill sends the stored club back unchanged |
| ClubForms.CreateClubOutcome | src/pages/dashboard/manager/CreateClub.jsx:33-51 | one POST /clubs; on success a toast and navigation to the manager's clubs; on failure only a toast |
| ClubForms.EditClubOutcome | src/pages/dashboard/manager/EditClub.jsx:56-75 | one PATCH of the club; on success it refreshes the manager's clubs and navigates to them |
| Effects.CancelEffects | src/pages/dashboard/manager/EditClub.jsx:195 | cancel navigates and sends no request |
| Effects.MutationSendsOnce | src/pages/dashboard/admin/ManageUsers.jsx:24-35 | a mutation sends its request exactly once, whatever the reply and the success effects |
| Effects.ConfirmedMutationSends | src/pages/dashboard/admin/ManageUsers.jsx:43-53 | the dialog comes first, and the request is sent exactly when it is confirmed |
| ManageUsers.RoleBadgeOf | src/pages/dashboard/admin/ManageUsers.jsx:95-101 | admins get the error badge, managers the secondary badge, every other role the primary badge |
| ManageUsers.RoleText | src/pages/dashboard/admin/ManageUsers.jsx:103 | "clubManager" displays as "Manager"; any other role as stored |
| ManageUsers.RoleChangeGuard | src/pages/dashboard/admin/ManageUsers.jsx:37-54 | one's own row only gets the error toast; any other row gets the dialog first, the role request only when confirmed, and the user list refreshed on success |
| ManageUsers.RoleOptionsKnown | src/pages/dashboard/admin/ManageUsers.jsx:114-116 | the select offers exactly member, clubManager and admin, each with its own badge |
| ManageUsers.DisabledRowIsRefused | src/pages/dashboard/admin/ManageUsers.jsx:112 | the row whose select is locked is exactly the row a change would be refused on |
| ManageClubs.ActionWord | src/pages/dashboard/admin/ManageClubs.jsx:34 | "approve" exactly for the "approved" status, otherwise "reject" |
| ManageClubs.Capitalised | src/pages/dashboard/admin/ManageClubs.jsx:36 | same length and same tail; a lower-case first letter becomes its upper-case letter, any other first character is kept |
| ManageClubs.DialogTitle | src/pages/dashboard/admin/ManageClubs.jsx:36 | the title is "Approve Club" or "Reject Club", following the action word |
| ManageClubs.StatusBadgeOf | src/pages/dashboard/admin/ManageClubs.jsx:49-58 | approved and rejected each get their own badge, every other status the warning badge |
| ManageClubs.Controls | src/pages/dashboard/admin/ManageClubs.jsx:127 | controls are offered exactly for pending clubs, and they only offer "approved" or "rejected" |
| ManageClubs.DecisionOnPendingOnly | src/pages/dashboard/admin/ManageClubs.jsx:33-47 | a decision reaches the server only from a pending club's controls and only when confirmed; it carries the club id and chosen status; on success it shows "Club status updated" and refreshes the club list, on failure it shows the error or "Failed to update status"; a cancelled dialog does nothing more |
| ClubMembers.MemberBadgeOf | src/pages/dashboard/manager/ClubMembers.jsx:81 | active gets success, expired gets error, anything else the warning badge |
| ClubMembers.MemberTableOf | src/pages/dashboard/manager/ClubMembers.jsx:59-110 | an empty member list shows "No members yet"; otherwise one row per member, in order |
| ClubMembers.ChoiceUpdatesAtOnce | src/pages/dashboard/manager/ClubMembers.jsx:88-101 | picking a status sends one request with that membership's id and status, with no dialog, and refreshes this club's members on success |
| AdminOverview.CountOr0 | src/pages/dashboard/admin/AdminOverview.jsx:46 | a missing count displays as 0, a present one as itself |
| AdminOverview.BarName | src/pages/dashboard/admin/AdminOverview.jsx:32 | the bar name is the first 15 characters of the club name, or "Unknown" when it is missing or empty |
| AdminOverview.ChartBars | src/pages/dashboard/admin/AdminOverview.jsx:30-34 | one bar per item in the same order, each with that item's name and count |
| AdminOverview.OverviewOf | src/pages/dashboard/admin/AdminOverview.jsx:43-103 | each count card shows its statistic, a missing one as 0 (the revenue card is not modelled); total clubs is pending plus approved plus rejected; the chart is one bar per club in order, shown exactly when there are bars; no statistics shows zeros |

## Left out

- `src/routes/PrivateRoute.jsx` is not part of this model. The router table records only where the sign-in guard sits, not what it decides.
- Routing: case-insensitive matching, trailing slashes and react-router's ranking are not modelled. Paths are lists of segments, and the table's patterns never overlap.
- Percent-encoding of query strings and of path segments (an email inside `/admin/users/<email>/role`) is not modelled. A query string is a list of pairs, and a path is plain text.
- Dates: date-fns formatting and `new Date()` are left out. The current time is a parameter and event dates are timestamps. The edit prefill cuts the stored date text to 16 characters, without the `toISOString` conversion.
- Numbers: fees are unbounded reals and `toFixed` money formatting is left out. `Number.parseInt`/`parseFloat` are modelled on decimal text, without "Infinity", hexadecimal or the exponent form that `String` gives very large or very small numbers (so `parseInt(1e-7)`, which reads "1e-7" and gives 1, is not modelled).
- String lengths count characters, not UTF-16 code units, so text outside the Basic Multilingual Plane measures differently for the name rule, the registration password's `minLength: 6` and `.{6,}` (`Register.jsx:160-165`) and the chart's 15-character cut.
- The JavaScript regular-expression engine is not modelled. Each pattern is stated as a predicate and proved equal to a direct reading of the pattern.
- Request headers are recorded only where the session sends the token (`/auth/jwt` and the secure client's interceptor). The bearer header on the registration's `POST /users` is not recorded.
- The react-query cache is not modelled: stale times, retries and invalidation timing. An invalidation is recorded by its key alone.
- Async interleavings are not modelled: overlapping requests, unmounts during a request, and the disabled state of pending buttons. Each handler runs to completion with its outcomes given.
- The identity provider, the card processor and the confirmation dialog are outcome parameters. Their SDKs, dialog texts and icons are left out; toasts are recorded by their text.
- The photo field's value is passed on as the form gives it, including a file list. Its JSON serialisation is not modelled.
- The request interceptor's error handler only re-rejects and is not modelled.
- A rejected `getIdToken()` inside the request interceptor (`src/hooks/useAxiosSecure.js:15`) aborts the request before it is sent; the model treats the token lookup as always settling, so that abort is not modelled.
- CreateEventAccepted, EditEventAccepted, ClubAccepted and the email rule (FieldRules.EmailError) model only the react-hook-form rules. The forms do not set `noValidate`, so the browser's own constraints run first and are not modelled: `min="1"` on the capacity (`CreateEvent.jsx:166-167`, `EditEvent.jsx:146-147`), `min="0.01" step="0.01"` on the event fee (`CreateEvent.jsx:187-189`, `EditEvent.jsx:170-172`), `min="0" step="0.01"` on the club fee (`CreateClub.jsx:173-175`, `EditClub.jsx:184-185`), `type="url"` on the club banner image (`CreateClub.jsx:139`, `EditClub.jsx:172`) and `type="email"` on the sign-in and registration emails (`Login.jsx:73`, `Register.jsx:112`). The model may therefore accept a submission the browser would block.
- Capitalised (ManageClubs.Capitalised) upper-cases only the ASCII letters a-z, unlike JavaScript's `toUpperCase`; the only texts it is given are "approve" and "reject".
- Presentation is not modelled: markup, styling, animation, show-password toggles, the mobile menu and the read-only listing pages.

## Findings

| source | as written | input that shows it | evidently intended | confidence | as-written member | corrected member |
|---|---|---|---|---|---|---|
| src/pages/Events.jsx:21-48 | the toggle and sort handlers write `upcoming=true` when the filter is on and nothing when it is off, while the page reads an absent parameter as on | turn the upcoming filter off with sort "date-asc", then reload the written URL `?sort=date-asc`: the filter comes back on | write `upcoming=false` for the off state, which the reader already recognises, so that every state survives a reload | not executed | EventsBrowse.UpcomingOffLost | EventsBrowse.CorrectedRoundTrip |

`EventsBrowse.EventsPage` follows the page as written, so its handlers keep
the lost off state. `EventsBrowse.CorrectedUrlPairs` is the corrected
URL-writing rule, and `EventsBrowse.CorrectedRoundTrip` proves it round-trips.
