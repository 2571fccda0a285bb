# Government scheme portal: access rules, session and page logic

A Dafny model of the decision logic of a React portal where citizens browse
government schemes and apply, officers review applications and
administrators manage the catalogue. Almost all of the portal is markup over
hard-coded demo data. Its behaviour comes down to a few small, pure rules,
and these are what the model covers:

- **Route guards** (`App`). `ProtectedRoute`, `OfficerAdminRoute` and
  `AdminRoute`, and which guard wraps which route pattern.
- **The session** (`Auth`). `useAuth` holds the signed-in user, its copy in
  browser storage, and a loading flag. `login` looks a demo account up by
  email only. `register` always succeeds. `logout` clears the user and the
  stored copy. The restore effect adopts a stored user on load.
- **Navigation** (`Navigation`). The role-dependent links, the active-link
  test, the avatar initial and display name, and logout.
- **List filtering** (`Applications`, `Schemes`, with `Seqs.Filter` as
  `Array.prototype.filter`). Each list uses a case-insensitive substring
  search ANDed with an exact status or category filter. Citizens see only
  their own applications.
- **"Only a Citizen may apply"** (`Schemes`, `SchemeDetails`). The apply
  handlers and the `disabled` state of the Apply buttons.
- **The review page** (`ApplicationReview`). Reject and clarification need a
  comment that is not blank once trimmed. One in-progress flag disables all
  three buttons. The page also has document badge colours and labels, and
  turns the camelCase eligibility keys into labels.
- **The status page** (`ApplicationStatus`). One colour table serves the
  header badge, the document badges and the timeline. The page also has the
  document icons, the timeline markers and the comments card.
- **Two form state machines** (`Profile`, `Register`). The profile edit
  toggle and password-change form, and the registration submit with its
  role check.

The code has no application lifecycle: no status transitions, no officer
assignment and no eligibility evaluation. The review handlers only show toasts and
leave the application as it was (`ApplicationReview.ReviewLeavesApplicationAlone`).
The approve/reject buttons of the list do the same (`Applications.HandleReviewAction`).
The eligibility checklist is a literal, and only its labels are computed.

The model treats outside effects as values:
- Toasts and navigations are `Ui.Event` values that a handler returns.
- CSS colour classes are the four `Ui.Tone` values.
- The `govPortalUser` storage entry is a field `stored: Option<User>`. Its
  JSON encoding is assumed to round-trip exactly.
- The `Date.now()` id of a registered user is a parameter.
- `toLowerCase`/`toUpperCase` are ASCII-only.
- `trim` removes an explicit set of whitespace characters (`Strings.IsSpace`).
- Roles are plain strings. `register` casts whatever role it gets, so nothing
  restricts a user's role to the three names.

## Model

| member | source | states |
|---|---|---|
| App.ProtectedRoute | src/App.tsx:33-36 | renders iff a user is signed in, whatever the role; otherwise redirects to `/login` |
| App.AdminRoute | src/App.tsx:38-41 | renders iff the role is exactly "Admin"; every other user, signed out included, goes to `/unauthorized` |
| App.OfficerAdminRoute | src/App.tsx:43-46 | renders iff the role is "Admin" or "Officer"; everyone else goes to `/unauthorized` |
| App.GuardsAreNested | src/App.tsx:33-46 | whoever AdminRoute admits, OfficerAdminRoute admits, and whoever that admits, ProtectedRoute admits; an Officer and a Citizen show that each inclusion is strict |
| App.SignedOutRedirects | src/App.tsx:35-45 | a signed-out visitor goes to `/login` from ProtectedRoute but to `/unauthorized` from the two role guards |
| App.ReloadRedirectsStoredUser | src/App.tsx:33-46 | on the first render after a reload the user is still null although a session is stored, so ProtectedRoute sends a stored user to `/login` and the role guards send even a stored Admin to `/unauthorized`; the session is restored only afterwards |
| App.AwaitRestore | src/hooks/useAuth.tsx:44-53 | a guard that reads `isLoading` decides nothing while it holds and afterwards gives the ordinary guard's outcome |
| App.ReloadAdmitsStoredUser | src/hooks/useAuth.tsx:44-53 | with the wait, the first render decides nothing and after the restore every guard gives a stored user the outcome it gave before the reload |
| App.RoutePathsDistinct | src/App.tsx:50-78 | no route pattern is declared twice |
| App.DeclaredRoutesGetTheirGuard | src/App.tsx:50-78 | the guard lookup gives every declared route the guard its element is wrapped in |
| App.UndeclaredPathsHaveNoGuard | src/App.tsx:50-79 | a path has no guard exactly when no route declares it; such a path falls to the catch-all page |
| App.GuardedRoutes | src/App.tsx:68-74 | `/review/:id` is behind OfficerAdminRoute; the four `/admin/*` pages are behind AdminRoute |
| App.PublicRoutes | src/App.tsx:50-54 | `/`, `/home`, `/about`, `/login`, `/register`, `/unauthorized` and `/server-error` have no guard |
| Auth.Restore | src/hooks/useAuth.tsx:46-53 | after the load effect, the user is the stored session if there is one and otherwise stays null; loading is off and storage is untouched |
| Auth.FindByEmail | src/hooks/useAuth.tsx:61 | `find` returns the first demo account whose email is exactly the given one, or none when no account has it |
| Auth.Login | src/hooks/useAuth.tsx:55-71 | succeeds iff some demo account has exactly this email; on success signs in and stores the first such account; on failure user and storage are unchanged; loading ends off |
| Auth.DemoAccounts | src/hooks/useAuth.tsx:21-40 | login accepts exactly the three demo emails, each signing in its own role |
| Auth.LoginIgnoresPassword | src/hooks/useAuth.tsx:55-71 | the password has no influence on the result |
| Auth.Register | src/hooks/useAuth.tsx:73-95 | always succeeds; the user becomes the given id, name, email and unchecked role, stored alike; loading ends off |
| Auth.Logout | src/hooks/useAuth.tsx:97-100 | nobody is signed in and the stored session is removed; the loading flag is untouched |
| Auth.LogoutIdempotent | src/hooks/useAuth.tsx:97-100 | logging out twice is logging out once |
| Auth.ActionsKeepMirror | src/hooks/useAuth.tsx:61-99 | from a state whose storage mirrors the user, any sequence of login/register/logout keeps storage equal to the user and leaves loading off |
| Auth.SessionMirrorsStorage | src/hooks/useAuth.tsx:43-100 | from first render, restoring and then any operations keep storage equal to the signed-in user |
| Navigation.NavItems | src/components/Navigation.tsx:34-42 | the links begin with Dashboard, Schemes, Applications; an Admin gets a fourth, "Admin Panel" to `/admin`, last; everyone else gets exactly three |
| Navigation.AtMostOneActive | src/components/Navigation.tsx:60 | a link is active iff the pathname equals its href, and no two links are active together |
| Navigation.AdminPanelIffAdminRoute | src/components/Navigation.tsx:40-42 | the Admin Panel link is offered to exactly the users AdminRoute admits |
| Navigation.AdminPanelLinkHasNoRoute | src/components/Navigation.tsx:41 | the Admin Panel href `/admin` is not a declared route, so the link reaches the catch-all page |
| Navigation.DisplayName | src/components/Navigation.tsx:97 | the menu shows the user's name, or "User" when there is no user or the name is empty |
| Navigation.AvatarInitial | src/components/Navigation.tsx:89 | the avatar shows one character that is never a lower-case letter |
| Navigation.AvatarMatchesDisplayName | src/components/Navigation.tsx:89-97 | the avatar is the upper-cased first character of the displayed name, and "U" when the name falls back to "User" |
| Navigation.HandleLogout | src/components/Navigation.tsx:29-32 | signs out, clearing user and storage, then navigates to `/login` |
| Navigation.LogoutLandsOnLogin | src/components/Navigation.tsx:29-32 | after logout every guarded page turns the visitor away, and the login page it lands on renders |
| Seqs.Filter | src/pages/Applications.tsx:98 | `filter` keeps, in order, exactly the elements satisfying the predicate: a subsequence holding every satisfying element, as many times as it occurs in the input, and nothing else |
| Seqs.FilterIdempotent | src/pages/Schemes.tsx:91-96 | filtering a filtered list with the same predicate changes nothing |
| Seqs.FilterConjunction | src/pages/Applications.tsx:107-111 | filtering by a conjunction is filtering by one conjunct, then by the other |
| Seqs.FilterMonotone | src/pages/Schemes.tsx:94 | a weaker predicate keeps a superset of the elements, in the same relative order |
| Strings.Lower | src/pages/Applications.tsx:100-102 | `toLowerCase` keeps the length and lowers each ASCII capital in place |
| Strings.LowerIdempotent | src/pages/Applications.tsx:100-102 | lower-casing twice is lower-casing once |
| Strings.Includes | src/pages/Applications.tsx:100-102 | `includes` is true iff the needle occurs at some position of the haystack |
| Strings.IncludesEmpty | src/pages/Applications.tsx:100-102 | every string includes the empty string |
| Strings.TrimEmptyIffBlank | src/pages/ApplicationReview.tsx:118 | `trim()` gives the empty string exactly when the string is all whitespace |
| Strings.Trim | src/pages/ApplicationReview.tsx:118 | `trim()` is a contiguous middle piece of the string, with only whitespace cut off before and after it, and neither starts nor ends with whitespace |
| Strings.TrimKeepsNonWhitespace | src/pages/ApplicationReview.tsx:404 | `trim` deletes only whitespace: the other characters survive in order |
| Strings.SpaceBeforeCapitals | src/pages/ApplicationReview.tsx:404 | the regular-expression replace only adds spaces, and every ASCII capital ends up right after a space |
| Strings.DropUndoesSpacing | src/pages/ApplicationReview.tsx:404 | deleting the space in front of each capital gives back the original string, for every string: exactly one space is inserted per capital and nothing else changes |
| Strings.SpacesOnlyBeforeCapitals | src/pages/ApplicationReview.tsx:404 | for a string without whitespace, the only whitespace of the result is a plain space directly before a capital |
| Strings.TrimKeepsWordSplit | src/pages/ApplicationReview.tsx:404 | `trim` keeps a string split at its capitals that way: spaces only before capitals, and every non-leading capital after a space |
| Strings.IndexOf | src/pages/ApplicationStatus.tsx:215 | the first index holding the character, or -1 when it does not occur |
| Strings.ReplaceFirst | src/pages/ApplicationStatus.tsx:215 | `replace` with a string pattern changes only the first occurrence: same length, a string without it unchanged |
| Strings.ReplaceFirstSingle | src/pages/ApplicationReview.tsx:297 | replacing the first underscore of a string with at most one leaves no underscore |
| Strings.ReplaceFirstKeepsLaterOccurrences | src/pages/ApplicationStatus.tsx:215 | a second underscore is still there after the replace |
| Applications.FilterApplications | src/pages/Applications.tsx:98-112 | the shown list is an order-preserving subsequence of the applications; each entry matches search and status, and a Citizen's entries carry the Citizen's email; every application meeting those tests is shown, as many times as it is listed |
| Applications.EmptySearchMatchesAll | src/pages/Applications.tsx:99-102 | the empty search term matches every application |
| Applications.SearchIsCaseInsensitive | src/pages/Applications.tsx:99-102 | a term and its lower case find the same applications |
| Applications.UnfilteredStaffViewIsWholeList | src/pages/Applications.tsx:98-111 | with no term and "All", anyone but a Citizen sees the whole list in order |
| Applications.NonCitizensSeeSameList | src/pages/Applications.tsx:106-111 | every non-Citizen, signed out included, gets the same unrestricted list |
| Applications.CitizenViewRefinesStaffView | src/pages/Applications.tsx:106-111 | a Citizen's list is the Officer's list for the same filters, narrowed to the Citizen's email, so a subsequence of it |
| Applications.CitizenWithoutApplicationsSeesNone | src/pages/Applications.tsx:106-108 | a Citizen whose email no application carries sees an empty list, whatever the filters |
| Applications.DemoCitizenSeesNoApplications | src/pages/Applications.tsx:19-65 | the demo Citizen account owns none of the demo applications and sees an empty list |
| Applications.IconAndToneAgree | src/pages/Applications.tsx:73-89 | exactly "Approved" gets the check in the success colour, exactly "Rejected" the cross in the destructive colour, exactly "Under Review" the eye in the warning colour, and exactly the other statuses, Pending included, the clock in the muted colour |
| Applications.ReviewButtonsFollowReviewGuard | src/pages/Applications.tsx:234-235 | approve/reject appear iff OfficerAdminRoute would admit the user and the status is "Pending"; a Citizen or visitor never sees them |
| Applications.HandleReviewAction | src/pages/Applications.tsx:91-96 | the list's approve/reject only show a non-destructive "Application Approved" or "Application Rejected" toast and leave the list as it was |
| Schemes.FilterSchemes | src/pages/Schemes.tsx:91-96 | the shown schemes are an order-preserving subsequence; each matches term and category, and every scheme that matches is shown, as many times as it is listed |
| Schemes.SearchIgnoresCategoryAndEligibility | src/pages/Schemes.tsx:92-93 | the search reads name and description only; category and eligibility never change whether a term finds a scheme |
| Schemes.UnfilteredCatalogueIsWhole | src/pages/Schemes.tsx:91-96 | with no term and "All" the whole catalogue is shown in order |
| Schemes.FilterSchemesIdempotent | src/pages/Schemes.tsx:91-96 | re-filtering the shown list with the same term and category leaves it unchanged |
| Schemes.CategoryNarrowsAll | src/pages/Schemes.tsx:94 | picking a category narrows the "All" list for the same term, keeping its order |
| Schemes.CategoryIconOf | src/pages/Schemes.tsx:114-123 | FileText is given exactly to strings that are not one of the five named categories |
| Schemes.CategoryIconsAgree | src/pages/Schemes.tsx:20-123 | each demo scheme's icon is the one getCategoryIcon gives its category, and the five categories get five different icons |
| Schemes.HandleApply | src/pages/Schemes.tsx:98-112 | anyone but a Citizen, signed out included, gets only a destructive "Access Denied"; a Citizen gets "Application Started" |
| Schemes.ApplyButtonMatchesGate | src/pages/Schemes.tsx:227 | the Apply button is disabled for exactly the users the handler refuses |
| SchemeDetails.ApplyLink | src/pages/SchemeDetails.tsx:135 | the apply link is `/apply/` followed by the scheme id |
| SchemeDetails.PageApplyLink | src/pages/SchemeDetails.tsx:83-135 | both apply links of the page point at the form of the demo scheme "1", whatever id the route carries |
| SchemeDetails.LinkIgnoresRouteId | src/pages/SchemeDetails.tsx:135-312 | every scheme page links to `/apply/1`, so for any other route id the link misses the scheme asked for |
| SchemeDetails.HandleApply | src/pages/SchemeDetails.tsx:87-101 | anyone but a Citizen gets only "Access Denied"; a Citizen gets the redirect notice |
| SchemeDetails.SameGateAsCatalogue | src/pages/SchemeDetails.tsx:140 | the page refuses the same users as the catalogue, and both buttons are disabled for exactly those |
| SchemeDetails.EnabledApplyReachesForm | src/pages/SchemeDetails.tsx:317 | a user with enabled buttons passes the guard of `/apply/:schemeId` |
| ApplicationReview.Handle | src/pages/ApplicationReview.tsx:105-157 | a blocked handler shows only "Comments Required" and changes nothing; one that proceeds sets the flag to its action name, shows its own success title, then clears the flag; the application is never written |
| ApplicationReview.SuccessTitlesDiffer | src/pages/ApplicationReview.tsx:105-157 | the three actions announce themselves with three different titles |
| ApplicationReview.CommentRequirement | src/pages/ApplicationReview.tsx:118-146 | a handler is refused exactly when it is reject or clarification and the comments are all whitespace; approve always proceeds |
| ApplicationReview.ButtonsLockedWhileRunning | src/pages/ApplicationReview.tsx:345-377 | while a handler runs all three buttons are disabled and only its own shows the spinner; afterwards all are enabled |
| ApplicationReview.ReviewLeavesApplicationAlone | src/pages/ApplicationReview.tsx:29 | no sequence of clicks changes the application; the demo stays "Pending" |
| ApplicationReview.DocumentTone | src/pages/ApplicationReview.tsx:159-166 | verified is success, under_review warning, requires_clarification destructive, and nothing else has those colours |
| ApplicationReview.DocumentBadge | src/pages/ApplicationReview.tsx:297 | the badge text has the status's length, the first underscore becomes a space, and every other position, later underscores included, keeps its character |
| ApplicationReview.DemoDocumentBadgesHaveNoUnderscore | src/pages/ApplicationReview.tsx:45-81 | every document status of the page has at most one underscore, so no badge shows one |
| ApplicationReview.EligibilityLabel | src/pages/ApplicationReview.tsx:404 | a label neither starts nor ends with whitespace |
| ApplicationReview.LabelSpellsKey | src/pages/ApplicationReview.tsx:404 | the label of a whitespace-free key is the key split into words: with whitespace removed it spells the key, its only whitespace is single spaces each before a capital, and every capital but a leading one follows a space |
| ApplicationReview.KeysHaveNoWhitespace | src/pages/ApplicationReview.tsx:83-90 | the checklist keys contain no whitespace, so the word-split property applies to each |
| ApplicationReview.ChecklistLabelsSpellKeys | src/pages/ApplicationReview.tsx:83-90 | every label of the checklist is its key split into words that way |
| ApplicationStatus.StatusTone | src/pages/ApplicationStatus.tsx:88-97 | completed and verified are success, current and under_review warning, pending_clarification destructive; no other string has those colours |
| ApplicationStatus.DocumentIconMatchesBadge | src/pages/ApplicationStatus.tsx:99-106 | a document's icon has its badge's colour, except for the timeline words; exactly verified gets the check, exactly pending_clarification the eye, and every other status the clock |
| ApplicationStatus.TimelineMarkerMatchesStatusTone | src/pages/ApplicationStatus.tsx:160-173 | outside the document vocabulary the marker's colour is getStatusColor's, exactly completed gets the check, exactly current the clock, and the dot appears exactly for muted statuses |
| ApplicationStatus.BadgeKeepsSecondUnderscore | src/pages/ApplicationStatus.tsx:215 | for every status, the first underscore of its badge becomes a space and any later underscore stays |
| ApplicationStatus.CommentsCardOnPage | src/pages/ApplicationStatus.tsx:228 | the comments card is hidden exactly for an empty list, shows once any comment is added, and shows on the page |
| ApplicationStatus.SpacedStatusIsMuted | src/pages/ApplicationStatus.tsx:134 | the lower-cased status keeps its spaces and no colour key has one, so every status of several words gets a muted header badge |
| ApplicationStatus.HeaderBadgeMissesUnderReview | src/pages/ApplicationStatus.tsx:22-134 | the header badge of the page's "Under Review" application is muted, while the applications list colours that status as a warning |
| ApplicationStatus.HeaderToneMatchesList | src/pages/ApplicationStatus.tsx:134 | with the key normalised, the header colours "Under Review" and "Pending" the way the applications list does |
| ApplicationStatus.ClarificationSpellingsDiffer | src/pages/ApplicationStatus.tsx:94 | the review page's "requires_clarification" is muted here, and this page's "pending_clarification" is muted there |
| Profile.ToggleEdit | src/pages/Profile.tsx:132-134 | the header button flips the editing flag and touches nothing else |
| Profile.ToggleTwice | src/pages/Profile.tsx:134 | pressing it twice returns to the same state |
| Profile.SaveProfile | src/pages/Profile.tsx:53-62 | saving confirms with "Profile Updated" and leaves edit mode; the password form and its fields are untouched |
| Profile.CancelEdit | src/pages/Profile.tsx:289-291 | the form's Cancel leaves edit mode and touches nothing else |
| Profile.SaveAndCancelAgree | src/pages/Profile.tsx:61-291 | saving, the form's Cancel and, while editing, the header toggle all end in the same state |
| Profile.AadhaarNeverEditable | src/pages/Profile.tsx:168-198 | Aadhaar is disabled whatever the editing flag; every other field is editable exactly while editing |
| Profile.ChangePassword | src/pages/Profile.tsx:64-83 | different new and confirm values give only "Password Mismatch" and change nothing; equal ones give "Password Changed", close the form and clear all three fields |
| Profile.CancelPassword | src/pages/Profile.tsx:365-368 | cancel closes the form and clears the fields |
| Profile.SuccessIsLikeCancel | src/pages/Profile.tsx:65-82 | a successful change ends exactly like Cancel; the current password is never checked, and two empty new passwords are accepted |
| Profile.PasswordFieldsClearedWhenClosed | src/pages/Profile.tsx:312-368 | from the initial page, whatever the user does, a closed password form holds no typed text |
| Register.HandleSubmit | src/pages/Register.tsx:22-48 | `register` is called iff a role was picked; with none, only "Please select a role" is shown and the session is unchanged |
| Register.SubmitWithRoleLandsOnDashboard | src/pages/Register.tsx:33-40 | with a role, exactly the entered name, email and role are signed in, "Registration Successful" is shown, and the dashboard it navigates to renders |
| Register.FailureBranchUnreachable | src/pages/Register.tsx:41-46 | "Registration Failed" never appears, because `register` always succeeds |
| Register.UnlistedRoleIsAccepted | src/pages/Register.tsx:124-126 | a non-empty role outside the picker's three is registered as given; that user passes the sign-in guard, no role guard, and cannot apply |

## Left out

- Rendering is left out: JSX, CSS class strings, icons as components, toast descriptions. Colours are the four `Ui.Tone` values and toasts keep only their title and whether they are destructive.
- Timing is left out: the `setTimeout` delays, `async`/`await`, and the window in which `isLoading` is true during `login`/`register`. The one render that happens before the restore effect runs is kept, because it decides the reload finding below. Each operation is modelled by the state it leaves once it returns.
- Auth.Restore: the stored JSON is taken to decode to the user that was stored. A corrupted entry, which would make `JSON.parse` throw, is not modelled.
- Router matching is left out: matching a concrete URL such as `/schemes/7` against `/schemes/:id`, and the `Navigate` redirect itself. Only the table from route pattern to guard is modelled.
- Strings.Lower: `toLowerCase`/`toUpperCase` are modelled on ASCII letters only; Unicode case mapping is not.
- Navigation.AvatarInitial: `charAt(0)` is modelled as the first Unicode character, not the first UTF-16 code unit.
- Strings.Includes and Strings.Trim: strings are sequences of Unicode characters. `trim` removes the characters `Strings.IsSpace` lists, a subset of the Unicode space separators JavaScript also removes.
- The Dashboard, Home, About, Notifications, Unauthorized, ServerError, Login and admin pages are left out. They are static pages or thin wrappers over `login`.
- The ApplyScheme form is left out: it checks nothing beyond HTML `required`.
- Register.HandleSubmit: the `required` attributes of the name, email and password inputs are enforced by the browser before the handler runs. The model takes any strings, empty ones included.
- The mobile menu toggle is left out: it shows and hides the same links.
- The eligibility values, the previous applications and the applicant details of the review page are literals. Only the checklist labels are computed from them.
- The Profile page's personal-detail fields are left out, because the model only tracks which inputs are enabled. Saving sends them nowhere and the page never reads them back.

## Findings

| source | as written | input that shows it | evidently intended | confidence | as-written member | corrected member |
|---|---|---|---|---|---|---|
| src/pages/ApplicationStatus.tsx:134 | the header badge colours `status.toLowerCase()`, and the colour table's key is `under_review` | the page's own status "Under Review" lower-cases to "under review", which misses the key, so the badge is muted | an application under review gets the warning colour, as in the applications list | high (not executed) | ApplicationStatus.HeaderBadgeMissesUnderReview | ApplicationStatus.HeaderToneMatchesList |
| src/App.tsx:33-46 | the guards read only `user`, which stays null until the provider's restore effect (src/hooks/useAuth.tsx:44-53) has run; the `isLoading` flag the provider exports for this is never read | reloading `/dashboard` with a session stored: the first render has no user, `<Navigate to="/login">` fires, and the session is restored only after the visitor has left | a guard waits while `isLoading` holds and then admits the stored user | medium (not executed; rests on React running a child's effect before its parent's) | App.ReloadRedirectsStoredUser | App.ReloadAdmitsStoredUser |

`ApplicationStatus.HeaderToneAsWritten` models the badge as written.
`ApplicationStatus.SpacedStatusIsMuted` shows that every status of two or
more words misses the table. The corrected `ApplicationStatus.HeaderTone`
also turns spaces into underscores after lower-casing. The colours of
"Approved" and "Rejected" stay muted in the header even after the
correction, because the status page's table has no keys for them.

`App.AwaitRestore` is the corrected guard. `App.ProtectedRoute` and the two
role guards stay as written, because the other pages use them after the
restore effect has run.
