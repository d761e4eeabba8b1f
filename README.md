# Pg-Buddy front-end core, modelled in Dafny

Pg-Buddy is a React single-page application where PG (paying-guest
accommodation) seekers browse listings and PG owners manage their own. This
project models the parts of the front-end that make decisions:

- the session store (`AuthContext`). It restores a user from `localStorage`
  on mount, creates mock users on login and registration, and clears the
  session on logout.
- the route guard (`ProtectedRoute`) and the route table (`App`), with its two
  role-guarded subtrees.
- the seeker dashboard: its four filter criteria, the filter pipeline it
  re-runs over the fixed dataset, and the handlers that change the criteria.
- the owner dashboard: adding a listing built from the form, removing
  listings by id, and editing the image-URL fields.
- the property details page: the lookup by route id, the wrap-around image
  carousel, the facility badges and the pre-filled inquiry form.
- the login and registration pages: the role taken from the `type` query
  parameter, the ordered form checks with their exact messages, the email
  pattern `\S+@\S+\.\S+`, and the submit handlers.

Paths are modelled as lists of segments (`/seeker/dashboard` is
`["seeker", "dashboard"]`). Time-dependent ids (`Date.now()`) are passed in
as a `stamp`. Browser storage is a `LocalStorage` object holding a map from
keys to users.

The files are:
- `wrappers.dfy`: `Option`.
- `text.dfy`: whitespace, `trim`, `toLowerCase`, `includes`.
- `seqs.dfy`: `filter` and `findIndex` on sequences.
- `pg_types.dfy`: the listing and review records.
- `mock_data.dfy`: the fixture listings.
- One file per core source file.

## Model

| member | source | states |
|---|---|---|
| AuthContext.RoleName | src/contexts/AuthContext.tsx:3 | a role is spelled "seeker" or "owner" |
| AuthContext.RoleNameInjective | src/contexts/AuthContext.tsx:3 | the two spellings are distinct, so a spelling determines the role |
| AuthContext.UserTypeName | src/components/ProtectedRoute.tsx:32 | a missing user type is interpolated into a path as "null" |
| AuthContext.NameFromEmail | src/contexts/AuthContext.tsx:65 | the demo name is the longest prefix of the email with no `@`, and it stops exactly at the first `@` |
| AuthContext.LoginUser | src/contexts/AuthContext.tsx:63-68 | the mock user keeps the email and the chosen type, takes its name from the email, and its id is `user-` plus the clock reading |
| AuthContext.RegisterUser | src/contexts/AuthContext.tsx:87-92 | the registered user keeps the name, email and type given, and its id is `user-` plus the clock reading |
| AuthContext.LocalStorage.GetItem | src/contexts/AuthContext.tsx:43 | a key yields a stored record exactly when it is present |
| AuthContext.AuthProvider.IsAuthenticated | src/contexts/AuthContext.tsx:114 | authenticated exactly when a user is held |
| AuthContext.AuthProvider.CurrentUserType | src/contexts/AuthContext.tsx:115 | the user's type, or none when nobody is signed in |
| AuthContext.AuthProvider.constructor | src/contexts/AuthContext.tsx:37-38 | the store starts with no user and loading |
| AuthContext.AuthProvider.CheckUserSession | src/contexts/AuthContext.tsx:41-53 | the stored record is adopted when present, the user is otherwise unchanged, and loading ends |
| AuthContext.AuthProvider.Login | src/contexts/AuthContext.tsx:57-79 | the mock user is both stored under `pgBuddyUser` and held, and every other key is unchanged |
| AuthContext.AuthProvider.Register | src/contexts/AuthContext.tsx:81-103 | the registered user is both stored and held, and every other key is unchanged |
| AuthContext.AuthProvider.Logout | src/contexts/AuthContext.tsx:105-111 | the key is removed and the session is unauthenticated with no type |
| AuthContext.StartUp | src/contexts/AuthContext.tsx:36-53 | after mounting, loading is over and the held user agrees with storage |
| AuthContext.LoginThenReload | src/contexts/AuthContext.tsx:41-79 | a login survives a reload: a fresh provider over the same storage restores the same user |
| ProtectedRoute.DashboardPath | src/components/ProtectedRoute.tsx:32 | `/${type}/dashboard` is two segments, the type's spelling then "dashboard" |
| ProtectedRoute.Guard | src/components/ProtectedRoute.tsx:14-36 | the guard waits exactly while the session loads, and every redirect goes to `/login` or to the user's own dashboard |
| ProtectedRoute.PendingWhileLoading | src/components/ProtectedRoute.tsx:17-23 | while the session loads, the guard shows the spinner, whatever else holds |
| ProtectedRoute.StrangerGoesToLogin | src/components/ProtectedRoute.tsx:26-28 | a loaded, unauthenticated visitor is redirected to `/login` |
| ProtectedRoute.WrongRoleRedirected | src/components/ProtectedRoute.tsx:31-33 | a signed-in user of another type is sent to their own dashboard |
| ProtectedRoute.AllowIff | src/components/ProtectedRoute.tsx:14-36 | the children render if and only if loading is over, a user is signed in, and the type matches any required type |
| ProtectedRoute.NullTypeNeverAllowed | src/components/ProtectedRoute.tsx:31-32 | a user with no type is never admitted to a guarded subtree and is sent to `/null/dashboard` |
| ProtectedRoute.RedirectTargets | src/components/ProtectedRoute.tsx:25-33 | every redirect goes to `/login` or to a dashboard path |
| App.SessionOf | src/contexts/AuthContext.tsx:113-125 | the guard sees the provider's loading flag, whether a user is held, and that user's type |
| App.Guarded | src/App.tsx:25-47 | an admitted session reaches the nested routes; any other session gets the spinner or a redirect |
| App.SeekerRoutes | src/App.tsx:29-33 | the seeker subtree renders only the seeker dashboard or a details page, and sends every other path to `/seeker/dashboard` |
| App.OwnerRoutes | src/App.tsx:41-44 | the owner subtree renders the owner dashboard or sends the visitor to `/owner/dashboard` |
| App.Resolve | src/App.tsx:19-49 | only paths under the two guarded prefixes can show the spinner or redirect; the lemmas below state the rest of the table |
| App.PublicPages | src/App.tsx:20-24 | the five public routes render their pages for every session |
| App.UnmatchedPathsNotFound | src/App.tsx:48 | every non-empty path outside the four named public pages and the two subtrees shows the not-found page, for every session |
| App.FooterLinksNotFound | src/App.tsx:48 | the footer's `/how-it-works`, `/faqs` and `/support` links fall through to the not-found page |
| App.SeekerSubtree | src/App.tsx:25-36 | for an admitted seeker: `dashboard`, `property/:id` with a non-empty id, and a redirect to the seeker dashboard for everything else |
| App.OwnerSubtree | src/App.tsx:37-47 | for an admitted owner: `dashboard`, and a redirect to the owner dashboard for everything else |
| App.GuardBeforeNested | src/App.tsx:25-47 | for a session the guard does not admit, the nested path makes no difference |
| App.StrangerSentToLogin | src/App.tsx:25-47 | an unauthenticated visitor to either subtree is sent to `/login` |
| App.SeekerPagesNeedSeeker | src/App.tsx:25-36 | the seeker dashboard and details page render only under `/seeker`, and only for an admitted seeker |
| App.OwnerPageNeedsOwner | src/App.tsx:37-47 | the owner dashboard renders only under `/owner`, and only for an admitted owner |
| App.RedirectsSettle | src/App.tsx:19-49 | every redirect the table issues lands on a rendered page for the same session, so there are no redirect chains or loops |
| App.DashboardsAreFixpoints | src/App.tsx:30 | an admitted user's dashboard path renders that dashboard |
| App.PropertyLinkResolves | src/pages/SeekerDashboard.tsx:203 | a listing card's link `/seeker/property/${id}` opens the details page for that id |
| Seqs.KeepMember | src/pages/SeekerDashboard.tsx:43-64 | `filter` keeps an element exactly when it was present and passes |
| Seqs.KeepIsSubseq | src/pages/SeekerDashboard.tsx:43-64 | `filter` returns a subsequence, with the order kept and nothing added |
| Seqs.FindFirst | src/pages/PropertyDetailsPage.tsx:33 | `find` returns the first position that passes, or none when no element passes |
| Seqs.Keep | src/pages/OwnerDashboard.tsx:50 | `filter` never returns more elements than it was given; KeepMember and KeepIsSubseq state which ones it keeps |
| Text.Trim | src/pages/OwnerDashboard.tsx:29 | `trim()` returns no more characters than it was given, and neither end of the result is whitespace |
| Text.TrimEmptyIffBlank | src/pages/RegisterPage.tsx:40-48 | `s.trim()` is empty exactly when every character of `s` is whitespace |
| Text.Lower | src/pages/SeekerDashboard.tsx:42-45 | lower-casing keeps the length and maps each character on its own |
| SeekerDashboard.FilterIsConjunction | src/pages/SeekerDashboard.tsx:37-69 | the chain of up to four `filter` passes equals one pass with the conjunction of the active criteria |
| SeekerDashboard.FilterListings | src/pages/SeekerDashboard.tsx:37-69 | the chain of `filter` passes itself, with no contract of its own; FilterIsConjunction and FilterKeepsExactlyMatches state what it shows |
| SeekerDashboard.Matches | src/pages/SeekerDashboard.tsx:37-69 | one listing against all four criteria at once: the reference the filter chain is proved equal to (no contract of its own) |
| SeekerDashboard.FilterKeepsExactlyMatches | src/pages/SeekerDashboard.tsx:37-69 | a listing is shown exactly when it is in the dataset and meets every criterion |
| SeekerDashboard.FilterIsSubsequence | src/pages/SeekerDashboard.tsx:38-68 | the shown listings are a subsequence of the dataset, with no listing duplicated or invented |
| SeekerDashboard.InitialCriteriaShowAll | src/pages/SeekerDashboard.tsx:13-17 | with the initial criteria, every listing priced within [0, 30000] is shown, in order |
| SeekerDashboard.InitialShowsWholeFixture | src/pages/SeekerDashboard.tsx:12 | on first render the whole dataset is listed |
| SeekerDashboard.NarrowingShrinks | src/pages/SeekerDashboard.tsx:37-69 | stricter criteria show a subsequence of what looser ones show |
| SeekerDashboard.QueryCaseInsensitive | src/pages/SeekerDashboard.tsx:42-45 | two queries that lower-case alike show the same listings |
| SeekerDashboard.Toggled | src/pages/SeekerDashboard.tsx:28-34 | toggling flips the facility's membership and leaves every other facility's membership as it was |
| SeekerDashboard.ToggledNoDup | src/pages/SeekerDashboard.tsx:28-34 | toggling never creates a duplicate selection |
| SeekerDashboard.ToggleOnAppends | src/pages/SeekerDashboard.tsx:32 | selecting a new facility appends it at the end |
| SeekerDashboard.ToggleTwiceRestores | src/pages/SeekerDashboard.tsx:28-34 | toggling an unselected facility twice restores the selection exactly |
| SeekerDashboard.ClickRoomType | src/pages/SeekerDashboard.tsx:139-141 | clicking the selected room type clears it, and any other type becomes the selection |
| SeekerDashboard.SelectingFacilityShrinks | src/pages/SeekerDashboard.tsx:61-66 | selecting one more facility never shows more listings |
| SeekerDashboard.LoweringMaxShrinks | src/pages/SeekerDashboard.tsx:50-52 | lowering the price ceiling never shows more listings |
| SeekerDashboard.ChoosingRoomTypeShrinks | src/pages/SeekerDashboard.tsx:54-59 | choosing a room type never shows more listings |
| SeekerDashboard.ScenarioMaxPrice13000 | src/pages/SeekerDashboard.tsx:50-52 | on the dataset, a ceiling of 13000 shows pg-2, pg-4 and pg-6, in that order |
| SeekerDashboard.ScenarioWifiAndAc | src/pages/SeekerDashboard.tsx:61-66 | on the dataset, requiring wifi and AC shows pg-1, pg-3 and pg-5, in that order |
| SeekerDashboard.WifiAndAcVerdicts | src/data/mockData.ts:3-102 | pg-1, pg-3 and pg-5 offer both wifi and AC, and pg-2, pg-4 and pg-6 do not |
| SeekerDashboard.Dashboard.constructor | src/pages/SeekerDashboard.tsx:12-17 | the page filters the fixture, starts with the initial criteria and the whole fixture shown, and the shown list agrees with the criteria |
| SeekerDashboard.Dashboard.Refresh | src/pages/SeekerDashboard.tsx:37-69 | the shown list is recomputed from the current criteria |
| SeekerDashboard.Dashboard.SetSearchQuery | src/pages/SeekerDashboard.tsx:96 | only the query changes, and the shown list agrees with the criteria again |
| SeekerDashboard.Dashboard.ToggleFacility | src/pages/SeekerDashboard.tsx:161 | only the facility selection changes (toggled), and the shown list agrees with the criteria again |
| SeekerDashboard.Dashboard.SelectRoomType | src/pages/SeekerDashboard.tsx:139-141 | only the room type changes, and the shown list agrees with the criteria again |
| SeekerDashboard.Dashboard.SetMaxPrice | src/pages/SeekerDashboard.tsx:127 | only the upper price bound changes, the lower one stays 0, and the shown list agrees with the criteria again |
| SeekerDashboard.Dashboard.ResetFilters | src/pages/SeekerDashboard.tsx:178-183 | reset restores the initial criteria and shows the whole dataset again |
| OwnerDashboard.FilledUrlsSpec | src/pages/OwnerDashboard.tsx:29 | the images kept are exactly the URL fields with a non-space character, in order |
| OwnerDashboard.FilledUrls | src/pages/OwnerDashboard.tsx:29 | the `filter` on non-blank URLs, with no contract of its own; FilledUrlsSpec states what it keeps |
| OwnerDashboard.OwnerId | src/pages/OwnerDashboard.tsx:34 | the owner is the signed-in user's id, or "" when nobody is signed in |
| OwnerDashboard.NewListing | src/pages/OwnerDashboard.tsx:23-35 | the new listing copies the form, falls back to the default description, keeps only filled URLs, and has zero rating, no reviews, Single/Double rooms and wifi/food facilities |
| OwnerDashboard.EmptyFormDisabled | src/pages/OwnerDashboard.tsx:252 | the reset form cannot be submitted |
| OwnerDashboard.AddEnabled | src/pages/OwnerDashboard.tsx:252 | the negation of the button's `disabled` condition, with no contract of its own; EmptyFormDisabled states it for the reset form |
| OwnerDashboard.RemoveByIdSpec | src/pages/OwnerDashboard.tsx:50 | removal deletes exactly the listings with that id and keeps the rest in order |
| OwnerDashboard.RemoveById | src/pages/OwnerDashboard.tsx:50 | the `filter` on the id, with no contract of its own; RemoveByIdSpec, RemoveAbsentId and RemoveIdempotent state its meaning |
| OwnerDashboard.RemoveAbsentId | src/pages/OwnerDashboard.tsx:50 | removing an id that no listing has changes nothing |
| OwnerDashboard.RemoveIdempotent | src/pages/OwnerDashboard.tsx:50 | removing twice is the same as removing once |
| OwnerDashboard.Dashboard.constructor | src/pages/OwnerDashboard.tsx:11-19 | the page starts with the owner dataset, the panel closed and an empty form with one URL field |
| OwnerDashboard.Dashboard.OpenAddPanel | src/pages/OwnerDashboard.tsx:89 | the panel opens |
| OwnerDashboard.Dashboard.CancelAdd | src/pages/OwnerDashboard.tsx:142 | the panel closes |
| OwnerDashboard.Dashboard.AddProperty | src/pages/OwnerDashboard.tsx:22-46 | the new listing is appended with the existing ones as an unchanged prefix, the panel closes and the form resets |
| OwnerDashboard.Dashboard.RemoveProperty | src/pages/OwnerDashboard.tsx:49-51 | the list becomes the filtered list |
| OwnerDashboard.Dashboard.AddImageUrlField | src/pages/OwnerDashboard.tsx:54-59 | one empty URL field is appended and the rest of the form is kept |
| OwnerDashboard.Dashboard.UpdateImageUrl | src/pages/OwnerDashboard.tsx:62-69 | exactly one URL field changes, and the length and every other field are kept |
| PropertyDetails.FindById | src/pages/PropertyDetailsPage.tsx:33-34 | a found listing is in the dataset and has the id, and nothing is found exactly when no listing has the id |
| PropertyDetails.FindByIdIsFirst | src/pages/PropertyDetailsPage.tsx:33 | the first listing with the id is found, and no earlier listing has it |
| PropertyDetails.FixtureLookup | src/pages/PropertyDetailsPage.tsx:33 | each dataset listing is found by its own id |
| PropertyDetails.StepsStayInRange | src/pages/PropertyDetailsPage.tsx:48-62 | with at least one image, next and previous stay among the images and wrap at the ends |
| PropertyDetails.NextIndex | src/pages/PropertyDetailsPage.tsx:50-51 | for an index among `n` images, the next index is `(i + 1) mod n` |
| PropertyDetails.PrevIndex | src/pages/PropertyDetailsPage.tsx:58-59 | for an index among `n` images, the previous index is `(i + n - 1) mod n` |
| PropertyDetails.StepsAreInverses | src/pages/PropertyDetailsPage.tsx:48-62 | next and previous undo each other |
| PropertyDetails.NextTimesIsModular | src/pages/PropertyDetailsPage.tsx:48-54 | k presses of next advance the index by k modulo the number of images |
| PropertyDetails.NextFullCycle | src/pages/PropertyDetailsPage.tsx:48-54 | pressing next once per image returns to the starting image |
| PropertyDetails.FixtureListingsHaveImages | src/data/mockData.ts:3-102 | every listing the page can load has at least one image |
| PropertyDetails.FacilityHighlights | src/pages/PropertyDetailsPage.tsx:219-231 | a badge is highlighted exactly when the listing offers that facility |
| PropertyDetails.DisplayedImage | src/pages/PropertyDetailsPage.tsx:149 | the main image is the listing's image at the index, or the placeholder when there is none or it is empty |
| PropertyDetails.InitialInquiry | src/pages/PropertyDetailsPage.tsx:22-27 | the inquiry starts with the signed-in user's name and email (or empty ones), and an empty phone and message |
| PropertyDetails.Page.constructor | src/pages/PropertyDetailsPage.tsx:18-27 | the page starts loading, with no property, index 0, the form hidden and the inquiry pre-filled |
| PropertyDetails.Page.CurrentScreen | src/pages/PropertyDetailsPage.tsx:64-102 | spinner while loading, then "not found" with no property, and otherwise the details |
| PropertyDetails.Page.LoadProperty | src/pages/PropertyDetailsPage.tsx:30-37 | the property becomes the lookup's result, loading ends, and a found property has images |
| PropertyDetails.Page.NextImage | src/pages/PropertyDetailsPage.tsx:48-54 | with a property, the index advances with wrap-around, and otherwise nothing changes; an in-range index stays in range |
| PropertyDetails.Page.PrevImage | src/pages/PropertyDetailsPage.tsx:56-62 | with a property, the index steps back with wrap-around, and otherwise nothing changes; an in-range index stays in range |
| PropertyDetails.Page.SelectImage | src/pages/PropertyDetailsPage.tsx:180 | a thumbnail click selects that image |
| PropertyDetails.Page.ToggleInquiryForm | src/pages/PropertyDetailsPage.tsx:259 | the inquiry form is shown or hidden |
| PropertyDetails.Page.SubmitInquiry | src/pages/PropertyDetailsPage.tsx:40-45 | submitting hides the form |
| Login.InitialLoginRole | src/pages/LoginPage.tsx:10-14 | the owner tab opens exactly for `type=owner`, and the seeker tab opens otherwise |
| Login.AlreadySignedInRedirect | src/pages/LoginPage.tsx:25-29 | a signed-in visitor is sent to their own dashboard, and only a signed-in visitor is |
| Login.ValidateLogin | src/pages/LoginPage.tsx:34-44 | "Email is required" exactly for a blank email, then "Password is required" exactly for an empty password, and otherwise no error |
| Login.EmailCheckIsTrim | src/pages/LoginPage.tsx:36-39 | "Email is required" is shown exactly when `email.trim()` is empty |
| Login.SpacesOnlyPassword | src/pages/LoginPage.tsx:36-44 | the email is trimmed but the password is not |
| Login.RegisterLink | src/pages/LoginPage.tsx:165-170 | the "Register" link carries the selected role as `type` |
| Login.LoginPage.constructor | src/pages/LoginPage.tsx:12-19 | the form starts empty, with the tab chosen from the query |
| Login.LoginPage.SelectUserType | src/pages/LoginPage.tsx:86-99 | a tab click selects that role |
| Login.LoginPage.HandleSubmit | src/pages/LoginPage.tsx:31-60 | a failed check shows its message and leaves the session alone; otherwise the user is logged in with the chosen role, stored under `pgBuddyUser` with every other storage key unchanged, and sent to that role's dashboard, which the route table then renders |
| Registration.InitialRegisterRole | src/pages/RegisterPage.tsx:10-15 | a role is preselected exactly for `type=seeker` or `type=owner`, and the picker shows otherwise |
| Registration.RegisterLinkKeepsRole | src/pages/LoginPage.tsx:165-170 | the role carried by the "Register" link is the role preselected on arrival |
| Registration.LoginLinkOpensSeekerTab | src/pages/RegisterPage.tsx:248 | the plain `/login` link opens the seeker tab |
| Registration.EmailPatternIffShape | src/pages/RegisterPage.tsx:50 | the pattern matches exactly when some `@` has a non-space before it, then non-spaces, a `.` and a non-space |
| Registration.EmailPattern | src/pages/RegisterPage.tsx:50 | the unanchored `test` as a match at some position, with no contract of its own; EmailPatternIffShape states what it accepts |
| Registration.EmailPatternNeeds | src/pages/RegisterPage.tsx:50 | an accepted email has an `@`, a `.`, at least five characters, and is not blank |
| Registration.EmailPatternUnanchored | src/pages/RegisterPage.tsx:50 | text added around an accepted email is still accepted |
| Registration.EmailPatternExamples | src/pages/RegisterPage.tsx:50 | `ravi@mail.com` is accepted and `ravi@mail` is rejected |
| Registration.ValidateRegistration | src/pages/RegisterPage.tsx:34-66 | every error is one of the six messages; the name and email `trim()` tests are stated as blankness, which Text.TrimEmptyIffBlank shows equivalent |
| Registration.PassesIffAcceptable | src/pages/RegisterPage.tsx:34-66 | the form passes exactly when a role is chosen, the name is not blank, the email matches, the password has at least 6 characters and both passwords agree |
| Registration.FirstFailedCheck | src/pages/RegisterPage.tsx:34-66 | each message is shown exactly when its check is the first to fail, in the page's order |
| Registration.RegisterPage.constructor | src/pages/RegisterPage.tsx:12-22 | the form starts empty, with the role preselected from the query |
| Registration.RegisterPage.SetUserType | src/pages/RegisterPage.tsx:122-165 | the role cards choose a role, and "Change" clears it |
| Registration.RegisterPage.HandleSubmit | src/pages/RegisterPage.tsx:68-91 | a failed check shows its message and leaves the session alone; otherwise the form is acceptable, the user is registered, held and stored under `pgBuddyUser` with every other storage key unchanged, and they are sent to their dashboard, which the route table then renders |

## Left out

- Rendering, styling, icons, the navigation bar, the footer markup, the hard-coded statistics cards, and the landing, about, contact and not-found pages. These pages have no logic beyond their links.
- URL parsing. Trailing slashes, case-insensitive segment matching and percent-decoding done by the router are not modelled; paths arrive already split into segments.
- Asynchronous timing. `setTimeout` delays and `await`s are treated as completing at once, in order, so interleavings with unmounting or a second click are not modelled.
- `Date.now()` and browser storage are inputs. The clock reading is the `stamp` parameter, and `localStorage` is a map. Malformed JSON in storage (which would make `JSON.parse` throw) is not modelled.
- The storage-failure path. The model treats `localStorage.setItem` as never failing. In the browser it throws when storage is full or blocked; `login` and `register` then throw "Login failed. Please check your credentials." or "Registration failed. Please try again.", and the pages' `catch` branches show that message. None of this is modelled.
- The `alert` on inquiry submission, and the setters of the inquiry, owner-form and login/registration fields, which are plain field assignments.
- The show/hide state of the seeker filter panel, which affects no listing.
- Ratings, review details and the price formatting on the cards. Ratings are `real` values that are only stored.
- Text.Lower: lower-cases ASCII letters only, because the model has no Unicode case tables. JavaScript's `toLowerCase` also folds other letters.
- Text.IsWhiteSpace: also counts the ECMAScript line terminators and space separators. Lengths are counted in characters, not in UTF-16 code units, so `password.length` differs from the model for characters outside the Basic Multilingual Plane.
- SeekerDashboard.Dashboard.SetMaxPrice: takes an integer, while the page gets it from `parseInt` on the slider value. The slider always supplies a multiple of 500 in [0, 30000], so the NaN case is not modelled.
- OwnerDashboard.Dashboard.AddProperty: does not require `AddEnabled`, because the handler itself does not check it. Only the button's `disabled` attribute does, and `AddEnabled` models that attribute.
- OwnerDashboard.NewListing: the price is an integer. The page's `parseInt` can produce NaN, and the model does not represent that.
- OwnerDashboard.Dashboard.UpdateImageUrl: requires an existing index. The page only calls it from the rendered fields, while JavaScript would also grow the array for a larger index.
- PropertyDetails.Page.LoadProperty: does not reset the image index, and neither does the page. The model does not cover the page being reused for a second id, because no link leads from one details page to another.
- Owner-added listings never reach the details page: the lookup searches only the fixed seeker dataset, as the page does.
