# Sterling Yellow Pages front end: a Dafny model of its list, form and detail logic

The Sterling Yellow Pages front end is a React application for a business directory. This
project models the parts of it that hold real sequential logic, and proves what they
promise:

- **Category manager (admin).** The category counts are fetched once. The view searches
  them by name, case-insensitively. It filters them against a threshold of 50 listings
  (`all`, `high`, `low`). It shows them ten to a page, with previous and next buttons. Any
  change to the search or the filter sends the view back to page 1.
- **User dashboard.** The user's listings are fetched from the server, four per page. The
  previous and next buttons are clamped to `1..pages`. The dashboard also has an edit
  dialog filled from a listing, an update that replaces the edited listing by id, a delete
  that needs confirmation, and per-listing cards with a status colour and an image with a
  placeholder.
- **Post-ad form.** The Yup validation rules, the multipart payload built by successive
  `append` calls, the single image, and the submit-error text.
- **The two business detail pages.** Each chooses between loading, not-found and content.
  Each cuts the description (at 100 characters on the search-result page, at 150 on the
  category page) and has a See More / See Less toggle. Both show the same fixed table of
  opening hours.
- **Search bar.** It hands its three fields to the page's `onSearch` callback, then clears
  them.

HTTP calls are not modelled as calls. Each request's outcome is a parameter of type
`Reply<T>`: a `Success` with the response body, or a `Failure` with the server's optional
message. Where a request carries data, the method that issues it returns that data as an
out-parameter: the dashboard's page query, the edited id and form, the deleted id, the
ad payload, and the id a detail page fetches. The category manager's one fetch carries
nothing, so only its completion (`CategoryManager.FinishFetch`) is modelled.

Modules, one per file:

- `Wrappers`: `Option` and `Reply`.
- `Text`: ASCII lower-casing, `includes`, and the anchored pattern `^[0-9]+$`.
- `Paging`: JavaScript `slice`, `Math.ceil(n / 10)` and 1-based page windows.
- `Listing`: the business record.
- `CategoryManagement`, `UserDashboard`, `PostAds`, `SearchBar`: one per component.
- `DetailView`: what the two detail pages share.
- `ViewDetails`, `CategoryDetails`: the two detail pages.

Components whose handlers update React state are classes. Their fields are the component's
`useState` variables, and each handler is a method that states its whole new state.
Expressions evaluated at render time are functions. Lemmas relate those functions to
independent descriptions of what they compute.

Two facts about the code worth stating up front:

- The category manager never ends up past its last page. Every search or filter change
  resets `currentPage` to 1, and while the fetch is outstanding the list is empty.
  So `1 <= currentPage <= max(1, totalPages)` holds in every state (`CategoryManager.Valid`,
  preserved by every handler), and an empty window is shown only when nothing passes the
  search and the filter.
- On the category detail page the description expression throws when a listing has no
  description (see "## Findings").

## Model

| member | source | states |
|---|---|---|
| CategoryManagement.ToCategories | src/Components/admin/Components/CategoryManagement.jsx:33-38 | each `{_id, count}` record becomes `{name: _id, count}`, position by position; the length is kept |
| CategoryManagement.Holds | src/Components/admin/Components/CategoryManagement.jsx:50-59 | the two per-item tests: lower-cased name includes the lower-cased term; count >= 50 for `high`, < 50 for `low`, always for `all` (defined, stated in `SearchSpec` and `FilterSpec`) |
| CategoryManagement.Search | src/Components/admin/Components/CategoryManagement.jsx:50-52 | the search step (defined, stated in `SearchSpec`) |
| CategoryManagement.ApplyFilter | src/Components/admin/Components/CategoryManagement.jsx:55-59 | the threshold step (defined, stated in `FilterSpec`) |
| CategoryManagement.Filtered | src/Components/admin/Components/CategoryManagement.jsx:50-59 | search first, then the threshold filter (defined, stated in `FiltersCommuteAndSettle`) |
| CategoryManagement.Keep | src/Components/admin/Components/CategoryManagement.jsx:50-59 | a filter step never lengthens the list, and everything it keeps comes from the list and passes the test |
| CategoryManagement.KeepCounts | src/Components/admin/Components/CategoryManagement.jsx:50-59 | a filter step keeps every occurrence of an item that passes and none of an item that fails (multiset) |
| CategoryManagement.KeepOrdered | src/Components/admin/Components/CategoryManagement.jsx:50-59 | a filter step's result is a subsequence of its input: order is preserved |
| CategoryManagement.KeepEverything | src/Components/admin/Components/CategoryManagement.jsx:50-59 | a test every item passes keeps the list unchanged |
| CategoryManagement.KeepCommutes | src/Components/admin/Components/CategoryManagement.jsx:50-59 | two filter steps give the same list in either order |
| CategoryManagement.KeepIdempotent | src/Components/admin/Components/CategoryManagement.jsx:50-59 | applying one filter step twice is applying it once |
| CategoryManagement.SearchSpec | src/Components/admin/Components/CategoryManagement.jsx:50-52 | search keeps exactly the categories whose lower-cased name includes the lower-cased term, with every occurrence, in original order |
| CategoryManagement.EmptySearchKeepsAll | src/Components/admin/Components/CategoryManagement.jsx:50-52 | the empty search term keeps the whole list, in order |
| CategoryManagement.FilterSpec | src/Components/admin/Components/CategoryManagement.jsx:55-59 | `high` keeps exactly the counts >= 50 and `low` exactly those < 50, with every occurrence and in order; `all` keeps the list unchanged |
| CategoryManagement.HighLowPartition | src/Components/admin/Components/CategoryManagement.jsx:55-59 | `high` and `low` share no category and together hold the list's multiset exactly, so their lengths add up to its length |
| CategoryManagement.FiltersCommuteAndSettle | src/Components/admin/Components/CategoryManagement.jsx:50-59 | searching then filtering equals filtering then searching, and each step is idempotent |
| CategoryManagement.UnfilteredIsIdentity | src/Components/admin/Components/CategoryManagement.jsx:50-59 | with the empty term and the `all` filter the view paginates the fetched list itself |
| Paging.RelativeIndex | src/Components/admin/Components/CategoryManagement.jsx:64-67 | how `slice` reads an index: a non-negative index is clamped to the length, a negative one counts from the end and is clamped at 0 |
| Paging.Slice | src/Components/admin/Components/CategoryManagement.jsx:64-67 | `slice(start, end)` with `0 <= start <= end` is the run between the two indices clamped to the length, and starting at or past the end gives nothing |
| Paging.TotalPages | src/Components/admin/Components/CategoryManagement.jsx:62 | `Math.ceil(n / 10)`: the fewest pages of ten that hold `n` items; zero exactly when `n` is zero |
| Paging.Window | src/Components/admin/Components/CategoryManagement.jsx:62-67 | the slice from `(page-1)*10` of length 10 (defined, stated in `Paging.WindowSpec`) |
| Paging.WindowSpec | src/Components/admin/Components/CategoryManagement.jsx:63-67 | page `p >= 1` shows `filtered[min(len,(p-1)*10) .. min(len,p*10))`; at most 10 items; empty exactly when `p > totalPages` |
| Paging.PagesUpTo | src/Components/admin/Components/CategoryManagement.jsx:62-67 | the list of windows of pages `1..k`, the i-th being page i+1's window |
| Paging.PagesUpToFlatten | src/Components/admin/Components/CategoryManagement.jsx:62-67 | the first `k` windows concatenated are the first `min(len, 10k)` items |
| Paging.PagesReconstruct | src/Components/admin/Components/CategoryManagement.jsx:62-67 | the windows of pages `1..totalPages` concatenated give back the filtered list exactly |
| CategoryManagement.PrevDisabled | src/Components/admin/Components/CategoryManagement.jsx:194 | previous disabled on page 1 (defined, stated in `PageControlsSpec`) |
| CategoryManagement.NextDisabled | src/Components/admin/Components/CategoryManagement.jsx:204 | next disabled on the last page or with no page (defined, stated in `PageControlsSpec`) |
| CategoryManagement.PageControlsSpec | src/Components/admin/Components/CategoryManagement.jsx:194-205 | on a reachable page, prev is enabled iff there is an earlier page, next iff there is a later one (disabled at `totalPages` and when it is 0), and the window is empty iff the filtered list is |
| CategoryManagement.CategoryManager.constructor | src/Components/admin/Components/CategoryManagement.jsx:7-15 | initial state: no categories, loading, page 1, empty term, filter `all`, dropdown closed |
| CategoryManagement.CategoryManager.FinishFetch | src/Components/admin/Components/CategoryManagement.jsx:31-43 | on success the categories are the mapped records; on failure they are kept; loading ends on both paths; the page invariant is preserved |
| CategoryManagement.CategoryManager.SetSearchTerm | src/Components/admin/Components/CategoryManagement.jsx:82-85 | the term changes, the page becomes 1, nothing else changes |
| CategoryManagement.CategoryManager.ToggleFilterMenu | src/Components/admin/Components/CategoryManagement.jsx:93 | only the dropdown flag flips |
| CategoryManagement.CategoryManager.ChooseFilter | src/Components/admin/Components/CategoryManagement.jsx:106-133 | the filter is set, the dropdown closes, the page becomes 1 |
| CategoryManagement.CategoryManager.PreviousPage | src/Components/admin/Components/CategoryManagement.jsx:194-195 | one page back unless disabled; nothing else changes; the page invariant is preserved |
| CategoryManagement.CategoryManager.NextPage | src/Components/admin/Components/CategoryManagement.jsx:204-205 | one page on unless disabled; nothing else changes; the page invariant is preserved |
| CategoryManagement.ShownWindow | src/Components/admin/Components/CategoryManagement.jsx:61-67 | in every reachable state at most 10 categories are shown, and none only when no category passes the search and filter |
| Text.LowerChar | src/Components/admin/Components/CategoryManagement.jsx:51 | an ASCII capital becomes its small letter (code point + 32), every other character is kept, and no capital remains |
| Text.Lower | src/Components/admin/Components/CategoryManagement.jsx:51 | `toLowerCase` keeps the length and lowers character by character |
| Text.LowerIdempotent | src/Components/admin/Components/CategoryManagement.jsx:51 | lower-casing a lower-cased string changes nothing |
| Text.Includes | src/Components/admin/Components/CategoryManagement.jsx:51 | `s.includes(t)`: `t` occurs in `s` at some position (defined, no contract of its own) |
| Text.IncludesEmpty | src/Components/admin/Components/CategoryManagement.jsx:51 | every string includes the empty string |
| Text.MatchesDigits | src/Components/Common/PostAds.jsx:20 | `/^[0-9]+$/.test(s)` as a three-state matcher; what it accepts is stated in `Text.MatchesDigitsSpec` |
| Text.MatchesDigitsSpec | src/Components/Common/PostAds.jsx:20 | `/^[0-9]+$/` accepts exactly the non-empty strings of decimal digits |
| Text.RunFromDigits | src/Components/Common/PostAds.jsx:20 | after a digit, the pattern stays accepting exactly while only digits follow |
| UserDashboard.StatusColour | src/User/UserDashboard.jsx:200-206 | green iff `approved`, red iff `rejected`, yellow for every other status |
| UserDashboard.CardImage | src/User/UserDashboard.jsx:187-191 | `images[0]` when the list exists and is non-empty, otherwise the placeholder URL |
| UserDashboard.FormOf | src/User/UserDashboard.jsx:69-76 | the edit form built from a listing (defined, stated in `FormOfCopiesSixFields`) |
| UserDashboard.FormOfCopiesSixFields | src/User/UserDashboard.jsx:67-77 | the edit form holds the listing's name, category, description, address, phone and email, and two listings give the same form iff they agree on those six |
| UserDashboard.WithField | src/User/UserDashboard.jsx:294-343 | typing into one field sets that field and leaves the other five unchanged |
| UserDashboard.ReplaceById | src/User/UserDashboard.jsx:107-109 | same length; each entry whose `_id` is the edited id becomes the response, every other entry is kept |
| UserDashboard.ReplaceByIdSettles | src/User/UserDashboard.jsx:107-109 | replacing twice is replacing once, and a list without that id is unchanged |
| UserDashboard.PrevPage | src/User/UserDashboard.jsx:240 | `max(1, p-1)`: never below 1, one back from any page above 1 |
| UserDashboard.NextPage | src/User/UserDashboard.jsx:253 | `min(pages, p+1)`: never past `pages`, one on from any earlier page |
| UserDashboard.PrevDisabled | src/User/UserDashboard.jsx:241 | previous disabled on page 1 (defined, stated in `PageButtonsSpec`) |
| UserDashboard.NextDisabled | src/User/UserDashboard.jsx:254 | next disabled on the last page (defined, stated in `PageButtonsSpec`) |
| UserDashboard.PageButtonsSpec | src/User/UserDashboard.jsx:239-256 | within `1..pages` both buttons stay in range and move by exactly one; each is disabled iff clicking it would not change the page |
| UserDashboard.Dashboard.constructor | src/User/UserDashboard.jsx:18-32 | initial state: no listings, page 1 of 1, total 0, not loading, no dialog, empty form |
| UserDashboard.Dashboard.StartFetch | src/User/UserDashboard.jsx:39-46 | loading is set and the requested page is asked for with limit 4; nothing else changes |
| UserDashboard.Dashboard.FinishFetch | src/User/UserDashboard.jsx:48-56 | on success the listings, page, pages and total come from the response; on failure they are kept; loading ends on both paths |
| UserDashboard.Dashboard.PageEffect | src/User/UserDashboard.jsx:59-61 | the current page is fetched exactly when a user is logged in |
| UserDashboard.Dashboard.GoPrevious | src/User/UserDashboard.jsx:239-241 | the page becomes `max(1, page-1)`; nothing else changes |
| UserDashboard.Dashboard.GoNext | src/User/UserDashboard.jsx:252-254 | the page becomes `min(pages, page+1)`; nothing else changes |
| UserDashboard.Dashboard.Edit | src/User/UserDashboard.jsx:67-77 | the dialog opens on the listing, with the six fields copied into the form |
| UserDashboard.Dashboard.EditField | src/User/UserDashboard.jsx:291-344 | only the typed field of the form changes |
| UserDashboard.Dashboard.CloseEditor | src/User/UserDashboard.jsx:277-279 | the dialog closes; the form and the list are unchanged |
| UserDashboard.Dashboard.Update | src/User/UserDashboard.jsx:98-114 | the form is sent for the edited id; on success the list is `ReplaceById` with the response and the dialog closes; on failure, or with no listing open, neither list nor dialog changes |
| UserDashboard.Dashboard.Delete | src/User/UserDashboard.jsx:79-94 | unconfirmed: no request and no change; confirmed: the delete is sent, and the current page is re-fetched exactly when it succeeds |
| PostAds.Required | src/Components/Common/PostAds.jsx:16-21 | the six fields marked `.required()`; website and logo are optional (defined) |
| PostAds.Message | src/Components/Common/PostAds.jsx:16-23 | the text the schema attaches to each rule (defined) |
| PostAds.Violations | src/Components/Common/PostAds.jsx:15-24 | the set of rules the form breaks (defined, stated in `ValidationSpec` and `ViolationsBroken`) |
| PostAds.ValidationSpec | src/Components/Common/PostAds.jsx:15-24 | the form is accepted iff the six required fields are non-empty, the phone is all digits, the email passes its check and website and logo are empty or pass theirs; each required field is reported missing iff it is empty; the digits rule fails iff the phone is non-empty and has a non-digit |
| PostAds.ViolationsBroken | src/Components/Common/PostAds.jsx:15-24 | a rule is reported iff the form breaks it, rule by rule; the format rules never fire on an empty field |
| PostAds.FieldError | src/Components/Common/PostAds.jsx:15-24 | the message shown under one field after validation (defined, stated in `OneRulePerField` and `NoErrorWhenNoRuleBroken`) |
| PostAds.OneRulePerField | src/Components/Common/PostAds.jsx:15-24 | no field breaks two rules at once, and the message a field shows is the text of the one rule it breaks |
| PostAds.NoErrorWhenNoRuleBroken | src/Components/Common/PostAds.jsx:15-24 | a field shows no message iff it breaks no rule |
| PostAds.Payload | src/Components/Common/PostAds.jsx:41-53 | the eight text entries come first, in the order name, category, description, address, phone, email, website, logo; `image` is a ninth entry iff an image is chosen |
| PostAds.PayloadRoundTrip | src/Components/Common/PostAds.jsx:41-53 | reading the payload back by key gives exactly the submitted values, the image included iff one was chosen |
| PostAds.FormData.Append | src/Components/Common/PostAds.jsx:42 | an append adds one entry at the end |
| PostAds.BuildFormData | src/Components/Common/PostAds.jsx:41-53 | the successive `append` calls build exactly `Payload(values)` in a fresh `FormData` |
| PostAds.SubmitErrorText | src/Components/Common/PostAds.jsx:69 | the server's message when present and non-empty, otherwise "Server error"; never empty |
| PostAds.PostAdForm.constructor | src/Components/Common/PostAds.jsx:27-37 | all eight text fields empty, no image, no errors, not submitting |
| PostAds.PostAdForm.SetText | src/Components/Common/PostAds.jsx:108-109 | an input's change sets its own field only |
| PostAds.PostAdForm.SelectFiles | src/Components/Common/PostAds.jsx:76-81 | the first chosen file becomes the image; with no file nothing changes |
| PostAds.PostAdForm.RemoveImage | src/Components/Common/PostAds.jsx:83-85 | the image is cleared and nothing else changes |
| PostAds.PostAdForm.Submit | src/Components/Common/PostAds.jsx:39-73 | the shown errors are the rules broken; an invalid form is not sent; a valid one is sent as `Payload(values)`; after a failure the submit error is `SubmitErrorText`; submitting ends false on every path |
| DetailView.Hours | src/Layout/ViewDetails.jsx:163 | the hours shown for one day (defined, stated in `HoursTable`) |
| DetailView.HoursTable | src/Layout/ViewDetails.jsx:160-163 | seven distinct days, Monday to Sunday in order; "Closed" iff Sunday, 10 AM to 4 PM iff Saturday, 9 AM to 6 PM iff a weekday |
| DetailView.Displayed | src/Layout/ViewDetails.jsx:85 | a missing description renders as nothing (defined) |
| DetailView.ToggleShown | src/Layout/ViewDetails.jsx:91 | `description?.length > limit` (defined, stated in `ShownContent` of each page) |
| DetailView.ToggleLabel | src/Layout/ViewDetails.jsx:96 | "See Less" when expanded, "See More" when not (defined) |
| DetailView.Shorten | src/Layout/ViewDetails.jsx:84-88 | the full description when expanded or not longer than the limit, otherwise its first `limit` characters followed by "..." (`limit + 3` in all) |
| DetailView.ToggleMatters | src/Layout/ViewDetails.jsx:91-97 | expanding changes what is shown only when the toggle is visible, and for a long description it does change it unless the tail is exactly "..." |
| DetailView.MainImage | src/Layout/ViewDetails.jsx:66 | the first image when it exists and is not empty, otherwise `/placeholder.jpg` |
| ViewDetails.Initial | src/Layout/ViewDetails.jsx:11-14 | the business is the one passed with the navigation; loading iff none was passed; no error, not expanded |
| ViewDetails.NotFoundMessage | src/Layout/ViewDetails.jsx:47 | `error \|\| "Business not found."` (defined, stated in `Render`) |
| ViewDetails.Render | src/Layout/ViewDetails.jsx:36-50 | loading view iff loading; not-found view iff not loading and a non-empty error is set or no business is held, with the error's text or "Business not found."; otherwise the business's content with a 100-character limit |
| ViewDetails.ShownContent | src/Layout/ViewDetails.jsx:84-97 | full text when expanded or at most 100 long, else the first 100 characters and "..." (103 in all); toggle iff longer than 100, labelled by `expanded`; the hours table is shown |
| ViewDetails.Effect | src/Layout/ViewDetails.jsx:16-34 | a request is issued iff no business is held; success stores the business, failure sets "Business not found"; loading ends on every path |
| ViewDetails.Lifecycle | src/Layout/ViewDetails.jsx:11-50 | from mount, the page is loading iff nothing was passed, then shows the passed or fetched business, or "Business not found" after a failed fetch; the effect's re-run issues no further request |
| ViewDetails.ViewDetailsPage.constructor | src/Layout/ViewDetails.jsx:11-14 | the component's state starts as `Initial(passed)` |
| ViewDetails.ViewDetailsPage.RunEffect | src/Layout/ViewDetails.jsx:16-34 | the new state and whether a request was issued are `Effect(old state, reply)`; the request is for the route's id |
| ViewDetails.ViewDetailsPage.Toggle | src/Layout/ViewDetails.jsx:93 | only `expanded` flips |
| CategoryDetails.BeginFetch | src/Pages/userpage/CategoryviewDetailspage.jsx:22 | a fetch sets loading (defined, stated in `Lifecycle`) |
| CategoryDetails.FinishFetch | src/Pages/userpage/CategoryviewDetailspage.jsx:23-30 | on success the business is the response; on failure the business held before is kept; loading ends on both paths |
| CategoryDetails.DescriptionAsWritten | src/Pages/userpage/CategoryviewDetailspage.jsx:80-82 | the description expression as written, with the TypeError as an absent result (defined) |
| CategoryDetails.RenderAsWritten | src/Pages/userpage/CategoryviewDetailspage.jsx:38-82 | the page's render as written: loading, not found, the content, or the TypeError (defined, stated in `AsWrittenFailsWithoutDescription`) |
| CategoryDetails.AsWrittenFailsWithoutDescription | src/Pages/userpage/CategoryviewDetailspage.jsx:80-82 | as written, rendering throws iff a loaded business has no description and is not expanded; otherwise it shows what `Render` shows |
| CategoryDetails.AsWrittenCounterexample | src/Pages/userpage/CategoryviewDetailspage.jsx:80-82 | a fetched listing without a description makes the first content render throw |
| CategoryDetails.Render | src/Pages/userpage/CategoryviewDetailspage.jsx:38-43 | loading view iff loading; "Business not found." iff loaded with no business; otherwise the content with a 150-character limit, a missing description shown as nothing, with no toggle |
| CategoryDetails.ShownContent | src/Pages/userpage/CategoryviewDetailspage.jsx:80-91 | full text when expanded or at most 150 long, else the first 150 characters and "..." (153 in all); toggle iff longer than 150; its label switches when `expanded` flips |
| CategoryDetails.HoursShown | src/Pages/userpage/CategoryviewDetailspage.jsx:163-179 | the page shows the shared hours table: Sunday closed, Saturday 10 to 4, Monday to Friday 9 to 6 |
| CategoryDetails.Lifecycle | src/Pages/userpage/CategoryviewDetailspage.jsx:15-41 | loading at mount and whenever a fetch starts; afterwards the fetched listing, or "Business not found." when the first fetch fails; a later failed fetch keeps the listing shown before |
| CategoryDetails.CategoryDetailsPage.constructor | src/Pages/userpage/CategoryviewDetailspage.jsx:15-17 | no business, loading, not expanded |
| CategoryDetails.CategoryDetailsPage.StartFetch | src/Pages/userpage/CategoryviewDetailspage.jsx:20-25 | loading is set, nothing else changes, and the request is for the route's id |
| CategoryDetails.CategoryDetailsPage.CompleteFetch | src/Pages/userpage/CategoryviewDetailspage.jsx:26-30 | the new state is `FinishFetch(old state, reply)` |
| CategoryDetails.CategoryDetailsPage.Toggle | src/Pages/userpage/CategoryviewDetailspage.jsx:87 | only `expanded` flips |
| SearchBar.SearchBarState.constructor | src/Components/Common/SearchBar.jsx:6-8 | query, category and location start empty |
| SearchBar.SearchBarState.SetQuery | src/Components/Common/SearchBar.jsx:31 | only the query changes |
| SearchBar.SearchBarState.SetCategory | src/Components/Common/SearchBar.jsx:40 | only the category changes |
| SearchBar.SearchBarState.SetLocation | src/Components/Common/SearchBar.jsx:64 | only the location changes |
| SearchBar.SearchBarState.HandleSearch | src/Components/Common/SearchBar.jsx:11-17 | with a callback, it is called with the current triple and then all three fields are empty; without one, nothing is called and nothing changes |

## Left out

- HTTP requests, bearer-token headers and response parsing are not modelled as calls. Each outcome is a `Reply` parameter, and the request a handler would send is returned as a value. Base URLs, endpoints and headers are not modelled.
- `localStorage` is left out; the dashboard's logged-in check is the `userPresent` parameter of `PageEffect`. Routing (`useNavigate`, `Link`, `useParams`), `window.confirm` (the `confirmed` parameter of `Delete`), `alert`, `window.scrollTo` and `console` are also left out, as browser I/O.
- `URL.createObjectURL` for the image preview is a browser API, and is left out.
- Async interleaving is left out. Each handler's request and its completion are modelled as one step, or as two steps in a fixed order. Overlapping fetches and stale responses are concurrency, so they are not modelled.
- `CategoryManagement.CategoryManager.FinishFetch` requires the manager to be loading. The mount effect has an empty dependency list and so runs once; a second completion is not modelled.
- `Text.Lower`: lower-cases ASCII letters only, because Unicode case mapping is not modelled. Strings are sequences of characters, not UTF-16 code units.
- `DetailView.Shorten`: counts and cuts characters, while JavaScript's `length` and `slice` count UTF-16 code units; they differ only for characters outside the Basic Multilingual Plane.
- `PostAds.Violations`: Yup's `.email()` and `.url()` checks live in a library outside this model. They are the predicate parameters `emailOk` and `urlOk`. Formik hands empty fields to Yup as absent, and the format rules accept an absent value, so on an empty field only `.required()` can fail; no field breaks two rules (`PostAds.OneRulePerField`).
- Formik also validates on change and on blur, and tracks which fields were touched. The model validates at submit only.
- After a successful post the form shows an alert and navigates to the dashboard. Both are left out.
- The dashboard's tab switch (`activeTab`), the "add new" navigation, and all JSX markup, CSS classes and icons are left out, as presentation.
- In the detail pages, the contact rows (address, phone, email, website links) are left out as presentation. The model shows only the name, category, image, description, toggle and hours.
- `ViewDetails.Effect`: a successful fetch whose body is `null` leaves the business `null`; the effect's dependencies do not change, so it does not run again, and the page shows "Business not found.". Response bodies are always listings in this model, so this case is not covered. The same holds for `CategoryDetails.FinishFetch`.
- `BranchDetails.jsx` renders an unseen data module, and `Profilepage.jsx` only composes layout; neither is part of this model.

## Findings

| source | as written | input that shows it | evidently intended | confidence | as-written member | corrected member |
|---|---|---|---|---|---|---|
| src/Pages/userpage/CategoryviewDetailspage.jsx:80-82 | `expanded \|\| description?.length <= 150 ? description : description.slice(0, 150) + "..."`: with no description, `undefined <= 150` is false, so `.slice` is called on `undefined` and rendering throws a TypeError | a fetched listing with no `description` field, on the first render with `expanded` false | a missing description renders as nothing, with no toggle, as the `?.` and the toggle condition on line 85 suggest (the other detail page, src/Layout/ViewDetails.jsx:84-88, does exactly this) | high (not executed) | CategoryDetails.AsWrittenCounterexample | CategoryDetails.Render |
