# Movie catalogue front end — a Dafny model of its view logic

The system is a React front end for a movie catalogue. Readers can browse a
sorted, paged list (Home) and search the catalogue (Search). Users sign up and
log in. Admins add movies, and edit or delete them from a paged, searchable
table (Manage Movies). Most of the code is layout. This project models the
logic that sits inside the views:

- the fetch state machines of the three list views;
- the debounce timer of the two search fields;
- the Search view's client-side sort;
- the page arithmetic and the pager's render rule;
- the page-correction rule after a delete;
- the payload normalisation of the edit dialog and of the Add Movie form;
- the validation chains of Sign Up and Login, and their snack notifications;
- the navigation bar's link lists and active-link rule.

How the model is built:

- **Views are classes.** Each view is a `class` whose fields are the view's
  state. Each event handler is a method that changes those fields.
- **Handlers are split at their `await`.** An async handler has exactly one
  `await`, so it becomes a `BeginX` method (the part before it, which returns
  the request sent) and an `EndX(resp)` method (the continuation and the
  `finally`). The HTTP client's answer `resp` is a parameter,
  `Response = Success(body) | Failure(serverMessage, transportMessage)`.
- **Timers use a logical clock.** The debounce timer is a single slot,
  `Idle | Pending(due, query)`. `Tick(t)` advances the clock and fires a timer
  that is due.
- **Pure code is functions.** Comparators, page counts, payloads, link lists
  and validators are functions, with lemmas relating them to independent
  statements of what they should do.
- **JavaScript's parsers are parameters.** `Number(s)`, `parseInt(s, 10)` and
  `new Date(s)` are abstract functions of a `Runtime` value.

`handleSubmit` (`src/pages/Search.jsx:88`) does not clear the debounce timer,
so a pending debounced search still fires after an explicit one (Enter or the
Search button). `Search.SearchPage.Submit` leaves the timer as it was.

The files:

- `common.dfy`: `Option`, `Response`, JavaScript's `||` defaults, and the
  runtime parsers.
- `js_text.dfy`: `trim()`, `toUpperCase()` and `slice(0, n)`.
- `movies.dfy`: the movie and page records, and the values a form field holds.
- `pagination.dfy`: page counts and `PaginationBar`.
- `sort_select.dfy`: `SortSelect`.
- `sorting.dfy`: the Search comparator and a stable sort.
- `debounce.dfy`: the timer slot and keystroke bursts.
- View modules: `search.dfy`, `home.dfy`, `manage_movies.dfy`, `snack.dfy`,
  `signup.dfy`, `login.dfy`, `add_movie.dfy`, `navbar.dfy`.

## Model

| member | source | states |
|---|---|---|
| `Common.ServerMessageOr` | src/pages/Search.jsx:48 | a failed call shows the server's message when it is non-empty, otherwise the view's fixed text; with a non-empty fixed text the message is never empty |
| `SortSelect.ChooseBy` | src/components/SortSelect.jsx:18 | choosing "Sort By" replaces `by` with the choice and keeps `order` |
| `SortSelect.ChooseOrder` | src/components/SortSelect.jsx:32 | choosing "Order" replaces `order` with the choice and keeps `by` |
| `SortSelect.ChoicesCommute` | src/components/SortSelect.jsx:15-36 | the two drop-downs do not interfere: choosing a field and an order in either sequence gives `{by: field, order}` |
| `SortSelect.OfferedChoicesStayOffered` | src/components/SortSelect.jsx:20-35 | starting from `{title, asc}`, any series of menu choices leaves `by` in {title, rating, releaseDate, durationMinutes} and `order` in {asc, desc} |
| `Pagination.PageCount` | src/pages/Search.jsx:69 | `ceil((total‖0)/(limit‖12))`: the least count of pages holding `total` items; 0 exactly when `total` is absent or 0; the divisor is never 0 |
| `Pagination.PaginationBar` | src/components/PaginationBar.jsx:4-18 | nothing is rendered when `totalPages` is absent, 0 or 1; otherwise the pager's count is `totalPages` and its page is `page` |
| `Sorting.Direction` | src/pages/Search.jsx:73 | the direction is -1 exactly when `order` is `"desc"`, +1 for every other value |
| `Sorting.Compare` | src/pages/Search.jsx:75-85 | the comparator's result, as its sign, is -1, 0 or 1 |
| `Sorting.CompareTies` | src/pages/Search.jsx:75-85 | two movies tie exactly when their keys for the chosen field are equal: rating, duration, release date, or the title for any other `by` |
| `Sorting.CompareMeaning` | src/pages/Search.jsx:75-85 | the comparator is non-positive exactly when the pair is in order by rating (missing = 0), duration (missing = 0), release date (missing = epoch 0) or, for any other `by`, title (missing = ""), ascending or descending |
| `Sorting.CompareAntisymmetric` | src/pages/Search.jsx:75-85 | swapping the comparator's arguments negates its sign |
| `Sorting.CompareTransitive` | src/pages/Search.jsx:75-85 | the "may precede" relation of the comparator is transitive, for every field and direction |
| `Sorting.ConsSorted` | src/pages/Search.jsx:75-85 | a movie that may precede the head of a sorted list may go in front of it, and the list stays sorted |
| `Sorting.HeadPrecedesInserted` | src/pages/Search.jsx:75-85 | when a movie goes after the head of a sorted list, the head may still precede everything in the rest with the movie inserted |
| `Sorting.Sort` | src/pages/Search.jsx:72-75 | the sorted copy is a permutation of the items |
| `Sorting.SortSorted` | src/pages/Search.jsx:75-85 | every pair of the sorted copy is ordered by the comparator |
| `Sorting.SortedItemsInOrder` | src/pages/Search.jsx:71-86 | the sorted copy holds exactly the items, and every pair appears in the order the field and direction ask for |
| `Sorting.SortIdempotent` | src/pages/Search.jsx:71-86 | sorting the sorted copy again changes nothing |
| `Sorting.RatingDescendingExample` | src/pages/Search.jsx:76-77 | two movies rated 7 and 9, sorted by rating descending, come out 9 first |
| `Debounce.Rearm` | src/pages/Search.jsx:55-62 | a change of text clears whatever was pending and leaves exactly one pending search, for the new text, 350 ms later |
| `Debounce.Advance` | src/pages/Search.jsx:60-62 | a due timer fires its query once and empties the slot; otherwise nothing happens |
| `Debounce.BurstLeavesOnePending` | src/pages/Search.jsx:55-67 | during a burst of keystrokes less than 350 ms apart nothing fires, and afterwards exactly one search is pending, for the last text, 350 ms after the last keystroke |
| `Debounce.BurstFiresOnceAtEnd` | src/pages/Search.jsx:55-67 | after a burst the search fires exactly when the clock reaches the last keystroke + 350 ms, with the last text, and only once |
| `Debounce.ThreeKeystrokesExample` | src/pages/Search.jsx:55-62 | keystrokes at 0, 100 and 200 ms fire one search, for the text typed at 200 ms, at 550 ms and not at 549 ms |
| `Search.SearchPage.constructor` | src/pages/Search.jsx:29-62 | empty text, `{items: [], total: 0, page: 1, limit: 12}`, sort `{title, asc}`, not loading, no error, and the mount's search for "" armed |
| `Search.SearchPage.BeginSearch` | src/pages/Search.jsx:39-45 | `err` is cleared and `loading` set before the request `{q, page, limit: 12}` |
| `Search.SearchPage.EndSearch` | src/pages/Search.jsx:46-51 | success replaces `data` wholesale; failure keeps `data` and sets `err` to the server message or "Failed to search movies."; `loading` is false on both paths |
| `Search.SearchPage.Type` | src/pages/Search.jsx:55-67 | a different text re-arms the timer for that text, one delay from now; the same text changes nothing |
| `Search.SearchPage.ClearSearch` | src/pages/Search.jsx:90-93 | the clear button sets the text to "" and re-arms the timer for "" unless the text was already empty |
| `Search.SearchPage.Tick` | src/pages/Search.jsx:60-62 | the request is sent exactly when the timer is due, and it is page 1 of the current text |
| `Search.SearchPage.Submit` | src/pages/Search.jsx:88 | Enter or the Search button fetches page 1 of the current text at once; the pending timer is not cleared |
| `Search.SearchPage.Refresh` | src/pages/Search.jsx:130 | the refresh button fetches the page last returned, or page 1 |
| `Search.SearchPage.SelectPage` | src/pages/Search.jsx:218 | the chosen page is fetched with the current text |
| `Search.SearchPage.ChooseSort` | src/pages/Search.jsx:128 | a new sort changes only `sort`; nothing is fetched |
| `Search.SearchPage.Unmount` | src/pages/Search.jsx:64-66 | leaving the view clears the timer, so no search is ever due again |
| `Search.SearchPage.TotalPages` | src/pages/Search.jsx:69 | the least page count holding `total‖0` items at `limit‖12` per page; 0 when `total` is absent |
| `Search.SearchPage.SortedItems` | src/pages/Search.jsx:71-86 | a permutation of `items‖[]`, ordered by the chosen field and direction |
| `Search.SearchPage.Results` | src/pages/Search.jsx:193-210 | the skeleton exactly while loading; otherwise "No movies found" exactly for no items; otherwise the sorted, non-empty grid |
| `Search.SearchPage.PagerShown` | src/pages/Search.jsx:213-221 | the pager appears exactly when there is more than one page, with that count and the server's page |
| `Home.View` | src/pages/Home.jsx:71-85 | exactly one of three states: the skeleton iff `initialLoad && loading`; else "No movies available" iff `loadedOk` and no items; else the grid of the items |
| `Home.FetchError` | src/pages/Home.jsx:32-34 | the server's message, else the transport error's message, else "Failed to load movies."; never empty |
| `Home.HomePage.constructor` | src/pages/Home.jsx:10-16 | the initial page data and sort, `initialLoad` set, nothing loading, no error, `loadedOk` false |
| `Home.HomePage.Mount` | src/pages/Home.jsx:41-44 | on mount, page 1 is fetched with the sort the view starts with; `loading` is raised and the skeleton shows |
| `Home.HomePage.BeginFetch` | src/pages/Home.jsx:18-25 | `err` is cleared; `loading` is raised only while `initialLoad` holds; the request carries the page, 12 and the sort |
| `Home.HomePage.EndFetch` | src/pages/Home.jsx:26-38 | success replaces `data` and sets `loadedOk`; failure keeps `data`, clears `loadedOk` and sets the error; afterwards `loading` and `initialLoad` are false |
| `Home.HomePage.ChooseSort` | src/pages/Home.jsx:41-44 | a change of `by` or `order` fetches page 1 with the new sort, raising `loading` exactly as `fetchMovies` does; choosing the same sort fetches nothing and changes no flag |
| `Home.HomePage.SelectPage` | src/pages/Home.jsx:87-92 | the chosen page is fetched with the current sort; `err` is cleared and `loading` is raised exactly while `initialLoad` holds |
| `Home.HomePage.TotalPages` | src/pages/Home.jsx:46 | the least page count holding `total‖0` items at `limit‖12` per page |
| `Home.HomePage.ListArea` | src/pages/Home.jsx:71-85 | the skeleton exactly while loading, which only the first fetch does; "No movies available" exactly when not loading after a successful fetch of no items; otherwise the grid of the fetched items |
| `Home.HomePage.PagerShown` | src/pages/Home.jsx:87-93 | the pager appears exactly when the last fetch succeeded and there is more than one page |
| `ManageMovies.AdminPageCount` | src/pages/admin/ManageMovies.jsx:239 | `ceil((total‖0)/10)`: the least page count holding `total` rows at 10 per page |
| `ManageMovies.NextPage` | src/pages/admin/ManageMovies.jsx:287 | `page - 1` exactly when `page > 1` and one row was shown, otherwise `page`; at least 1 whenever `page` is |
| `ManageMovies.NextPageHasRows` | src/pages/admin/ManageMovies.jsx:286-290 | after deleting a row of the page shown, the page reloaded is never past the last page and holds rows whenever movies remain |
| `ManageMovies.NextPageExamples` | src/pages/admin/ManageMovies.jsx:287 | deleting the single row of page 3 of 21 reloads page 2; deleting one of 5 rows of page 3 of 25 reloads page 3 |
| `ManageMovies.FormOf` | src/pages/admin/ManageMovies.jsx:36-39 | the dialog's form starts from the movie: the same text fields, and each number field holds the movie's number exactly when it has one |
| `ManageMovies.SetField` | src/pages/admin/ManageMovies.jsx:41 | `set(k, v)` puts the input's text in field `k` and leaves the other six fields as they were |
| `ManageMovies.TypedTitleEnablesSave` | src/pages/admin/ManageMovies.jsx:94-177 | typing a title that is not all white space enables Save when no save is in flight; typing into any other input leaves Save as it was |
| `ManageMovies.NumberOrZero` | src/pages/admin/ManageMovies.jsx:54-55 | `Number(v) ‖ 0`: the number, or 0 when it is NaN |
| `ManageMovies.EditPayload` | src/pages/admin/ManageMovies.jsx:51-63 | the title trimmed or ""; description and poster URL or ""; rating and rank numeric or 0; the date cut to 10 characters or omitted; the duration omitted when empty |
| `ManageMovies.UntouchedFormSendsMovie` | src/pages/admin/ManageMovies.jsx:36-63 | saving an untouched form sends the movie's own rating and rank (missing = 0), its trimmed title, its date cut to 10 characters, and its duration unless missing or 0 |
| `ManageMovies.SaveEnabled` | src/pages/admin/ManageMovies.jsx:177 | Save is enabled exactly when nothing is being saved and the title is present and not all white space |
| `ManageMovies.SaveEnabledIffTitleSent` | src/pages/admin/ManageMovies.jsx:52-177 | Save is enabled exactly when nothing is being saved and the title the payload would carry is non-empty |
| `ManageMovies.EnabledSaveSendsTitle` | src/pages/admin/ManageMovies.jsx:177 | whenever Save is enabled, the title sent is non-empty and has no surrounding white space |
| `ManageMovies.ManageMoviesPage.constructor` | src/pages/admin/ManageMovies.jsx:223-273 | empty table, page 1, loading (the mount's load), no dialog open, and the search timer armed for "" |
| `ManageMovies.ManageMoviesPage.BeginLoad` | src/pages/admin/ManageMovies.jsx:241-248 | `loading` set and `err` cleared before the request `{page, limit: 10, q}` |
| `ManageMovies.ManageMoviesPage.EndLoad` | src/pages/admin/ManageMovies.jsx:249-263 | success sets `movies` to `items‖[]`, `total` to `total‖0`, `page` to the server's page or the one asked for; failure changes none of them and sets `err`; exactly when `page` moved, the page effect's follow-up `load(page, q)` is returned and `loading` stays raised, otherwise `loading` ends false |
| `ManageMovies.ManageMoviesPage.Type` | src/pages/admin/ManageMovies.jsx:266-273 | a different text clears the pending timer and arms one for the new text |
| `ManageMovies.ManageMoviesPage.Tick` | src/pages/admin/ManageMovies.jsx:267-270 | a due timer resets `page` to 1 and loads page 1 of the current text; nothing happens otherwise |
| `ManageMovies.ManageMoviesPage.SelectPage` | src/pages/admin/ManageMovies.jsx:260-263 | a different page is loaded with the current text; the current page loads nothing |
| `ManageMovies.ManageMoviesPage.Refresh` | src/pages/admin/ManageMovies.jsx:327 | the refresh button reloads the current page and text; the empty state's Reload loads page 1 with no text |
| `ManageMovies.ManageMoviesPage.AskDelete` | src/pages/admin/ManageMovies.jsx:412 | a row's Delete button opens the confirmation for that movie |
| `ManageMovies.ManageMoviesPage.CancelDelete` | src/pages/admin/ManageMovies.jsx:191 | the confirmation closes, except while the delete is in flight |
| `ManageMovies.ManageMoviesPage.BeginRemove` | src/pages/admin/ManageMovies.jsx:275-283 | nothing at all for a movie without an id; otherwise `deleting` is set, both notices cleared and the delete sent |
| `ManageMovies.ManageMoviesPage.EndRemove` | src/pages/admin/ManageMovies.jsx:284-295 | success: "Movie deleted.", confirmation closed, `nextPage` loaded with the same text; failure: confirmation kept, `err` is the server message or "Delete failed."; `deleting` ends false |
| `ManageMovies.ManageMoviesPage.OpenEdit` | src/pages/admin/ManageMovies.jsx:36-39 | the dialog opens on the movie, its form holding the movie's values |
| `ManageMovies.ManageMoviesPage.CloseEdit` | src/pages/admin/ManageMovies.jsx:80 | the dialog closes and its form empties, except while saving |
| `ManageMovies.ManageMoviesPage.ChangeField` | src/pages/admin/ManageMovies.jsx:41 | typing into one input changes that field of the dialog's form and nothing else |
| `ManageMovies.ManageMoviesPage.BeginSave` | src/pages/admin/ManageMovies.jsx:43-63 | nothing without an edited movie with an id; otherwise `saving` is set, both notices cleared, and the normalised payload sent |
| `ManageMovies.ManageMoviesPage.EndSave` | src/pages/admin/ManageMovies.jsx:64-72 | success: "Movie updated.", the current page reloaded, the dialog closed; failure: the dialog stays open and `err` is the server message or "Update failed."; `saving` ends false |
| `ManageMovies.ManageMoviesPage.TotalPages` | src/pages/admin/ManageMovies.jsx:239 | the least page count holding `total` rows at 10 per page |
| `ManageMovies.ManageMoviesPage.PagerShown` | src/pages/admin/ManageMovies.jsx:482-492 | the pager appears exactly when not loading and there is more than one page, on the current page |
| `ManageMovies.ManageMoviesPage.CanSave` | src/pages/admin/ManageMovies.jsx:177 | Save is enabled exactly when not saving and the payload `save` would send has a non-empty title |
| `Snack.Show` | src/pages/SignUp.jsx:47-48 | `openSnack` opens the snack with exactly that text and severity |
| `Snack.Close` | src/pages/SignUp.jsx:50-53 | a clickaway changes nothing; any other close only sets `open` to false, keeping text and severity |
| `Snack.CloseIdempotent` | src/pages/Login.jsx:44-47 | closing twice for one reason is closing once, and a clickaway never hides an open snack |
| `SignUp.Set` | src/pages/SignUp.jsx:45 | `set(k, v)` replaces field `k` only |
| `SignUp.Validate` | src/pages/SignUp.jsx:70-87 | the checks in order: blank name, blank email (both a warning), password shorter than 8, password differing from the confirmation (both a rejection); the first failure decides; a pass iff none fails |
| `SignUp.PasswordTooShort` | src/pages/SignUp.jsx:56-59 | the length hint appears exactly for a non-empty password shorter than 8 |
| `SignUp.PasswordsMismatch` | src/pages/SignUp.jsx:61-64 | the mismatch hint appears exactly for a non-empty confirmation that differs from the password |
| `SignUp.MismatchOnlyForLongPassword` | src/pages/SignUp.jsx:78-87 | a mismatch is only reported for a password of at least 8 characters |
| `SignUp.HintsAgreeWithSubmit` | src/pages/SignUp.jsx:56-87 | a form that passes shows no live hint; with name and email filled, the "too short" hint means the submit is rejected as too short, and the "mismatch" hint (on a long password) as a mismatch; conversely a "too short" rejection shows the hint unless the password is empty, and a mismatch rejection shows it unless the confirmation is empty |
| `SignUp.SilentRejections` | src/pages/SignUp.jsx:56-87 | an empty password, or an empty confirmation of a long password, shows no hint but is rejected on submit |
| `SignUp.SignUpPage.constructor` | src/pages/SignUp.jsx:26-43 | an empty form, nothing loading, no error, the snack closed |
| `SignUp.SignUpPage.Edit` | src/pages/SignUp.jsx:45 | typing replaces one field of the form |
| `SignUp.SignUpPage.BeginSubmit` | src/pages/SignUp.jsx:66-95 | `err` is cleared; a warning opens a warning snack and leaves `err` empty; a rejection puts the same text in `err` and an error snack; only a pass sends, with trimmed name and email and the password as typed |
| `SignUp.SignUpPage.EndSubmit` | src/pages/SignUp.jsx:96-106 | success opens "Account created successfully ✅"; failure puts the server message or "Signup failed" in both `err` and an error snack; `loading` ends false |
| `SignUp.SignUpPage.CloseSnack` | src/pages/SignUp.jsx:50-53 | the snack closes as `Close` says; nothing else changes |
| `Login.Filled` | src/pages/Login.jsx:53 | the check passes exactly for an email that is not all white space and a non-empty password |
| `Login.FilledMeaning` | src/pages/Login.jsx:53 | the password is not trimmed: any non-empty password of white space only passes whenever the email does |
| `Login.LoginPage.constructor` | src/pages/Login.jsx:26-39 | empty fields, nothing loading, no error, the snack closed |
| `Login.LoginPage.Edit` | src/pages/Login.jsx:115-127 | typing replaces the email and password |
| `Login.LoginPage.BeginSubmit` | src/pages/Login.jsx:49-60 | `err` is cleared; a missing field opens the warning snack and sends nothing; otherwise the email, untrimmed, and password are sent |
| `Login.LoginPage.EndSubmit` | src/pages/Login.jsx:61-72 | success opens "Logged in successfully ✅"; failure puts the server message or "Login failed" in both `err` and an error snack; `loading` ends false |
| `Login.LoginPage.CloseSnack` | src/pages/Login.jsx:44-47 | the snack closes as `Close` says; nothing else changes |
| `AddMovie.Set` | src/pages/admin/AddMovie.jsx:27 | `set(k, v)`: key `k` holds `v` and every other key is unchanged |
| `AddMovie.SetSameIsIdentity` | src/pages/admin/AddMovie.jsx:27 | setting a key to the value it holds leaves the form equal to itself |
| `AddMovie.IntOf` | src/pages/admin/AddMovie.jsx:39 | `parseInt(v, 10)`: typed text through the parser; an initial number keeps its integer part; the result is always an integer or NaN |
| `AddMovie.Payload` | src/pages/admin/AddMovie.jsx:34-40 | rating and duration converted to numbers, the rank parsed as a base-10 integer, an empty release date omitted, every other field unchanged |
| `AddMovie.InitialPayload` | src/pages/admin/AddMovie.jsx:15-40 | the untouched form sends title "", rating 0, duration 120, rank 0 and no date, whatever the parsers |
| `AddMovie.AddMoviePage.constructor` | src/pages/admin/AddMovie.jsx:15-25 | the initial form, no message, no error |
| `AddMovie.AddMoviePage.Edit` | src/pages/admin/AddMovie.jsx:27 | typing changes the one key only |
| `AddMovie.AddMoviePage.BeginSubmit` | src/pages/admin/AddMovie.jsx:29-40 | `msg` and `err` are cleared and the coerced payload of the form is posted |
| `AddMovie.AddMoviePage.EndSubmit` | src/pages/admin/AddMovie.jsx:41-53 | success: "Movie added!" and the form reset to exactly its initial value; failure: the form untouched, `msg` unchanged, `err` the server message or "Failed to add movie" |
| `Navbar.Links` | src/components/Navbar.jsx:35-57 | the base links are Home then Search; the admin links exactly for role "admin"; the Login and Sign Up links exactly when nobody is signed in |
| `Navbar.AdminAndAuthExclusive` | src/components/Navbar.jsx:41-54 | the admin and sign-in lists are never both non-empty |
| `Navbar.IsActive` | src/components/Navbar.jsx:59-62 | the root link is active only on "/"; any other link exactly on the paths that start with it; a link is always active on its own path |
| `Navbar.AtMostOneActive` | src/components/Navbar.jsx:59-62 | on any path, no two of the bar's links are active at once |
| `Navbar.DrawerLinks` | src/components/Navbar.jsx:271 | the drawer lists Home and Search, followed by Add Movie and Manage exactly for an admin: four links for an admin, two otherwise |
| `Navbar.RoleChip` | src/components/Navbar.jsx:191 | the role upper-cased, or "USER" when the role is missing or empty; never empty |
| `Navbar.AdminChip` | src/components/Navbar.jsx:191 | the admin's chip reads "ADMIN" |
| `Navbar.Drawer.constructor` | src/components/Navbar.jsx:33 | the drawer starts closed |
| `Navbar.Drawer.Show` | src/components/Navbar.jsx:113 | the menu button opens the drawer |
| `Navbar.Drawer.Hide` | src/components/Navbar.jsx:243 | the close button closes the drawer |
| `Navbar.Drawer.Navigate` | src/components/Navbar.jsx:85-88 | navigating goes to the target and closes the drawer; the target's link is then active |
| `Navbar.Drawer.Logout` | src/components/Navbar.jsx:90-94 | logging out closes the drawer and goes to "/login" |

## Left out

- Layout and styling: `MovieCard`, `MovieGrid` and `MovieListSkeleton` only render. Routing (`App.jsx`) and bootstrap (`main.jsx`) are framework wiring.
- The HTTP client (`src/api/axios`) and the auth context (`src/auth/AuthContext.jsx`) are not part of this model. Each request is a returned value and each answer a `Response` parameter. `login(res.data)` after a signup or login, and `logout()` in the bar, are not modelled.
- The delayed `nav("/")` 400 ms after a signup or login is not modelled.
- Overlapping and out-of-order responses are not modelled: each `EndX` is applied to the state it finds. This covers rapid page clicks. The page effect's extra `load` after a page change inside `remove` or the Manage Movies timer repeats the request those handlers already return, and is not returned a second time.
- React's render scheduling is not modelled. A handler's state updates apply in order and at once. A closure that reads state from an earlier render is not represented.
- Numbers are Dafny `real`s, not IEEE doubles. NaN appears only as the result of a failed `Number`/`parseInt` coercion. A movie's `rating` and `durationMinutes` are taken to be numbers when present.
- Sorting.Compare: `localeCompare` is taken as plain lexicographic order on character codes. `new Date(s)` is an abstract total function to milliseconds, so an invalid date, which yields NaN in the comparator, is not modelled.
- Sorting.Sort: the copy is sorted by a stable insertion sort. `Array.prototype.sort` is also stable and the comparator is consistent, but the claim that both give the same list is not proved.
- Home.View: `data.items.length` on a response without `items` throws in the view. The model shows the grid of `None` instead.
- JsText.Upper maps only the Latin letters a–z, not the full Unicode case mapping of `toUpperCase`.
- Navbar.RoleChip: a role that is not a string, for which `toUpperCase?.()` yields `undefined`, is not modelled. Roles are optional strings.
- AddMovie.IntOf: `parseInt` of a number the form starts with is taken as truncation. That is exact for the initial values 0 and 120. Numbers written in exponent notation are not modelled.
- SignUp.Validate, SignUp.PasswordTooShort: Dafny's `|s|` counts Unicode scalar values, while JavaScript's `.length` counts UTF-16 code units. A password with characters outside the Basic Multilingual Plane (four emoji have `.length` 8) passes the length check in the browser but is rejected as too short by the model. ManageMovies.EditPayload's `slice(0, 10)` of the date is likewise taken per character, not per code unit.
- Login.LoginPage.Edit, SignUp.SignUpPage.Edit: every input is `disabled={loading}` (`src/pages/Login.jsx:119,130`, `src/pages/SignUp.jsx:151-224`). The model's `Edit` still accepts changes while `loading`, which the browser does not let through.
- The disabled states of buttons while a request is in flight are modelled only where they guard state: closing the edit dialog and cancelling a delete. A second submit while `loading` is not excluded.
- The pager's `onChange` forwards the chosen page unchanged. Each view models that as its `SelectPage(p)` event.
- Sign Up's and Login's show/hide password toggles are presentation only.
- The browser's own validation of `required` inputs (`src/pages/Login.jsx:116,128`, `src/pages/SignUp.jsx:150-198`, `src/pages/admin/AddMovie.jsx:106-183`) is not modelled: it can stop a submit with an empty field before `submit` runs, whereas the model's submit always reaches the handler's own checks. `SignUp.SilentRejections` is therefore about the handler, not about what a browser lets through.
- The browser's format check of the `type="email"` inputs (`src/pages/Login.jsx:118`, `src/pages/SignUp.jsx:160`) is not modelled either: an email without an `@` reaches the handler in the model, whereas the browser stops that submit.
