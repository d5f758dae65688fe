# LinkSaver front end — a Dafny model of its client logic

LinkSaver is a personal bookmark manager. Its React front end lets a user
sign up or sign in, save a URL (enriched with a page summary fetched from an
external content-extraction service), and view and reorder their bookmarks by
drag-and-drop. This project models the thin layer of client logic under the
rendering:

- **Bookmark ordering** (`bookmark_list.dfy`, module `BookmarkList`): the
  list component's state (`bookmarks`, `loading`, `error`), the fetch that
  fills it, the drag-end reorder (`findIndex` on both ids, then dnd-kit's
  `arrayMove`) and the render precedence. The reorder is proved to be a
  permutation that puts the dragged bookmark at the target's former index,
  shifts the elements in between by one and leaves the rest in place; a
  move from `to` back to `from` restores the list. A ghost field records the list the server last
  returned; every displayed list is a reordering of it.
- **Bookmark capture** (`add_bookmark.dfy`, module `AddBookmark`): the
  enrichment outcome, the summary fallback ("No summary available"), the
  create payload, and the form's `url` / `error` / `loading` / `success`
  state machine.
- **Session establishment** (`login.dfy`, `register.dfy`): the guarded steps
  of sign-in and sign-up, each ending either with an error message on the
  form or with the token stored and the user signed in.
- **Session restore and route guard** (`app.dfy`, module `App`): the
  start-up token check and the choice of screen per path.

Every network call is an abstract outcome (`Api.Reply`): an ok answer with
its body, a non-ok answer with an optional `detail`, or a thrown error with
its message. The `localStorage` entry "token" is one optional string
(`Storage.TokenSlot`). Each async handler is split at its awaits into one
method per synchronous segment. The class's `pending` field records where the
handler is suspended. A continuation method requires the matching phase,
since it can only run after its await. So the create request is built only
after enrichment has settled, and auto-login only after registration has
succeeded. A `HandleSubmit` method in each form runs the segments in order
for a submission with nothing interleaved.

Details of the code the model keeps:

- Enrichment failure yields `null` in the enrichment function. The fallback
  summary is substituted only when the payload is built.
- A summary of `""` also gets the fallback.
- There is no URL validation before the requests. Only the browser's input
  attributes check the URL.
- A non-ok list fetch shows "Failed to fetch bookmarks" whatever the server
  said. A thrown fetch error shows its own message.
- A successful fetch does not clear an earlier error.

## Model

| member | source | states |
|---|---|---|
| `Api.DetailOr` | src/components/Login.jsx:37-39 | a non-empty detail is shown as is, a missing or empty one gives the fallback; never empty when the fallback is not |
| `Api.FailureMessage` | src/components/AddBookmark.jsx:89-98 | the message a failed step stores: a rejection gives the detail or the fallback (never empty), a thrown error keeps its own message |
| `Storage.TokenSlot.constructor` | src/App.jsx:16 | the localStorage "token" entry holds the given value, `None` standing for a null `getItem`; it is written at Login.jsx:41 and Register.jsx:69 |
| `Storage.Truthy` | src/App.jsx:17 | the `if (token)` test: a truthy token is a present, non-empty string; null and "" are falsy |
| `App.RouteElement` | src/App.jsx:50-101 | `/` shows the bookmark screen iff signed in, `/login` and `/register` show their forms iff signed out, otherwise the route redirects signed-in users to `/` and signed-out users to `/login`; unknown paths match nothing |
| `App.Navigate` | src/App.jsx:62-100 | following a route's redirect always lands on a rendered screen; on a known path a user reaches the bookmark screen iff signed in, and a signed-out user lands on a form |
| `App.Root.constructor` | src/App.jsx:12-13 | initially signed out and loading |
| `App.Root.RestoreSession` | src/App.jsx:15-21 | a truthy stored token sets the flag, an absent or empty one leaves it; loading ends whatever the result |
| `App.Root.Render` | src/App.jsx:23-46 | spinner exactly while loading; then the navigation bar exactly when signed in, above the guarded route's element |
| `App.Start` | src/App.jsx:11-21 | after mounting, the user is signed in iff a truthy token is stored, and loading is over |
| `BookmarkList.FindIndex` | src/components/BookmarkList.jsx:67-68 | the first index holding the id, or -1 exactly when no bookmark has it |
| `BookmarkList.ArrayMove` | src/components/BookmarkList.jsx:69 | same length; the moved element sits at `to`; elements outside the range between the indices keep their positions; those inside shift by one toward `from` |
| `BookmarkList.ArrayMovePermutes` | src/components/BookmarkList.jsx:69 | a move keeps the multiset of elements: nothing added, dropped or duplicated |
| `BookmarkList.ArrayMoveUndo` | src/components/BookmarkList.jsx:69 | moving from `to` back to `from` restores the original sequence |
| `BookmarkList.ArrayMoveInPlace` | src/components/BookmarkList.jsx:69 | a move onto the same index is the identity |
| `BookmarkList.Reordered` | src/components/BookmarkList.jsx:66-70 | the drag updater is a permutation of the list and puts the dragged bookmark at the drop target's former index |
| `BookmarkList.ReorderedSameId` | src/components/BookmarkList.jsx:65-70 | with equal ids the updater would leave the list unchanged |
| `BookmarkList.ListComponent.constructor` | src/components/BookmarkList.jsx:21-23 | the list starts empty, loading, with no error |
| `BookmarkList.ListComponent.FetchBookmarks` | src/components/BookmarkList.jsx:33-56 | an ok answer replaces the list wholesale with the server's, in server order; a non-ok one sets "Failed to fetch bookmarks", a thrown one its message, and the list stays; loading ends; the ghost record of the last fetched list follows the ok answers only, and the list remains a reordering of it |
| `BookmarkList.ListComponent.HandleDragEnd` | src/components/BookmarkList.jsx:62-72 | equal ids leave the list unchanged; otherwise the list becomes the updater's permutation, still a reordering of the last fetched list |
| `BookmarkList.ListComponent.Render` | src/components/BookmarkList.jsx:74-203 | spinner while loading, then a non-empty error, then the empty state for an empty list, then the cards in list order |
| `AddBookmark.SummaryFromJina` | src/components/AddBookmark.jsx:44-61 | the response text exactly on an ok answer, null on a non-ok status or a thrown error |
| `AddBookmark.SummaryToSend` | src/components/AddBookmark.jsx:84 | the enrichment text when non-empty, otherwise "No summary available"; never empty |
| `AddBookmark.CreatePayload` | src/components/AddBookmark.jsx:71-86 | the payload carries the enriched URL and a non-empty summary: the fetched text or the fallback |
| `AddBookmark.CaptureForm.constructor` | src/components/AddBookmark.jsx:6-9 | empty URL and error, not loading, no success banner |
| `AddBookmark.CaptureForm.SetUrl` | src/components/AddBookmark.jsx:157 | the input sets the URL only |
| `AddBookmark.CaptureForm.Submit` | src/components/AddBookmark.jsx:63-71 | before any request: error cleared, loading on, success off; enrichment is asked for the current URL |
| `AddBookmark.CaptureForm.ReceiveSummary` | src/components/AddBookmark.jsx:71-87 | the create request is issued only after enrichment settled, with the URL that was enriched and a non-empty summary |
| `AddBookmark.CaptureForm.ReceiveCreateReply` | src/components/AddBookmark.jsx:89-101 | success clears the URL and shows the banner; failure sets the detail, fallback or thrown message, keeps the URL and no banner; loading ends |
| `AddBookmark.CaptureForm.ExpireSuccess` | src/components/AddBookmark.jsx:96 | the timer hides the success banner |
| `AddBookmark.CaptureForm.HandleSubmit` | src/components/AddBookmark.jsx:63-102 | a whole submission: enrichment of the submitted URL, then a create with that URL and the built summary, then the outcome above; error and success banners never show together |
| `Login.WithField` | src/components/Login.jsx:50-56 | the named field takes the value, the other is unchanged |
| `Login.SubmitOutcome` | src/components/Login.jsx:35-44 | signed in with the returned token iff the answer is ok; a failure message is empty only when a thrown error's was |
| `Login.LoginForm.constructor` | src/components/Login.jsx:7-13 | empty form, no error, not loading |
| `Login.LoginForm.HandleChange` | src/components/Login.jsx:50-56 | only the named field changes |
| `Login.LoginForm.Submit` | src/components/Login.jsx:15-33 | error cleared and loading on before the request; the request carries username = email and the password |
| `Login.LoginForm.ReceiveToken` | src/components/Login.jsx:35-47 | ok: token slot holds `access_token` and the user is signed in; otherwise the error is set and neither token nor flag changes; loading ends |
| `Login.LoginForm.HandleSubmit` | src/components/Login.jsx:15-48 | a whole submission ends in exactly the outcome `SubmitOutcome` gives: signed in with the error cleared, or the failure message with token and flag unchanged; no error shows while loading |
| `Register.WithField` | src/components/Register.jsx:78-84 | the named field takes the value, the others are unchanged |
| `Register.AutoLoginRequest` | src/components/Register.jsx:56-59 | the token request for an account carries its email as `username` and its password |
| `Register.SubmitOutcome` | src/components/Register.jsx:16-76 | signed in with the returned token iff passwords match and both requests succeed; a mismatch fails with "Passwords do not match" first; a failure message is empty only when a thrown error's was |
| `Register.RegisterForm.constructor` | src/components/Register.jsx:7-13 | empty form, no error, not loading |
| `Register.RegisterForm.HandleChange` | src/components/Register.jsx:78-84 | only the named field changes |
| `Register.RegisterForm.Submit` | src/components/Register.jsx:16-40 | a mismatch sets "Passwords do not match", sends nothing and leaves loading off; otherwise loading on and the registration request carries email and password |
| `Register.RegisterForm.ReceiveRegistration` | src/components/Register.jsx:42-61 | success sends the auto-login request for the same account; failure sets the detail or "Registration failed", ends loading and sends nothing |
| `Register.RegisterForm.ReceiveToken` | src/components/Register.jsx:63-75 | ok: token slot holds `access_token` and the user is signed in; otherwise the error is set ("Auto-login failed" fallback) and neither token nor flag changes; loading ends |
| `Register.RegisterForm.HandleSubmit` | src/components/Register.jsx:16-76 | a whole submission: register only past the guard, auto-login only after a successful registration, ending in exactly the outcome `SubmitOutcome` gives: signed in with the error cleared, or the failure message with token and flag unchanged; no error shows while loading |

## Left out

- HTTP, endpoint URLs, headers, JSON encoding and parsing. Each request is an abstract `Reply`. A `detail` that is not a string is not modelled.
- An ok token answer without `access_token` is not modelled. The browser would store the string "undefined".
- The bearer token sent with the list and create requests is not modelled. A missing token only shows as a server answer.
- Path matching of the router is not modelled. The paths are a datatype, and React Router's case and trailing-slash rules are out.
- Sign-out and the navigation bar's own logic are not modelled. The navigation bar and the theme context are not part of this model.
- The three-second timer is the explicit `ExpireSuccess` event, not wall-clock time.
- Async interleaving is not modelled: a fetch racing a capture, state updates after unmount, or typing into the URL input while a submission is pending beyond what `SetUrl` allows.
- Submitting while `loading` is excluded by a precondition on each `Submit`. This models the disabled submit button, the only guard the code has.
- `BookmarkList.ListComponent.HandleDragEnd`: ids missing from the list and a drop over nothing are excluded by a precondition. The code does not handle them, and dnd-kit's collision detection, which decides them, is geometric.
- dnd-kit sensors, collision detection, and negative or out-of-range `arrayMove` indices are not modelled.
- Bookmark cards, animations, styling and dark mode are presentation only and are not modelled.
- The commented-out enrichment variants are not modelled.
- Logging to the console is not modelled.
