# Admin console: driver filter, route guard and login flow

This project models the client-side logic of a small admin console. An
administrator signs in, sees driver-verification records fetched from a
remote API, and filters and searches them. The dashboard also defines
handlers to approve or reject a driver and to run a simulated AI check.
Nothing on the page as written calls them: `approveDriver`,
`rejectDriver` and `runAiVerification` are only defined
(src/pages/AdminDashboard.jsx:35, :59, :75). The row's Verify button only
sets `selectedDriver`, and no markup reads it. The model treats the three
handlers as if they were wired to controls.
Three pieces of the console have behaviour that can be stated:

- **The driver filter** (`driver_filter.dfy`). It chooses which drivers the
  dashboard's table shows, given a tab (`all`, `pending`, `verified` or
  `rejected`) and a search query. The query is matched case-insensitively
  against `full_name`, and drivers without a name are never shown. The
  lemmas prove that:
  - the filter keeps list order;
  - it keeps exactly the drivers that pass both rules, each as often as it
    occurs in the list;
  - shown drivers always have a name;
  - an unknown tab shows nothing;
  - an empty query shows every named driver on the tab;
  - the case of the query does not matter;
  - filtering twice gives the same result as filtering once.

  `text.dfy` holds the two string operations the filter uses: ASCII
  lower-casing and substring search. The search is proved equal to its
  reference definition, "some window of the text equals the needle".
- **The dashboard's handlers** (`dashboard.dfy`). The class `AdminDashboard`
  has the page's state cells: `drivers`, `selectedTab`, `searchQuery`,
  `selectedDriver`, `verificationResult` and `processing`. Its methods are
  the load on mount, tab and search changes, selection, the simulated AI
  verification, approval and rejection. Network outcomes are method inputs.
  The requests the page sends are recorded in fields:
  - `listRequests`: requests for the driver list;
  - `verifyRequests`: ids sent for verification;
  - `alerts`: notifications shown;
  - `timers`: simulated-verification timers not yet fired.
- **The route guard** (`protected_route.dfy`). `Decide` is the three-way
  choice between the spinner, a redirect to `/` that replaces the history
  entry, and the protected outlet. Protected content is shown exactly when
  the session is not loading and a user is present.
- **The login submit** (`login.dfy`). `Submit` is the specification of one
  submit as a step between form states. The state includes the history of
  values given to `setError` and `setIsLoading`, the browser storage, and
  the calls made to `login`, `navigate` and the authentication endpoint.
  The method `LoginForm.HandleSubmit` performs the handler's steps in order
  and is proved to reach the state `Submit` describes.

Inputs that stand for I/O and for code outside the model:
- `Fetch` is the outcome of a driver-list request.
- `Reply` is the outcome of the login request. It includes a response body
  that is not JSON.
- The decoder `decode: string -> Option<User>` stands for `jwtDecode`;
  `None` means the decoder throws.
- `Session.User` stands for the decoded token's claims; the model never reads them.

Three behaviours of the code worth stating plainly:
- Approval clears the selection only when the re-fetch of the list
  succeeds. If the re-fetch rejects, the catch block keeps the old list,
  selection and result.
- Drivers without a name are never shown, even when the query is empty.
- The list request does not check the HTTP status
  (src/api/backend.js:4-11): a non-OK reply whose body is JSON resolves
  like a success.

Two edge cases of the code are modelled as written:
- Approving with no selected driver throws while reading `id`. The catch
  block then only resets `processing`, and no request is sent.
- On a successful login response, the token is written to storage before it
  is decoded. A token the decoder rejects therefore stays stored, no user is
  signed in, and the generic error is shown
  (`Login.UnreadableRepliesLookLikeNetworkErrors`).

## Model

| member | source | states |
|---|---|---|
| `Text.LowerChar` | src/pages/AdminDashboard.jsx:32 | lower-cases an ASCII capital, leaves any other character alone, and never returns a capital |
| `Text.ToLower` | src/pages/AdminDashboard.jsx:32 | `toLowerCase` keeps the length and lower-cases every position |
| `Text.IncludesIff` | src/pages/AdminDashboard.jsx:32 | the left-to-right scan behind `includes` is true exactly when some window of the text equals the needle |
| `DriverFilter.FilterIsSubsequence` | src/pages/AdminDashboard.jsx:27-33 | the filtered list is a subsequence of `drivers`, so relative order is kept |
| `DriverFilter.FilterCounts` | src/pages/AdminDashboard.jsx:27-33 | each driver appears in the result as often as in `drivers` when it passes the tab and query rules, and otherwise not at all |
| `DriverFilter.FilterMembership` | src/pages/AdminDashboard.jsx:27-33 | a driver is shown if and only if it is in the list and passes both rules |
| `DriverFilter.ShownDriversAreNamed` | src/pages/AdminDashboard.jsx:28-32 | every shown driver passes the tab rule, has a `full_name`, and its lower-cased name contains the lower-cased query, so the row's initial never reads a missing name |
| `DriverFilter.UnknownTabShowsNothing` | src/pages/AdminDashboard.jsx:28-31 | a tab other than `all`, `pending`, `verified` or `rejected` yields the empty list |
| `DriverFilter.EmptyQueryKeepsNamed` | src/pages/AdminDashboard.jsx:32 | with an empty query, a listed driver is shown if and only if it passes the tab rule and has a name |
| `DriverFilter.FilterIgnoresQueryCase` | src/pages/AdminDashboard.jsx:32 | two queries with the same lower-case form select the same drivers |
| `DriverFilter.FilterIdempotent` | src/pages/AdminDashboard.jsx:27-33 | filtering the result again with the same tab and query returns it unchanged |
| `DriverFilter.TwoDriverScenario` | src/pages/AdminDashboard.jsx:27-33 | given pending Alice and verified Bob, tab `pending` with an empty query shows only Alice, and tab `all` with query `bo` shows only Bob |
| `Dashboard.SimulatedReport` | src/pages/AdminDashboard.jsx:40-54 | the fabricated report has `faceMatch` true and score 95, and both OCR parts succeed; the licence and NIC numbers come from `license_number` and `nic_number`, both names from `full_name`, and the expiry is the fixed placeholder |
| `Dashboard.SameReportIffSameDocuments` | src/pages/AdminDashboard.jsx:40-54 | two drivers get equal reports if and only if their licence number, NIC number and name agree |
| `Dashboard.AdminDashboard.constructor` | src/pages/AdminDashboard.jsx:7-12 | the page starts on tab `pending` with an empty query, no selection, no result, not processing, an empty list, and no requests sent |
| `Dashboard.AdminDashboard.Rows` | src/pages/AdminDashboard.jsx:27-33 | the table's rows are exactly the listed drivers that pass both rules, each as often as it is listed; they all have names and keep list order |
| `Dashboard.AdminDashboard.LoadDrivers` | src/pages/AdminDashboard.jsx:14-25 | the mount sends one list request; a resolved list replaces `drivers` and a failure keeps it |
| `Dashboard.AdminDashboard.SelectTab` | src/pages/AdminDashboard.jsx:139-157 | a tab button sets `selectedTab` and nothing else |
| `Dashboard.AdminDashboard.SetSearchQuery` | src/pages/AdminDashboard.jsx:122 | the search box sets `searchQuery` and nothing else |
| `Dashboard.AdminDashboard.SelectDriver` | src/pages/AdminDashboard.jsx:219 | the row's Verify button selects that driver and changes nothing else |
| `Dashboard.AdminDashboard.RunAiVerification` | src/pages/AdminDashboard.jsx:35-39 | starting the simulated verification sets `processing` and queues a timer for the driver |
| `Dashboard.AdminDashboard.AiTimerFires` | src/pages/AdminDashboard.jsx:39-56 | when the oldest timer fires, the result becomes that driver's report, `processing` becomes false and the timer is dequeued |
| `Dashboard.AdminDashboard.ApproveDriver` | src/pages/AdminDashboard.jsx:59-73 | `processing` ends false. With a selection, its id is sent for verification and one list request follows. A resolved list replaces `drivers` and clears the selection and result. With no selection, or a failed re-fetch, the list, selection and result stay unchanged |
| `Dashboard.AdminDashboard.RejectDriver` | src/pages/AdminDashboard.jsx:75-80 | shows the "Driver rejected" notice and clears the selection and result; the list, `processing` and all requests are unchanged |
| `ProtectedRoute.Decide` | src/components/ProtectedRoute.jsx:5-28 | loading gives the spinner whatever the user. Otherwise no user gives a redirect to `/` with `replace`, and a user gives the outlet. The outlet is shown if and only if the session is not loading and a user is present |
| `Login.Submit` | src/pages/Login.jsx:15-50 | each submit first clears the error and never changes the credentials or remember-me. An empty field gives the validation message with no request and no loading change. Otherwise one request is sent and loading goes true then false. Success stores the token verbatim, signs in the decoded user and opens `/admin-dashboard`. A refusal shows the server's message, a network failure the generic one, and neither stores, signs in or navigates. Navigation happens only after a sign-in whose user decodes from the stored token |
| `Login.UnreadableRepliesLookLikeNetworkErrors` | src/pages/Login.jsx:34-46 | a non-JSON body or a token the decoder rejects shows the generic message, with no sign-in and no navigation; in the rejected-token case the token has already been stored |
| `Login.RememberMeIgnored` | src/pages/Login.jsx:15-50 | the result of a submit does not depend on the remember-me box |
| `Login.LoginForm.constructor` | src/pages/Login.jsx:7-11 | the form starts with empty fields, remember-me off, not loading, no error and no calls made |
| `Login.LoginForm.SetUsername` | src/pages/Login.jsx:115 | the username field sets `username` |
| `Login.LoginForm.SetPassword` | src/pages/Login.jsx:141 | the password field sets `password` |
| `Login.LoginForm.SetRememberMe` | src/pages/Login.jsx:154 | the checkbox sets `rememberMe` |
| `Login.LoginForm.HandleSubmit` | src/pages/Login.jsx:15-50 | `handleSubmit`, step by step, leaves the form in exactly the state `Submit` gives for the old state |
| `Login.LoginForm.AwaitReply` | src/pages/Login.jsx:25-46 | the `try`/`catch` after the request is sent reaches the state `Exchange` describes for each kind of reply |
| `Login.LoginForm.Fail` | src/pages/Login.jsx:45-46 | the catch block sets the generic message |

## Left out

- `src/api/backend.js` is not part of this model. Its two calls are inputs: `Fetch` for the list request and nothing for the verification call. The verification call catches its own errors (src/api/backend.js:18-27), so the dashboard never sees it fail.
- The authentication context (`login`, `logout`, the start-up token check) is not part of this model. `login` is recorded as a call, and the guard takes `loading` and `user` as inputs.
- `jwtDecode` is the `decode` parameter and is not modelled; `fetch`, `response.json()` and `localStorage` are replaced by `Reply` and the `storage` map.
- Text.ToLower: only ASCII capitals are lower-cased; full Unicode case mapping is not modelled.
- `src/App.jsx` only wires routes, and the markup, styling and date formatting have no logic to model.
- Timing and concurrency are not modelled: the 2000 ms delay, interleaved async handlers, state updates after unmount, and repeated clicks. `RunAiVerification` and `AiTimerFires` are two separate steps, and any order of steps is allowed.
- Login.Submit: the case where the error body has no `message` field (which sets the error to `undefined`) is not modelled; a refusal body is either a message string or not JSON.
- Dashboard.AdminDashboard.LoadDrivers: a list request that resolves with a body that is not a list of drivers (for example a `{message}` object from a non-OK reply, which the list request does not check for) is not modelled; the page would store it and the next filter would throw. `Fetch` has only a resolved list or a rejection.
- Dashboard.AdminDashboard.ApproveDriver: the same resolved non-list body on the re-fetch is not modelled, for the same reason.
- Login.Submit: a success body without `accessToken` is not modelled as its own reply. The page stores the string "undefined" and the decoder then throws; this is the input `Accepted(Some("undefined"))` with a decoder that rejects that string, which `Login.UnreadableRepliesLookLikeNetworkErrors` covers.
- Driver fields that are only displayed (`address`, `phone_num`, `created_at`) are not part of `Driver`.
- The `console.log` and `console.error` calls and `preventDefault` have no effect on the modelled state and are left out.
