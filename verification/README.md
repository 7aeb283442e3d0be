# AI-Interview front end: the three page state machines

This project models the logic of the AI-Interview front end, a React app with three pages.

- **Home** (`Home.jsx`) is the session initiator. A signed-in user types a target job role and submits it. The page asks the backend to create an interview session. It then either moves to the interview page, passing the new `interviewId` and the role, or alerts an error.
- **Interview** (`Interview.jsx`) is the interview flow. It generates a question for the role and lets the user draft an answer. It grades the answer, shows the feedback, and offers "Next Prompt".
- **Dashboard** (`Dashboard.jsx`) is the history view. It fetches the signed-in user's past sessions and shows a spinner, an empty state or a grid of cards. It opens one session's records in order.

Each page is modelled as a pure transition system:

- an immutable `State` record holds the page's React state;
- one pure function models each handler. An `async` handler is split at its `await` into a start function (the next state plus the request it sends) and an end function (the next state given the network `Response`);
- predicates model the rendering conditions that decide which controls exist or are enabled. On the interview page they are read off `Interview.Render`, which reduces the markup to what it shows;
- a `Page` record adds the requests in flight and the requests or effects issued so far;
- `Step` accepts a user event only when the rendered page offers its control, and a reply only when a request of that kind is in flight;
- `Run` folds a sequence of events.

The invariants are proved over single steps and then, by induction, over every run of events.

The network is an input. `Response<T>` is `Ok(data)` for a 2xx status with its decoded body, `NotOk(error)` for another status whose body's `error` may be missing, or `TransportError` for anything the page's `catch` receives. The identity provider's `(userId, isLoaded)` is an input too (`Common.Auth`). JavaScript truthiness of strings is `Common.Truthy`. `String.prototype.trim` is modelled with the whitespace set of ECMA-262 (sections 12.2 and 12.3), and React's rendering of a count is `Common.Decimal`.

Files:

- `common.dfy`: `Option`, `Auth`, `Response`, truthiness, `trim`, decimal rendering.
- `interview.dfy`: the interview page.
- `home.dfy`: the home page.
- `dashboard.dfy`: the dashboard page.
- `flow.dfy`: the hand-over from a home-page navigation to the interview page.

Behaviour of the code that the model keeps as written:

- A failed question generation keeps the previous question. It does not empty the question.
- After a failed generation, "Next Prompt" is not offered: it is shown only while feedback is present. The answer area comes back instead, with the old (or initially empty) question. If the very first generation fails, no control re-issues it until an answer to the empty question has been graded and "Next Prompt" appears. An answer to the empty question can still be sent for grading (`Interview.FirstGenerateFailureGradesEmptyQuestion`).
- Without a loaded, signed-in user, the dashboard keeps its initial loading spinner forever. There is no separate "unloaded" state.
- No response is ever discarded as stale. Every reply is applied to the page that sent the request.
- A rejected interview request whose body has no `error` field sets the error to `undefined`. That hides the banner, so the user sees no message after the failure (`Interview.FailureBanner`).

## Model

| member | source | states |
|---|---|---|
| Common.TrimStart | src/pages/Interview.jsx:36 | the first half of `trim`: the result is a suffix of the input, everything removed is whitespace, and it does not start with whitespace |
| Common.TrimEnd | src/pages/Interview.jsx:36 | the second half of `trim`: the result is a prefix of the input, everything removed is whitespace, and it does not end with whitespace |
| Common.TrimIsWhitespaceFreeInfix | src/pages/Interview.jsx:36 | `trim` returns a slice of its input with only whitespace outside it and neither end on whitespace |
| Common.Trim | src/pages/Interview.jsx:36 | `s.trim()` is no longer than `s`, neither starts nor ends with whitespace, and is empty for an all-whitespace input |
| Common.BlankIffAllWhitespace | src/pages/Home.jsx:16 | the guard `!s.trim()` holds exactly when every character of `s` is whitespace, so empty and whitespace-only fields are refused and nothing else is |
| Common.Decimal | src/pages/Dashboard.jsx:65 | React's rendering of a count is a non-empty string of decimal digits with no leading zero unless the count is 0 |
| Common.ParseDecimalOfDecimal | src/pages/Dashboard.jsx:65 | a rendered count reads back as the same number |
| Common.DecimalInjective | src/pages/Dashboard.jsx:65 | distinct counts render as distinct digit strings |
| Interview.Enter | src/pages/Interview.jsx:19-22 | without a truthy `jobRole` the page navigates home and issues nothing; otherwise exactly one generate request for that role is in flight and the page is generating |
| Interview.GenerateStart | src/pages/Interview.jsx:24-25 | starting generation raises `isGenerating`, clears the error, feedback and draft, keeps the question, and sends the role |
| Interview.GenerateEnd | src/pages/Interview.jsx:26-32 | ok replaces the question; not-ok sets the reply's possibly absent error; an exception sets "Connection failed."; `isGenerating` ends false in every case and the draft, feedback and grading flag are untouched |
| Interview.EditAnswer | src/pages/Interview.jsx:98 | typing replaces the draft and changes nothing else |
| Interview.SubmitAnswer | src/pages/Interview.jsx:35-41 | a blank draft changes nothing and sends nothing; otherwise grading starts, the error is cleared, and the request carries the session id, the current question and the exact untrimmed draft |
| Interview.GradeEnd | src/pages/Interview.jsx:43-45 | ok stores the reply as feedback; a failure sets the error and keeps the feedback and the draft; `isGrading` ends false in every case |
| Interview.EnabledSubmitSendsDraft | src/pages/Interview.jsx:95-104 | an enabled submit button always passes the handler's blank guard and sends the draft |
| Interview.Render | src/pages/Interview.jsx:68-151 | the placeholder replaces the question exactly while generating; the banner shows exactly a truthy error, with its text; the answer area and the feedback panel are never rendered together, and under a question on screen exactly one of them is; the answer area only appears under a question; submit is enabled exactly when no grading runs and the draft holds a non-whitespace character; the panel shows the stored feedback |
| Interview.FailureBanner | src/pages/Interview.jsx:24-72 | after an exception the banner shows "Connection failed."; after a rejection it shows exactly when the reply's `error` is truthy, so a body without `error` leaves no message |
| Interview.StepFollowsControls | src/pages/Interview.jsx:95-147 | typing, submitting and "Next Prompt" are received exactly when the rendered page offers the control enabled; a reply is received exactly when one of its kind is in flight |
| Interview.StepAppendsAtMostOne | src/pages/Interview.jsx:104-144 | an accepted event keeps the page's role and session and appends at most one request to those sent; "Next Prompt" runs the generate handler for the page's role; only the two buttons send anything |
| Interview.SubmitAppendsOne | src/pages/Interview.jsx:104 | an accepted submit click appends exactly the grade request for the session, the question and the draft |
| Interview.NextPromptAppendsOne | src/pages/Interview.jsx:144 | an accepted "Next Prompt" click runs the generate handler and appends exactly one generate request for the page's role |
| Interview.EnterEstablishesInv | src/pages/Interview.jsx:11-25 | the page state right after entry satisfies the page invariant |
| Interview.StepPreservesInv | src/pages/Interview.jsx:24-46 | every event the rendered page accepts preserves the invariant: each flag is up exactly while one reply of its kind is awaited, the flags are never both up, no flag is up while feedback is shown, and every request sent is for the page's role or session, with a non-blank answer |
| Interview.RunPreservesInv | src/pages/Interview.jsx:24-46 | the invariant holds after any run of accepted events |
| Interview.ReachablePhasesExclusive | src/pages/Interview.jsx:95-144 | on every page reachable from entry, generating and grading never overlap, "Next Prompt" appears only when neither is running, and no blank answer was ever sent for grading |
| Interview.NextPromptIssuesOneGenerate | src/pages/Interview.jsx:144 | "Next Prompt" sends exactly one generate request for the role and hides both the answer area and itself until the reply |
| Interview.FailedGenerateKeepsQuestion | src/pages/Interview.jsx:25-32 | after a failed generation the old question stays, the answer area is back, and "Next Prompt" is not offered |
| Interview.FailedGradeAllowsRetry | src/pages/Interview.jsx:37-45 | after a failed grading the draft is kept and no feedback is shown; the answer area is back, and submit is enabled exactly when the draft is not blank |
| Interview.TypeThenSubmitSendsText | src/pages/Interview.jsx:97-104 | wherever the answer area shows and no grading runs, typing a non-blank answer and clicking submit sends exactly that text with the question on screen |
| Interview.FirstGenerateFailurePage | src/pages/Interview.jsx:19-32 | when the first generation fails, by a rejection or by an exception, the page shows the empty initial question with the answer area, no grading and no "Next Prompt", and has sent only the entry request |
| Interview.FirstGenerateFailureGradesEmptyQuestion | src/pages/Interview.jsx:19-41 | if the first generation fails, by a rejection or by an exception, the question stays empty and "Next Prompt" is not offered, while an answer to the empty question can still be typed and sent for grading |
| Home.EditRole | src/pages/Home.jsx:64 | typing replaces the role and leaves loading alone |
| Home.StartSubmit | src/pages/Home.jsx:14-25 | a blank role or a falsy user id changes nothing and sends nothing; otherwise loading starts and the request carries the untrimmed role and `clerkUserId = userId` |
| Home.AlertMessage | src/pages/Home.jsx:31 | the alert shows the reply's error when truthy, else "Connection error.", and is never empty |
| Home.StartEnd | src/pages/Home.jsx:27-37 | navigation happens exactly when the status is ok and `interviewId` is truthy, and it passes exactly that id and the role sent; otherwise the alert is the reply's error or the default; an exception alerts "Failed to reach backend."; loading ends in every case |
| Home.RoleInputEnabled | src/pages/Home.jsx:68 | once the identity provider has loaded, the role input accepts typing exactly when the submit button, not the sign-in notice, is shown |
| Home.SubmitEnabled | src/pages/Home.jsx:72-77 | the submit button is rendered and enabled exactly when the provider has loaded a user id, no request is in flight and the role holds a non-whitespace character; whoever can submit can also type |
| Home.ControlShown | src/pages/Home.jsx:72-87 | the spinner shows exactly while the identity provider loads, and the submit button shows exactly when it has loaded a user id |
| Home.EnabledSubmitSends | src/pages/Home.jsx:75-77 | an enabled submit button always passes the handler's guard and sends the request |
| Home.StepFollowsControls | src/pages/Home.jsx:55-77 | typing is received exactly when the input is enabled and replaces the role; the form submits exactly when the button is rendered and enabled, starting loading with the request for the role and user in flight; a reply is received exactly while a request is in flight, ends loading and appends one effect; an identity update changes only the identity |
| Home.TypingNeedsIdentity | src/pages/Home.jsx:68 | the role can be typed exactly when a user id is present |
| Home.NoSecondRequestWhileLoading | src/pages/Home.jsx:77 | while a create request is in flight no second one can be submitted |
| Home.MountEstablishesInv | src/pages/Home.jsx:7-8 | the freshly mounted page satisfies the page invariant |
| Home.StepPreservesInv | src/pages/Home.jsx:14-37 | every accepted event preserves the invariant: loading exactly while a request is in flight, that request has a non-blank role, and every navigation has a truthy id and a non-blank role |
| Home.RunPreservesInv | src/pages/Home.jsx:14-37 | the invariant holds after any run of accepted events |
| Home.ReachableNavigationWellFormed | src/pages/Home.jsx:16-36 | from mounting on, loading is down whenever nothing is in flight, and every navigation carries a truthy id and a non-blank role |
| Dashboard.RunEffect | src/pages/Dashboard.jsx:16-33 | running the effect for an identity appends one history request for that user and awaits one more reply exactly when the identity has loaded with a user id; otherwise nothing is sent; the page state is unchanged |
| Dashboard.StepFollowsControls | src/pages/Dashboard.jsx:16-118 | the i-th card is clickable exactly while the grid shows it and opens that session's detail; the back arrow works exactly while a session is open and closes it; a changed identity re-runs the effect while an unchanged one changes nothing; a reply is received exactly while one is awaited; clicks send nothing and keep the list |
| Dashboard.FetchStart | src/pages/Dashboard.jsx:16-23 | a history request is issued exactly when the identity has loaded and reports a user id, and it is for that user |
| Dashboard.FetchEnd | src/pages/Dashboard.jsx:20-29 | an ok reply replaces the sessions with its body; a non-ok reply or an exception keeps them; loading ends in every case and the selection is untouched |
| Dashboard.Select | src/pages/Dashboard.jsx:118 | clicking a card opens that session and leaves the list and loading flag untouched |
| Dashboard.Back | src/pages/Dashboard.jsx:45 | the back arrow closes the open session and leaves the list and loading flag untouched |
| Dashboard.CountLabel | src/pages/Dashboard.jsx:129 | the card label is the count, a space, then the word "Prompt" or "Prompts", ending in "s" exactly when the count is not one |
| Dashboard.Items | src/pages/Dashboard.jsx:61-65 | the open session lists one item per record, in stored order, the i-th headed "Prompt i+1" |
| Dashboard.DetailOf | src/pages/Dashboard.jsx:49-65 | the open session's header shows its role and date and the records badge; its items are its records in stored order, the i-th headed "Prompt i+1" |
| Dashboard.CardOf | src/pages/Dashboard.jsx:116-135 | a card shows the session's role and date, and its count label reads back as the number of records, in the plural exactly when there is not one; the label is the card's count label for that number |
| Dashboard.ViewOf | src/pages/Dashboard.jsx:36-115 | an open session wins; otherwise the spinner shows exactly while loading, the empty state exactly when loaded with no sessions, and the grid exactly when loaded with some, one card per session in list order |
| Dashboard.PromptLabelReadsBack | src/pages/Dashboard.jsx:65 | the number in a "Prompt n" heading reads back as n, and distinct numbers give distinct headings |
| Dashboard.ItemLabelsNumberPositions | src/pages/Dashboard.jsx:61-65 | the heading of the item at index i reads back as i+1, so no two items share a heading |
| Dashboard.BadgeCountsRecords | src/pages/Dashboard.jsx:56 | the records badge reads back as the number of records followed by " Records" |
| Dashboard.CountLabelInjective | src/pages/Dashboard.jsx:129 | cards with different record counts carry different count labels |
| Dashboard.EmptyReplyShowsEmptyState | src/pages/Dashboard.jsx:107-113 | an ok reply with an empty list shows the empty state, not the spinner |
| Dashboard.RunSessionsFollowReplies | src/pages/Dashboard.jsx:8-29 | over any run, the list is the body of the last ok reply (or the initial one), and loading stays up exactly until some reply arrives |
| Dashboard.NoIdentityNoRequest | src/pages/Dashboard.jsx:9-18 | while no loaded, signed-in identity appears, no request is issued and the spinner stays up |
| Dashboard.MountWithoutIdentity | src/pages/Dashboard.jsx:16-18 | mounting without a loaded, signed-in identity issues nothing and shows the spinner for every later run without one |
| Flow.NavigationStartsInterview | src/pages/Home.jsx:28-29 | every navigation the home page shows on a run from mounting enters the interview page generating, with exactly one generate request in flight, for the submitted role, and the new session id handed over |

## Left out

- `src/App.jsx`: routing and navbar markup only, with no logic.
- URLs, HTTP headers, `fetch` and JSON encoding are left out. Each round trip is a `Response` event, and each request is the record of its JSON body.
- A reply body of an unexpected shape is not modelled: a missing `question`, a non-object grade body, or a non-array history body. Each ok payload is a well-typed value.
- Rendering, CSS, `ReactMarkdown` and icons are left out. Only the conditions that decide which controls exist are modelled. The interview page's markup is reduced to `Interview.Render`: what the question area, the banner, the answer area and the feedback panel show.
- `new Date(createdAt).toLocaleDateString()` is locale formatting. `createdAt` is kept as opaque text.
- The `Score: n/10` display and the backend's score range are left out. The client does not check the score.
- React scheduling is simplified. Entering the interview page is one atomic step: mount, then the entry effect. The single render before the effect runs is not modelled. No state update is batched or interleaved beyond one event per step.
- Home submission by pressing Enter is modelled as the button click. The form could also submit with no button rendered, but only if the identity provider reported a user id before it finished loading, which it does not do.
- The home page leaving after navigation is not modelled. `Effect`s are only recorded, and later events on the left page are still accepted.
- Identity-provider internals and sign-in/sign-out UI are left out. `Auth` is an input that may change at any step.
- Stale-response cancellation, retries and backend persistence are not modelled: the code implements none of them.
- Logging is left out: the dashboard's `console.error(err)` in its `catch` has no effect on the page.
