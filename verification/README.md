# Browser session shell of the sandbox browser API

`backend/core/sandbox/docker/browserApi.ts` runs one browser per sandbox behind a
small HTTP API. Its class `BrowserAutomation` holds a flag (`browserInitialized`)
and two handles (`stagehand`, the automation engine, and `page`). It starts and
stops the engine, answers health checks, and serves five actions: `navigate`,
`screenshot`, `act`, `extract` and `convertSvg`. This project models that shell
in Dafny as pure functions over an immutable session record, and proves what
the shell guarantees and where it falls short.

The engine (Stagehand over Playwright) is an oracle. Each engine call becomes
an argument that says what the call did:

- `Launch`: constructing the engine throws, launching it throws, or it launches;
- `Nav`: a `goto` loads, or fails with a message;
- `Capture`: the snapshot's screenshot, URL and title, or a throw;
- `ActOutcome` and `ExtractOutcome`: the action's result object, or its error;
- `SvgRender`: the SVG element count, the element's bounding box and the two possible screenshots, or an error.

Modules, one per file:

- `Options` (`options.dfy`): an optional value, for a JavaScript value that may be null or absent.
- `Strings` (`strings.dfy`): substring containment, which is JavaScript's `includes`.
- `Classifier` (`classifier.dfy`): the first-match cascade that `navigate` applies to a failed navigation's message, and the six-pattern connectivity probe of `init`.
- `Session` (`session.dfy`): the state record, and `init`, `health`, `shutdown`, the page-close and browser-disconnect listeners, and the engine closing the page.
- `Handlers` (`handlers.dfy`): `get_stagehand_state`, the readiness guard, the five action handlers and the `convertSvg` screenshot choice.
- `Routes` (`routes.dfy`): `GET /api` and `POST /api/init`.
- `Lifecycle` (`lifecycle.dfy`): sequences of events, and the invariants they keep. `shutdown` has no route and only `init` calls it, but it is kept as an event of its own, so the invariants hold over more runs than clients can cause.

## Behaviour reproduced as written

The model keeps these behaviours of the code and proves each one.

- **Cascade order.** `timeout` is tested before the reset codes, and `net::ERR_CONNECTION_REFUSED` before `403`/`Forbidden`. A message holding both "timeout" and "ERR_CONNECTION_RESET" is reported as a timeout (`Classifier.ResetWithTimeoutIsTimeout`).
- **Redundant disjuncts.** The second test of the timeout branch and of the reset branch contains the first, so it never decides anything (`Classifier.RedundantDisjuncts`).
- **Two different pattern sets.**
  - The probe in `init` treats the bare `ERR_CONNECTION_REFUSED` as no connectivity; `navigate` re-raises that message unclassified.
  - `navigate` classifies `403`; the probe does not count it as no connectivity.
- **The `filechooser` listener is never removed.**
  - `act` declares an inner `const` that shadows the outer `let` of the same name.
  - The `finally` block tests the outer variable, which is always null.
  - So every `act` call leaves its listener on the page (`Lifecycle.ActsAccumulateChoosers`).
- **Guard replies omit the screenshot.** The "Browser not initialized" replies carry no `screenshot_base64` field; every reply produced past the guard has one, except `convertSvg`'s 400 reply for a missing path.
- **The guard ignores page closure.**
  - The guard is `page && browserInitialized`; it does not call `health()`.
  - A closed page whose `close` listener has not yet run passes the guard.
  - Its snapshot is then empty: `screenshot` reports success with an empty image (`Handlers.GuardIgnoresClosedPage`).
- **Stale engine handle.**
  - When `stagehand.init()` throws, `stagehand` is already set but `page` is not.
  - The next `init` cleans up only when both handles are set, so it skips `shutdown`.
  - When the new engine is constructed, it overwrites the old one without closing it (`Session.StaleHandleSkipsShutdown`). When construction throws, the stale engine stays.
- **The probe's verdict never reaches the client.** `/api/init` answers `{healthy, browserApi}` for both "healthy" messages (`Routes.DegradedLaunchLooksHealthy`).
- **A dead test in the route.** `/api/init` accepts the status "initialized", but `init` never returns it (`Routes.InitRouteOkIffLaunched`).

## Model

| member | source | states |
|---|---|---|
| Classifier.Classify | backend/core/sandbox/docker/browserApi.ts:240-258 | a message is re-raised iff it matches no category; otherwise its category matches and no category tested earlier does |
| Classifier.ClassifyIsFirstMatch | backend/core/sandbox/docker/browserApi.ts:243-257 | the verdict is category c exactly when c matches and every earlier category does not (first match wins, both directions) |
| Classifier.NavigationError | backend/core/sandbox/docker/browserApi.ts:240-258 | an enriched message starts with the category's remediation text and ends with "Error: " plus the original message; an unmatched message is kept unchanged |
| Classifier.RedundantDisjuncts | backend/core/sandbox/docker/browserApi.ts:247-253 | the timeout branch's test holds iff "timeout" occurs, and the reset branch's test iff "ERR_CONNECTION_RESET" occurs: the second disjuncts are subsumed |
| Classifier.TimeoutShadowsReset | backend/core/sandbox/docker/browserApi.ts:243-253 | a message containing "timeout" is always classified as DNS or timeout, never as a reset |
| Classifier.RefusedShadowsForbidden | backend/core/sandbox/docker/browserApi.ts:249-255 | a message with the refused code is never classified as proxy-forbidden, whatever 403/Forbidden it also holds |
| Classifier.ResetWithTimeoutIsTimeout | backend/core/sandbox/docker/browserApi.ts:247-253 | a message with both "timeout" and "ERR_CONNECTION_RESET", and no DNS code, is reported as a timeout |
| Classifier.ProbeCoversNetworkCategories | backend/core/sandbox/docker/browserApi.ts:139-149 | every message `navigate` classifies as DNS, timeout, refused or reset is also one the init probe counts as no connectivity |
| Classifier.BareRefusedIsNoConnectivity | backend/core/sandbox/docker/browserApi.ts:144 | the probe counts the bare "ERR_CONNECTION_REFUSED" as no connectivity |
| Classifier.BareRefusedIsNotClassified | backend/core/sandbox/docker/browserApi.ts:249 | `navigate` re-raises the bare "ERR_CONNECTION_REFUSED" unclassified, because its test wants the `net::` prefix |
| Classifier.RefusedCodeIsNotReset | backend/core/sandbox/docker/browserApi.ts:251-252 | the refused code does not contain the reset code, so the reset branch does not catch it either |
| Classifier.ForbiddenIsNotNoConnectivity | backend/core/sandbox/docker/browserApi.ts:139-149 | "403" is classified proxy-forbidden by `navigate` but is not a connectivity failure for the probe |
| Session.Health | backend/core/sandbox/docker/browserApi.ts:175-184 | healthy iff the flag is set, a page exists and it is not closed; a closed page is always unhealthy |
| Session.Shutdown | backend/core/sandbox/docker/browserApi.ts:186-202 | the flag and both handles are cleared whether or not close fails; close is called iff both handles are set; the status is "shutdown" |
| Session.OnCrash | backend/core/sandbox/docker/browserApi.ts:105-116 | either listener clears only the flag, keeps both handles, leaves `health()` unhealthy and keeps the state consistent |
| Session.ClosePage | backend/core/sandbox/docker/browserApi.ts:176 | the engine closing the page changes nothing but `isClosed()`, so the flag stays as it was while health becomes unhealthy |
| Session.InitErrorMessage | backend/core/sandbox/docker/browserApi.ts:166-172 | the error message is never empty: the error's text when it has one, "Failed to initialize browser" otherwise |
| Session.ProbeMessage | backend/core/sandbox/docker/browserApi.ts:124-162 | the degraded message iff both probes fail and the HTTPS error has a connectivity pattern; "Browser initialized" otherwise |
| Session.Init | backend/core/sandbox/docker/browserApi.ts:38-173 | no-op when already initialized; shutdown first iff both handles set; "error" iff construction or launch throws, with the flag then clear; a construction failure leaves the state as the cleanup left it; otherwise "healthy" with a fresh page whatever the probes do; a launch failure leaves the engine handle set |
| Session.InitIdempotent | backend/core/sandbox/docker/browserApi.ts:40-45 | after a successful init, a second one changes nothing and answers "Browser already initialized" |
| Session.StaleHandleSkipsShutdown | backend/core/sandbox/docker/browserApi.ts:42-99 | after a launch failure the next init does not shut down and, once the new engine is constructed, abandons the old one unclosed |
| Session.CrashForcesRelaunch | backend/core/sandbox/docker/browserApi.ts:103-119 | after either crash listener health is unhealthy, init does not answer "already initialized", and it shuts down first iff a page handle remains |
| Handlers.StagehandState | backend/core/sandbox/docker/browserApi.ts:204-229 | the three strings come from the engine only while healthy and capture succeeds; otherwise all three are empty |
| Handlers.NotInitialized | backend/core/sandbox/docker/browserApi.ts:272-278 | the guard reply: 500, not successful, "Browser not initialized", empty URL and title, no screenshot field |
| Handlers.Navigate | backend/core/sandbox/docker/browserApi.ts:231-293 | guard reply unless ready; 200 iff ready and the page loads; a failed load gives 500 with the classified error and "unknown URL" for an empty URL; every reply past the guard carries the snapshot |
| Handlers.TakeScreenshot | backend/core/sandbox/docker/browserApi.ts:295-328 | guard reply unless ready; otherwise 200 with the snapshot |
| Handlers.ChooserFor | backend/core/sandbox/docker/browserApi.ts:336-342 | the listener supplies no file exactly when the file path is empty, and exactly that one path otherwise |
| Handlers.Act | backend/core/sandbox/docker/browserApi.ts:330-383 | guard reply and no state change unless ready; otherwise the listener is added and kept on success and failure, and the reply is 200 with the action's result and the snapshot's URL, title and screenshot iff the action returned; otherwise 500 "Failed to act" with the snapshot |
| Handlers.Extract | backend/core/sandbox/docker/browserApi.ts:385-421 | guard reply unless ready; 200 with the extraction and the snapshot's URL, title and screenshot iff it returned; otherwise 500 "Failed to extract" with the snapshot |
| Handlers.ShotTargetFor | backend/core/sandbox/docker/browserApi.ts:464-483 | the element screenshot is taken iff an svg exists and its bounding box has positive width and height |
| Handlers.ConvertSvg | backend/core/sandbox/docker/browserApi.ts:423-506 | initialization checked before the path; 400 only when ready with no path; 200 iff rendered, carrying the chosen screenshot and the snapshot's URL and title; otherwise 500 with the snapshot |
| Handlers.ReadyIsInitialized | backend/core/sandbox/docker/browserApi.ts:233 | for a consistent state the guard reduces to the flag |
| Handlers.GuardIgnoresClosedPage | backend/core/sandbox/docker/browserApi.ts:204-233 | a closed page with the flag set passes the guard: `screenshot` answers 200 with empty URL, title and screenshot, and a failed `goto` answers 500 with an empty snapshot |
| Handlers.CrashRefusesEveryHandler | backend/core/sandbox/docker/browserApi.ts:105-116 | after either crash listener every handler returns its guard reply and `act` changes nothing |
| Handlers.SnapshotNeverMasksOutcome | backend/core/sandbox/docker/browserApi.ts:204-229 | status, success, message and error of navigate, act and extract do not depend on what the snapshot capture does |
| Handlers.GuardMakesNoEngineCall | backend/core/sandbox/docker/browserApi.ts:427-449 | when the guard fails every handler's reply is independent of every engine outcome, and `act` leaves the state unchanged; the cited lines are `convertSvg`'s guard, and the guards of `navigate`, `screenshot`, `act` and `extract` at :233, :297, :333 and :387 are alike |
| Handlers.ScreenshotFieldOnlyPastGuard | backend/core/sandbox/docker/browserApi.ts:271-278 | navigate, screenshot and act replies carry a screenshot field iff the guard passed; the cited lines are `navigate`'s guard-failure reply, and `screenshot` and `act` test the same guard at :297 and :333 |
| Handlers.ScreenshotFieldOnlyPastChecks | backend/core/sandbox/docker/browserApi.ts:427-449 | extract replies carry a screenshot iff the guard passed; convertSvg replies iff it passed and a path was given; the cited lines are `convertSvg`'s checks, and `extract`'s guard-failure reply is at :400-408 |
| Routes.HealthRoute | backend/core/sandbox/docker/browserApi.ts:514-528 | 200 iff the flag is set and an open page exists; otherwise 500 "unhealthy", the service named either way |
| Routes.InitRoute | backend/core/sandbox/docker/browserApi.ts:530-546 | 200 iff the status is "initialized" or "healthy"; otherwise 500 with init's message |
| Routes.InitRouteOkIffLaunched | backend/core/sandbox/docker/browserApi.ts:534-545 | init never says "initialized"; the route answers 200 iff the browser was initialized already or the launch succeeded |
| Routes.DegradedLaunchLooksHealthy | backend/core/sandbox/docker/browserApi.ts:534-539 | after a successful launch the route's reply is the same whatever the probes found |
| Routes.HealthRouteAfterInit | backend/core/sandbox/docker/browserApi.ts:514-528 | from an uninitialized state, /api is healthy after init iff the launch succeeded, and never after a crash listener runs |
| Lifecycle.RunPreservesValid | backend/core/sandbox/docker/browserApi.ts:38-202 | every sequence of events keeps the handles consistent with the flag (engine before page, flag only with a page) |
| Lifecycle.ReachableIsValid | backend/core/sandbox/docker/browserApi.ts:24-28 | every state reachable from the constructor's is consistent |
| Lifecycle.NoRecoveryWithoutInit | backend/core/sandbox/docker/browserApi.ts:98-99 | once the flag is clear, no sequence of events without an init raises it, and health stays unhealthy |
| Lifecycle.FlagRaisedOnlyByLaunch | backend/core/sandbox/docker/browserApi.ts:98-99 | if the flag went from clear to set, some init in the sequence had a successful launch |
| Lifecycle.Choosers | backend/core/sandbox/docker/browserApi.ts:336-344 | the listeners of a sequence of act calls, one per call, in order, each supplying that call's file |
| Lifecycle.ActsAccumulateChoosers | backend/core/sandbox/docker/browserApi.ts:331-381 | n act calls on a ready session append all n listeners to the page's and none is removed |
| Lifecycle.TwoActsKeepBothListeners | backend/core/sandbox/docker/browserApi.ts:336-381 | after two acts on a fresh page, both calls' listeners are registered, in order, whatever the paths |

## Left out

- Express wiring, JSON body parsing, `app.listen` and `console` logging: they are plumbing with no behaviour to state.
- The launch options at browserApi.ts:48-97 (model name, browser flags, API key): they are passed to the engine and only change what `Launch` reports.
- Timeouts, including `waitForTimeout(500)` and the `goto` timeouts: they appear only as a failure message in `Nav` or `SvgRender`.
- Concurrency. Each call and each listener is one atomic event; a listener that fires in the middle of a call's awaits is not modelled.
- The `if (this.page)` test at browserApi.ts:103. The model assumes `stagehand.page` is set after a successful launch, so the crash listeners are always attached.
- A failure to attach the `disconnected` listener (browserApi.ts:111-119). Listener events are inputs to the model, so a missing listener is the same as one that never fires.
- The failure replies of `screenshot`, `act` and `extract` put the raw error object in `error`, and JSON serialises it as JavaScript decides. The model carries the error's text instead.
- `Nav`'s message is the text the source computes as `error?.message || String(error)`. The model does not separate the two sources of that text.
- Handlers.TakeScreenshot: the catch block of `screenshot` (browserApi.ts:316-327) is not modelled. `get_stagehand_state` never throws, so nothing can reach that block.
- Request fields the model does not use: `iframes` and `variables` of `act` and `extract`. They only go to the engine.
- Base64 encoding of screenshots: a screenshot is an opaque string.
- backend/test_bedrock.py and backend/test_bedrock_connection.py: they are scripts that make live model-provider calls and print suggestions, with no state to model.
