# Page supervisor: a verified model of the recovery policy

`app.js` keeps one Puppeteer browser and one page open inside an Electron app. Every
5000 ms the monitor (`monitorTab`) looks at the page. A missing or closed page is
recreated (`restartTab`). A failed metrics query leads to a browser restart
(`restartBrowser`). A JS heap strictly above 1 073 741 820 bytes also recreates the
page. When recreating the page fails, the browser is restarted (`restartBrowser`, which
calls `startBrowser`). When that fails too, the app quits. On SIGINT/SIGTERM,
`cleanUpAndExit` closes the browser and the window and quits.

The model has these parts:

- `Policy` (policy.dfy): the constants and the tick's classification, `Decide`.
- `SessionState` (session_state.dfy): the session as a value. It holds the `browser`
  and `page` handles (ids from a fresh counter; a page records the browser that opened
  it) and the window. It also records which handles are closed, whether quit was
  requested, and the recovery tiers entered so far. `Valid` is the session invariant:
  at most one open browser, the current one; at most one open page, the current one.
  `Escalation` describes a run of calls that climbs tab → browser → quit.
- `Recovery` (recovery.dfy): `StartBrowser`, `RestartBrowser`, `RestartTab` and `Tick`
  as functions on the state. Each one is written declaratively, by which steps
  succeeded. `TickCalls` gives the recovery calls of a tick from the outcomes alone.
  The module also holds the lemmas about each tier and the lemmas that every tier
  keeps `Valid`.
- `Monitoring` (monitoring.dfy): the startup, and a run of events with lemmas by
  induction over the run. An event is a timer tick, or a closure from outside the
  program (`External`): the user closes the tab of the visible browser, or the browser
  crashes or is closed. A lost browser's pages may or may not notice the loss; both
  cases are modelled.
- `Shutdown` (shutdown.dfy): `cleanUpAndExit` as written, and the corrected release.
- `App` (session.dfy): class `Session`. Its fields are the module-level variables of
  `app.js` plus the abstract Puppeteer world. Its methods reassign them step by step,
  in the order the source awaits. Each method is proved to end in the state its
  specification function describes.

Every awaited Puppeteer call is an outcome given by the caller: `true` when the promise
resolves, `false` when it rejects. The metrics query gives either `Reading(n)` or
`QueryFailed`. A page reports closed (`isClosed()`) once it has been closed, or once the
browser that opened it has been closed by the program or lost in a way its pages notice.
A browser lost from outside without its pages noticing (`lostBrowsers`) leaves its page
reporting open, but no new page can be opened on it and, by assumption, its metrics
query rejects. `browser.newPage()` rejects when `browser` is undefined (a TypeError in the
source) and when the browser is closed (Puppeteer's behaviour). `app.quit()` is recorded as a request (`quitRequested`, and `AppQuit` in
`calls`). The process exit that follows it is not modelled.

Points where the code's behaviour is easy to misread:

- The monitor is scheduled even when the initial `startBrowser` failed and asked to quit
  (app.js:144-149). See `MonitorRunsAfterFailedStartup`.
- A failed `page.close()` in `restartTab` is not ignored. It escalates to
  `restartBrowser` (app.js:74-76, 85-88).
- The quit tier only calls `app.quit()`. It does not release the browser first
  (app.js:36, 102).
- `cleanUpAndExit` does not swallow a failed browser close (see Findings).

`restartTab`, `restartBrowser` and `startBrowser` each catch their own failures and never
reject. So `monitorTab`'s `catch` can only be reached from `page.metrics()`, and one tick
never escalates twice.

## Model

| member | source | states |
|---|---|---|
| Policy.Decide | app.js:43-66 | recreate the tab iff the page is missing or closed or the heap is strictly above the limit; recreate the browser iff the page is open and the metrics query failed; otherwise do nothing |
| Policy.DecideIgnoresMetricsWhenPageGone | app.js:45-49 | with a missing or closed page the decision is restartTab whatever the metrics would say |
| Policy.ThresholdScenario | app.js:56-61 | with the limit 1 073 741 820, a reading of 1 073 741 821 recreates the tab and 1 073 741 820 does nothing |
| SessionState.Initial | app.js:8-10 | before startup there are no handles and the session invariant holds |
| SessionState.LivePageBelongsToBrowser | app.js:74-77 | in a valid session an open page was opened by the current browser, which is open |
| SessionState.EscalationBounded | app.js:43-104 | an escalation has at most three calls, climbs strictly in tier, and every quit in it directly follows a browser restart |
| Recovery.StartBrowserEffect | app.js:16-38 | `browser` changes only on a resolved launch, to a fresh handle; `page` changes only on a resolved newPage, to a page of that browser; any failure requests quit exactly once |
| Recovery.StartBrowserSuccess | app.js:18-32 | after a full start the page is a fresh open page of the fresh browser, and nothing is escalated |
| Recovery.RestartBrowserEffect | app.js:94-104 | an existing browser is closed before the start; a failed close quits at once and changes nothing else; never re-enters restartTab; exactly one quit on any failure |
| Recovery.RestartBrowserSuccess | app.js:94-104 | after a successful restart the old browser, if any, is closed, `browser` is a fresh handle and `page` is an open page of it |
| Recovery.RestartTabEffect | app.js:72-89 | the old page is closed only if it is still open; on success the page is fresh and open, from the unchanged browser, with no escalation; on any failure exactly one restartBrowser and no retry of the tab |
| Recovery.TickCalls | app.js:43-104 | the recovery calls of one tick always form an escalation tab → browser → quit |
| Recovery.TickCallsMatch | app.js:43-67 | a tick appends exactly the calls `TickCalls` predicts |
| Recovery.TickPageGone | app.js:45-49 | a missing or closed page makes the tick a restartTab whose first call is the tab tier, and the metrics have no influence |
| Recovery.TickOverLimit | app.js:56-61 | an open page above the limit makes the tick a restartTab |
| Recovery.TickWithinLimit | app.js:56-61 | an open page at or below the limit leaves the session entirely unchanged |
| Recovery.TickQueryFailed | app.js:51-65 | a failed metrics query makes the tick a restartBrowser with no tab restart |
| Recovery.ClosePageKeepsValid | app.js:75 | closing the current page keeps the session invariant |
| Recovery.OpenPageKeepsValid | app.js:77 | opening a page on the current browser while no page is open keeps the session invariant |
| Recovery.StartBrowserKeepsValid | app.js:16-38 | starting with no open browser keeps at most one open browser and one open page |
| Recovery.RestartBrowserKeepsValid | app.js:94-104 | restartBrowser keeps the session invariant |
| Recovery.RestartTabKeepsValid | app.js:72-89 | restartTab keeps the session invariant |
| Recovery.RestartTabKeepsQuit | app.js:72-104 | restartTab never withdraws a quit request, whatever the outcomes of its steps and of the escalation |
| Recovery.TickKeepsValid | app.js:43-67 | a tick keeps the session invariant |
| Monitoring.Startup | app.js:144 | the startup leaves a valid session; it requests quit and records one quit exactly when a step failed, and otherwise leaves an open page |
| Monitoring.StepCalls | app.js:147-149 | the calls of one event form an escalation; an outside closure makes none |
| Monitoring.StepFacts | app.js:147-149 | a tick or an outside closure keeps the session invariant and appends exactly `StepCalls` |
| Monitoring.StepKeepsQuit | app.js:147-149 | no tick and no outside closure withdraws a quit request |
| Monitoring.ClosedTabIsReopened | app.js:43-89 | after the user closes the open tab of a working browser, the next tick sees a closed page and, when the new page's steps resolve, reopens an open page on the same browser with a single tab restart |
| Monitoring.CrashedBrowserIsRestarted | app.js:43-104 | after the browser is lost under an open page, the next tick makes exactly one browser restart, which gives a new browser with an open page when it succeeds and one quit otherwise; when the page notices the loss, a tab restart comes first and fails to open a page; when it does not, the metrics query fails and the tick goes straight to restartBrowser (app.js:51, 62-65) |
| Monitoring.RunKeepsValid | app.js:147-149 | any sequence of ticks and outside closures keeps the session invariant |
| Monitoring.RunExtendsCalls | app.js:147-149 | successive events only append calls, at most three per event |
| Monitoring.RunQuitFollowsBrowserRestart | app.js:147-149 | every quit requested during a run comes directly after a browser restart |
| Monitoring.RunKeepsQuit | app.js:147-149 | a quit request is never withdrawn by later events |
| Monitoring.MonitorRunsAfterFailedStartup | app.js:144-149 | after a failed launch or newPage at startup, the first tick still restarts the tab |
| Shutdown.CleanUpAndExitEffect | app.js:109-119 | when the browser close does not reject: closes the browser if present, the window if present, requests quit, keeps `browser` and `page` |
| Shutdown.CleanUpCloseFailureSkipsQuit | app.js:111-113 | as written, a rejected browser close leaves the session unchanged: no window close, no quit |
| Shutdown.CleanUpCloseFailureExample | app.js:111-118 | concretely, after a full start with a window, a failed browser close leaves the window open and no quit requested |
| Shutdown.ReleaseAll | app.js:109-119 | the corrected release always requests quit and closes the window if present, closing the browser when its close succeeds |
| Shutdown.CleanUpAndExitKeepsValid | app.js:109-119 | the handler as written keeps the session invariant |
| Shutdown.ReleaseAllKeepsValid | app.js:109-119 | the corrected release keeps the session invariant |
| Shutdown.ReleaseAllLeavesNothingLive | app.js:109-119 | after a release with a successful close no browser and no page is open |
| Shutdown.ReleaseAllIdempotent | app.js:109-119 | after a first release whose browser close resolves, a second release closes nothing new and only requests quit again |
| Shutdown.SupervisionEndsReleased | app.js:144-149 | startup, any ticks and outside closures, then a release whose browser close resolves, leave nothing open and quit requested |
| App.Session.constructor | app.js:8-10 | the session starts with no browser and no page |
| App.Session.IsClosed | app.js:45 | `page.isClosed()` agrees with the abstract state, and in a valid session every page other than the current one reports closed |
| App.Session.Quit | app.js:36 | `app.quit()` (also at app.js:102 and 118) requests quit and records one `AppQuit`; nothing else changes |
| App.Session.OpenPage | app.js:77 | a resolved newPage assigns a fresh page of the current browser |
| App.Session.StartBrowser | app.js:16-38 | called with no open browser, the step-by-step startBrowser ends in the state `Recovery.StartBrowser` describes and keeps the session invariant |
| App.Session.RestartBrowser | app.js:94-104 | the step-by-step restartBrowser ends in the state `Recovery.RestartBrowser` describes and keeps the session invariant |
| App.Session.RestartTab | app.js:72-89 | the step-by-step restartTab ends in the state `Recovery.RestartTab` describes and keeps the session invariant |
| App.Session.MonitorTab | app.js:43-67 | the tick takes the action `Decide` gives, ends in the state `Recovery.Tick` describes, and keeps the invariant |
| App.Session.CleanUpAndExit | app.js:109-119 | the handler as written ends in the state `Shutdown.CleanUpAndExit` describes and keeps the session invariant |

## Left out

- Electron window creation, `loadFile`, and the `closed`, `window-all-closed` and `activate` handlers with their platform check: host glue. The window is only a present/absent flag given to the constructor.
- Registering `cleanUpAndExit` for SIGINT and SIGTERM: signal delivery is not modelled. `cleanUpAndExit` is an operation the environment may invoke.
- `setInterval` and overlapping ticks: each tick is one atomic step, and a run is a sequence of such steps. Torn reads of `browser`/`page` between concurrent ticks are not captured. `MonitorIntervalMs` is recorded but plays no part.
- Monitoring.CrashedBrowserIsRestarted: assumes that `page.metrics()` rejects on a page whose browser was lost without the page noticing; Puppeteer's behaviour there is outside this model.
- Pages of a browser the program itself closed are assumed to report `isClosed()`; this is an assumption about Puppeteer, not something `app.js` states.
- Outside closures are modelled only as closing the current page and/or the current browser. Other outside changes, such as a navigation by the user, are not modelled.
- Puppeteer itself: launch flags, the 1920×1080 viewport, navigation, how `JSHeapUsedSize` is measured, and hangs (no call has a timeout). Every call is an opaque resolve/reject outcome, and the heap reading is a natural number.
- A `JSHeapUsedSize` that is not a number: a comparison with `undefined` would be false and the tick would do nothing. The model assumes a numeric reading.
- The process exit after `app.quit()`: the model records the request, and later ticks still run, as they can in the source until the process ends.
- Console logging.

## Findings

| source | as written | input that shows it | evidently intended | confidence | as-written member | corrected member |
|---|---|---|---|---|---|---|
| app.js:109-119 | `await browser.close()` has no `try`, so a rejection ends `cleanUpAndExit` before `mainWindow.close()` and `app.quit()` | a browser is present and its `close()` rejects (e.g. the browser process already crashed) on SIGINT | a best-effort cleanup that always closes the window and requests quit | medium; not executed | Shutdown.CleanUpCloseFailureSkipsQuit | Shutdown.ReleaseAll |
