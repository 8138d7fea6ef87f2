/**
 * The three recovery tiers of app.js (startBrowser, restartBrowser, restartTab) and one
 * monitor tick, as functions on the session state. Every awaited Puppeteer call is an
 * outcome supplied by the environment: true when the promise resolves, false when it rejects.
 */
module Recovery {
  import opened Policy
  import opened SessionState

  /** Outcomes of startBrowser's awaited steps: launch, newPage, setViewport, goto. */
  datatype StartSteps = StartSteps(launch: bool, newPage: bool, setViewport: bool, goto: bool)

  /** Outcomes for restartBrowser: closing the current browser, then startBrowser's steps. */
  datatype BrowserSteps = BrowserSteps(close: bool, start: StartSteps)

  /** Outcomes of restartTab's awaited steps: close, newPage, setViewport, goto. */
  datatype TabSteps = TabSteps(close: bool, newPage: bool, setViewport: bool, goto: bool)

  /** Everything the environment answers during one tick. */
  datatype TickEnv = TickEnv(metrics: Metrics, tab: TabSteps, browser: BrowserSteps)

  /** `app.quit()`. */
  function Quit(st: State): State {
    st.(quitRequested := true, calls := st.calls + [AppQuit])
  }

  /** A successful `puppeteer.launch`, assigned to `browser`. */
  function Launch(st: State): State {
    st.(browser := Some(st.nextId), launched := st.launched + {st.nextId}, nextId := st.nextId + 1)
  }

  /** A successful `browser.newPage()`, assigned to `page`. */
  function OpenPage(st: State): State
    requires st.browser.Some?
  {
    var p := Page(st.nextId, st.browser.value);
    st.(page := Some(p), pagesOpened := st.pagesOpened + {p}, nextId := st.nextId + 1)
  }

  /** A successful `browser.close()`. */
  function CloseBrowser(st: State): State
    requires st.browser.Some?
  {
    st.(closedBrowsers := st.closedBrowsers + {st.browser.value})
  }

  /** A successful `page.close()`. */
  function ClosePage(st: State): State
    requires st.page.Some?
  {
    st.(closedPages := st.closedPages + {st.page.value.id})
  }

  predicate StartSucceeds(s: StartSteps) {
    s.launch && s.newPage && s.setViewport && s.goto
  }

  /**
   * startBrowser: the handles that were obtained before the first failing step stay
   * assigned, and any failure requests quit.
   */
  function StartBrowser(st: State, s: StartSteps): State {
    var launched := if s.launch then Launch(st) else st;
    var withPage := if s.launch && s.newPage then OpenPage(launched) else launched;
    if StartSucceeds(s) then withPage else Quit(withPage)
  }

  /** Whether restartBrowser ends with a fresh browser and page rather than a quit. */
  predicate BrowserRestartSucceeds(st: State, r: BrowserSteps) {
    (st.browser.None? || r.close) && StartSucceeds(r.start)
  }

  /**
   * restartBrowser: close the current browser if there is one, then start a new one; a
   * failed close requests quit without starting anything.
   */
  function RestartBrowser(st: State, r: BrowserSteps): State {
    var entered := st.(calls := st.calls + [BrowserRestart]);
    if st.browser.None? then StartBrowser(entered, r.start)
    else if r.close then StartBrowser(CloseBrowser(entered), r.start)
    else Quit(entered)
  }

  /**
   * Whether `browser.newPage()` can resolve: `browser` must be defined (otherwise the call
   * throws) and still reachable (Puppeteer rejects it on a closed or lost browser).
   */
  predicate CanOpenPage(st: State) {
    st.browser.Some? && st.browser.value !in st.closedBrowsers && st.browser.value !in st.lostBrowsers
  }

  /**
   * Whether restartTab ends with a fresh page: closing the old page (needed only when it
   * is still open), and the new page's creation, viewport and navigation all succeed, on
   * an existing, open browser.
   */
  predicate TabSucceeds(st: State, t: TabSteps) {
    (!PageLive(st) || t.close) && CanOpenPage(st) && t.newPage && t.setViewport && t.goto
  }

  /**
   * restartTab: close the old page if it is still open, open a new one on the current
   * browser; any failure hands over to restartBrowser, with whatever was assigned so far.
   */
  function RestartTab(st: State, t: TabSteps, r: BrowserSteps): State {
    var entered := st.(calls := st.calls + [TabRestart]);
    var closed := if PageLive(st) && t.close then ClosePage(entered) else entered;
    var replaced :=
      if (!PageLive(st) || t.close) && CanOpenPage(st) && t.newPage then OpenPage(closed) else closed;
    if TabSucceeds(st, t) then replaced else RestartBrowser(replaced, r)
  }

  /** monitorTab: classify the session, then run the chosen recovery tier. */
  function Tick(st: State, env: TickEnv): State {
    match Decide(st.page.Some?, st.page.Some? && !Live(st, st.page.value), env.metrics, MemoryLimitBytes)
    case Idle => st
    case RecoverTab => RestartTab(st, env.tab, env.browser)
    case RecoverBrowser => RestartBrowser(st, env.browser)
  }

  /**
   * The recovery calls one tick makes, read off the outcomes alone. It is always an
   * escalation: at most one call per tier, in the order tab, browser, quit.
   */
  function TickCalls(st: State, env: TickEnv): (t: seq<Call>)
    ensures Escalation(t)
  {
    var fromBrowser := [BrowserRestart] + (if BrowserRestartSucceeds(st, env.browser) then [] else [AppQuit]);
    match Decide(st.page.Some?, st.page.Some? && !Live(st, st.page.value), env.metrics, MemoryLimitBytes)
    case Idle => []
    case RecoverTab => [TabRestart] + (if TabSucceeds(st, env.tab) then [] else fromBrowser)
    case RecoverBrowser => fromBrowser
  }

  // ---------------------------------------------------------------------------
  // What each tier does

  lemma StartBrowserEffect(st: State, s: StartSteps)
    requires Valid(st)
    ensures var r := StartBrowser(st, s);
      && r.calls == st.calls + (if StartSucceeds(s) then [] else [AppQuit])
      && r.quitRequested == (st.quitRequested || !StartSucceeds(s))
      && r.closedBrowsers == st.closedBrowsers && r.closedPages == st.closedPages
      && r.window == st.window && r.windowClosed == st.windowClosed
      && (s.launch ==> r.browser == Some(st.nextId) && st.nextId !in st.launched + st.closedBrowsers)
      && (!s.launch ==> r.browser == st.browser && r.page == st.page)
      && (s.launch && s.newPage ==> r.page == Some(Page(st.nextId + 1, st.nextId)))
      && (s.launch && !s.newPage ==> r.page == st.page)
  {
  }

  /** After a successful start the new page is open and belongs to the new browser. */
  lemma StartBrowserSuccess(st: State, s: StartSteps)
    requires Valid(st)
    ensures StartSucceeds(s) ==> var r := StartBrowser(st, s);
      && r.browser == Some(st.nextId) && r.page == Some(Page(st.nextId + 1, st.nextId))
      && PageLive(r) && r.quitRequested == st.quitRequested && r.calls == st.calls
  {
  }

  /**
   * restartBrowser closes the existing browser before launching, never re-enters the
   * tab tier, and ends in exactly one quit when the close or any start step fails.
   */
  lemma RestartBrowserEffect(st: State, r: BrowserSteps)
    ensures var res := RestartBrowser(st, r);
      && res.calls == st.calls + [BrowserRestart] + (if BrowserRestartSucceeds(st, r) then [] else [AppQuit])
      && res.quitRequested == (st.quitRequested || !BrowserRestartSucceeds(st, r))
      && (st.browser.Some? && r.close ==> st.browser.value in res.closedBrowsers)
      && (st.browser.Some? && !r.close ==>
            res == st.(quitRequested := true, calls := st.calls + [BrowserRestart, AppQuit]))
      && res.closedPages == st.closedPages
  {
  }

  /**
   * After a successful restart the old browser, if any, is closed, and the session holds
   * a fresh browser and an open page of it.
   */
  lemma RestartBrowserSuccess(st: State, r: BrowserSteps)
    requires Valid(st) && BrowserRestartSucceeds(st, r)
    ensures var res := RestartBrowser(st, r);
      && res.browser == Some(st.nextId)
      && res.page == Some(Page(st.nextId + 1, st.nextId))
      && PageLive(res)
      && (st.browser.Some? ==> st.browser.value in res.closedBrowsers)
  {
    var entered := st.(calls := st.calls + [BrowserRestart]);
    if st.browser.None? {
      StartBrowserSuccess(entered, r.start);
    } else {
      StartBrowserSuccess(CloseBrowser(entered), r.start);
    }
  }

  /**
   * restartTab closes the old page only when it is still open. On success the page is a
   * fresh one from the unchanged current browser and nothing escalates; on any failure
   * it enters restartBrowser exactly once and never retries the tab.
   */
  lemma RestartTabEffect(st: State, t: TabSteps, r: BrowserSteps)
    requires Valid(st)
    ensures var res := RestartTab(st, t, r);
      && res.closedPages == st.closedPages + (if PageLive(st) && t.close then {st.page.value.id} else {})
      && (TabSucceeds(st, t) ==>
            && res.calls == st.calls + [TabRestart]
            && res.browser == st.browser
            && res.page == Some(Page(st.nextId, st.browser.value))
            && res.page.value !in st.pagesOpened
            && PageLive(res)
            && res.closedBrowsers == st.closedBrowsers
            && res.quitRequested == st.quitRequested)
      && (!TabSucceeds(st, t) ==>
            && res.calls == st.calls + [TabRestart, BrowserRestart]
                              + (if BrowserRestartSucceeds(st, r) then [] else [AppQuit])
            && res.quitRequested == (st.quitRequested || !BrowserRestartSucceeds(st, r)))
  {
    var entered := st.(calls := st.calls + [TabRestart]);
    var closed := if PageLive(st) && t.close then ClosePage(entered) else entered;
    var replaced :=
      if (!PageLive(st) || t.close) && CanOpenPage(st) && t.newPage then OpenPage(closed) else closed;
    if !TabSucceeds(st, t) {
      assert replaced.browser == st.browser;
      RestartBrowserEffect(replaced, r);
      assert BrowserRestartSucceeds(replaced, r) == BrowserRestartSucceeds(st, r);
      assert replaced.calls + [BrowserRestart] == st.calls + [TabRestart, BrowserRestart];
    }
  }

  // ---------------------------------------------------------------------------
  // One tick

  /** A missing or closed page: the tick is restartTab, and the metrics are never consulted. */
  lemma TickPageGone(st: State, env: TickEnv, other: Metrics)
    requires !PageLive(st)
    ensures Tick(st, env) == RestartTab(st, env.tab, env.browser)
    ensures Tick(st, env.(metrics := other)) == Tick(st, env)
    ensures TickCalls(st, env)[0] == TabRestart
  {
  }

  /** A heap strictly above the limit recreates the tab. */
  lemma TickOverLimit(st: State, env: TickEnv)
    requires PageLive(st) && env.metrics.Reading? && env.metrics.usedHeap > MemoryLimitBytes
    ensures Tick(st, env) == RestartTab(st, env.tab, env.browser)
    ensures TickCalls(st, env)[0] == TabRestart
  {
  }

  /** A heap at or below the limit changes nothing at all. */
  lemma TickWithinLimit(st: State, env: TickEnv)
    requires PageLive(st) && env.metrics.Reading? && env.metrics.usedHeap <= MemoryLimitBytes
    ensures Tick(st, env) == st && TickCalls(st, env) == []
  {
  }

  /** A failed metrics query recreates the browser and never the tab in that tick. */
  lemma TickQueryFailed(st: State, env: TickEnv)
    requires PageLive(st) && env.metrics.QueryFailed?
    ensures Tick(st, env) == RestartBrowser(st, env.browser)
    ensures TabRestart !in TickCalls(st, env)
  {
  }

  /** The tick appends exactly the escalation TickCalls predicts to the record of calls. */
  lemma TickCallsMatch(st: State, env: TickEnv)
    requires Valid(st)
    ensures Tick(st, env).calls == st.calls + TickCalls(st, env)
  {
    match Decide(st.page.Some?, st.page.Some? && !Live(st, st.page.value), env.metrics, MemoryLimitBytes)
    case Idle =>
    case RecoverTab =>
      RestartTabEffect(st, env.tab, env.browser);
    case RecoverBrowser =>
      RestartBrowserEffect(st, env.browser);
  }

  // ---------------------------------------------------------------------------
  // The session invariant is kept

  /** Closing the current page keeps the invariant. */
  lemma ClosePageKeepsValid(st: State)
    requires Valid(st) && st.page.Some?
    ensures Valid(ClosePage(st))
  {
  }

  /** Opening a page while no page is open keeps the invariant. */
  lemma OpenPageKeepsValid(st: State)
    requires Valid(st) && st.browser.Some? && !PageLive(st)
    ensures Valid(OpenPage(st))
  {
    assert forall p :: p in st.pagesOpened ==> !Live(st, p);
  }

  lemma StartBrowserKeepsValid(st: State, s: StartSteps)
    requires Valid(st) && NoLiveBrowser(st)
    ensures Valid(StartBrowser(st, s))
  {
  }

  lemma RestartBrowserKeepsValid(st: State, r: BrowserSteps)
    requires Valid(st)
    ensures Valid(RestartBrowser(st, r))
  {
    var entered := st.(calls := st.calls + [BrowserRestart]);
    if st.browser.None? {
      StartBrowserKeepsValid(entered, r.start);
    } else if r.close {
      StartBrowserKeepsValid(CloseBrowser(entered), r.start);
    }
  }

  lemma RestartTabKeepsValid(st: State, t: TabSteps, r: BrowserSteps)
    requires Valid(st)
    ensures Valid(RestartTab(st, t, r))
  {
    var entered := st.(calls := st.calls + [TabRestart]);
    var closed := if PageLive(st) && t.close then ClosePage(entered) else entered;
    if PageLive(st) && t.close {
      ClosePageKeepsValid(entered);
    }
    if (!PageLive(st) || t.close) && CanOpenPage(st) && t.newPage {
      OpenPageKeepsValid(closed);
      RestartBrowserKeepsValid(OpenPage(closed), r);
    } else {
      RestartBrowserKeepsValid(closed, r);
    }
  }

  /** restartTab never withdraws a quit request. */
  lemma RestartTabKeepsQuit(st: State, t: TabSteps, r: BrowserSteps)
    requires st.quitRequested
    ensures RestartTab(st, t, r).quitRequested
  {
    var entered := st.(calls := st.calls + [TabRestart]);
    var closed := if PageLive(st) && t.close then ClosePage(entered) else entered;
    var replaced :=
      if (!PageLive(st) || t.close) && CanOpenPage(st) && t.newPage then OpenPage(closed) else closed;
    RestartBrowserEffect(replaced, r);
  }

  lemma TickKeepsValid(st: State, env: TickEnv)
    requires Valid(st)
    ensures Valid(Tick(st, env))
  {
    RestartTabKeepsValid(st, env.tab, env.browser);
    RestartBrowserKeepsValid(st, env.browser);
  }
}
