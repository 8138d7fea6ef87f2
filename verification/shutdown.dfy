/** cleanUpAndExit, run when the process receives SIGINT or SIGTERM. */
module Shutdown {
  import opened SessionState
  import opened Recovery
  import opened Monitoring

  /**
   * cleanUpAndExit as written: close the browser if there is one, close the window if
   * there is one, then quit. Nothing catches a rejected `browser.close()`, so such a
   * rejection abandons the window close and the quit.
   */
  function CleanUpAndExit(st: State, closeOk: bool): State {
    if st.browser.Some? && !closeOk then st
    else
      var closed := if st.browser.Some? then CloseBrowser(st) else st;
      Quit(closed.(windowClosed := closed.windowClosed || closed.window))
  }

  /**
   * When the browser close does not reject, cleanUpAndExit closes exactly what is
   * present, requests quit, and leaves the `browser` and `page` variables as they were.
   */
  lemma CleanUpAndExitEffect(st: State, closeOk: bool)
    requires st.browser.None? || closeOk
    ensures var r := CleanUpAndExit(st, closeOk);
      && r.quitRequested && r.calls == st.calls + [AppQuit]
      && r.browser == st.browser && r.page == st.page
      && r.closedBrowsers == st.closedBrowsers + (if st.browser.Some? then {st.browser.value} else {})
      && r.windowClosed == (st.windowClosed || st.window)
      && r.closedPages == st.closedPages
  {
  }

  /** The handler as written keeps the session invariant, whether or not the close rejects. */
  lemma CleanUpAndExitKeepsValid(st: State, closeOk: bool)
    requires Valid(st)
    ensures Valid(CleanUpAndExit(st, closeOk))
  {
  }

  /** A rejected browser close leaves everything as it was: no window close, no quit. */
  lemma CleanUpCloseFailureSkipsQuit(st: State)
    requires st.browser.Some?
    ensures CleanUpAndExit(st, false) == st
  {
  }

  /** A concrete case: a healthy session with a window, and a browser that fails to close. */
  lemma CleanUpCloseFailureExample()
    ensures var st := Startup(true, StartSteps(true, true, true, true));
      var r := CleanUpAndExit(st, false);
      st.window && !r.quitRequested && !r.windowClosed && r.browser.value !in r.closedBrowsers
  {
  }

  /**
   * The release the signal handler evidently intends: a failed browser close is
   * swallowed, and the window close and the quit happen regardless.
   */
  function ReleaseAll(st: State, closeOk: bool): (r: State)
    ensures r.quitRequested && r.calls == st.calls + [AppQuit]
    ensures r.windowClosed == (st.windowClosed || st.window)
    ensures r.browser == st.browser && r.page == st.page
    ensures st.browser.Some? && closeOk ==> st.browser.value in r.closedBrowsers
  {
    var closed := if st.browser.Some? && closeOk then CloseBrowser(st) else st;
    Quit(closed.(windowClosed := closed.windowClosed || closed.window))
  }

  /** The corrected release keeps the session invariant, whether or not the close resolves. */
  lemma ReleaseAllKeepsValid(st: State, closeOk: bool)
    requires Valid(st)
    ensures Valid(ReleaseAll(st, closeOk))
  {
  }

  /** After a release whose browser close succeeds, no browser and no page is left open. */
  lemma ReleaseAllLeavesNothingLive(st: State)
    requires Valid(st)
    ensures var r := ReleaseAll(st, true);
      && Valid(r) && !PageLive(r)
      && (forall b :: b in r.launched ==> b in r.closedBrowsers)
      && (forall p :: p in r.pagesOpened ==> !Live(r, p))
  {
  }

  /** Releasing a second time closes nothing new and only requests quit again. */
  lemma ReleaseAllIdempotent(st: State, closeOk: bool)
    ensures var once := ReleaseAll(st, true);
      ReleaseAll(once, closeOk) == once.(calls := once.calls + [AppQuit])
  {
  }

  /** Startup, any events, then a release: nothing is left open and quit is requested. */
  lemma SupervisionEndsReleased(window: bool, s: StartSteps, events: seq<Event>)
    ensures var r := ReleaseAll(Run(Startup(window, s), events), true);
      && r.quitRequested && !PageLive(r)
      && (forall b :: b in r.launched ==> b in r.closedBrowsers)
  {
    RunKeepsValid(Startup(window, s), events);
    ReleaseAllLeavesNothingLive(Run(Startup(window, s), events));
  }
}
