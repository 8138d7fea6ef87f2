/**
 * The lifecycle around the tick: the initial startBrowser from createWindow, then the
 * interval timer's ticks, each one taken as a single step that runs to completion,
 * interleaved with closures the outside world causes.
 */
module Monitoring {
  import opened Policy
  import opened SessionState
  import opened Recovery

  /** createWindow's startBrowser, from a session that has no handles yet. */
  function Startup(window: bool, s: StartSteps): (st: State)
    ensures Valid(st)
    ensures st.quitRequested == !StartSucceeds(s)
    ensures st.calls == (if StartSucceeds(s) then [] else [AppQuit])
    ensures StartSucceeds(s) ==> PageLive(st)
  {
    StartBrowserKeepsValid(Initial(window), s);
    StartBrowserEffect(Initial(window), s);
    StartBrowserSuccess(Initial(window), s);
    StartBrowser(Initial(window), s)
  }

  /**
   * Something outside app.js closes the current page (the user closes the tab of the
   * visible browser) and/or the current browser (it crashes or the user closes it).
   * When `pagesNotice` holds, the browser's pages then report closed; otherwise they
   * keep reporting open while the browser can no longer serve them.
   */
  function External(st: State, closePage: bool, closeBrowser: bool, pagesNotice: bool): State {
    var afterPage := if closePage && st.page.Some? then ClosePage(st) else st;
    if closeBrowser && afterPage.browser.Some? then
      if pagesNotice then CloseBrowser(afterPage)
      else afterPage.(lostBrowsers := afterPage.lostBrowsers + {afterPage.browser.value})
    else afterPage
  }

  /** What can happen between two moments: a timer tick, or an outside closure. */
  datatype Event = TimerTick(env: TickEnv) | ExternalClose(page: bool, browser: bool, pagesNotice: bool)

  function Step(st: State, e: Event): State {
    match e
    case TimerTick(env) => Tick(st, env)
    case ExternalClose(page, browser, pagesNotice) => External(st, page, browser, pagesNotice)
  }

  /** The recovery calls one event makes: a tick's escalation, or none for an outside closure. */
  function StepCalls(st: State, e: Event): (t: seq<Call>)
    ensures Escalation(t)
    ensures e.ExternalClose? ==> t == []
  {
    match e
    case TimerTick(env) => TickCalls(st, env)
    case ExternalClose(_, _, _) => []
  }

  lemma StepFacts(st: State, e: Event)
    requires Valid(st)
    ensures Valid(Step(st, e))
    ensures Step(st, e).calls == st.calls + StepCalls(st, e)
  {
    match e
    case TimerTick(env) =>
      TickKeepsValid(st, env);
      TickCallsMatch(st, env);
    case ExternalClose(_, _, _) =>
  }

  /** No event withdraws a quit request. */
  lemma StepKeepsQuit(st: State, e: Event)
    requires st.quitRequested
    ensures Step(st, e).quitRequested
  {
    match e
    case TimerTick(env) =>
      RestartTabKeepsQuit(st, env.tab, env.browser);
      RestartBrowserEffect(st, env.browser);
    case ExternalClose(_, _, _) =>
  }

  /** A sequence of events, each one run to completion before the next. */
  function Run(st: State, events: seq<Event>): State
    decreases |events|
  {
    if events == [] then st else Run(Step(st, events[0]), events[1..])
  }

  /** The user closing the tab: the next tick reopens a page on the same, still working browser. */
  lemma ClosedTabIsReopened(st: State, env: TickEnv)
    requires Valid(st) && PageLive(st) && CanOpenPage(st)
    requires env.tab.newPage && env.tab.setViewport && env.tab.goto
    ensures var closed := External(st, true, false, true);
      var after := Tick(closed, env);
      && !PageLive(closed)
      && after.calls == st.calls + [TabRestart]
      && after.browser == st.browser && PageLive(after)
  {
    var closed := External(st, true, false, true);
    assert TabSucceeds(closed, env.tab);
    RestartTabEffect(closed, env.tab, env.browser);
  }

  /**
   * The browser going away under an open page. When its pages notice, the next tick
   * sees a closed page, tries the tab, cannot open a page on the closed browser and
   * escalates. When they do not, the page still reports open, the metrics query fails
   * and the tick goes straight to the browser tier. Either way there is exactly one
   * browser restart, which leaves a new browser with an open page when it succeeds.
   */
  lemma CrashedBrowserIsRestarted(st: State, env: TickEnv, pagesNotice: bool)
    requires Valid(st) && PageLive(st)
    requires !pagesNotice ==> env.metrics.QueryFailed?
    ensures var crashed := External(st, false, true, pagesNotice);
      var after := Tick(crashed, env);
      && PageLive(crashed) == !pagesNotice
      && after.calls == st.calls + (if pagesNotice then [TabRestart] else []) + [BrowserRestart]
                          + (if BrowserRestartSucceeds(st, env.browser) then [] else [AppQuit])
      && (BrowserRestartSucceeds(st, env.browser) ==> PageLive(after) && after.browser != st.browser)
  {
    var crashed := External(st, false, true, pagesNotice);
    LivePageBelongsToBrowser(st);
    assert Valid(crashed);
    assert BrowserRestartSucceeds(crashed, env.browser) == BrowserRestartSucceeds(st, env.browser);
    if pagesNotice {
      assert !TabSucceeds(crashed, env.tab);
      RestartTabEffect(crashed, env.tab, env.browser);
      var entered := crashed.(calls := crashed.calls + [TabRestart]);
      assert RestartTab(crashed, env.tab, env.browser) == RestartBrowser(entered, env.browser);
      if BrowserRestartSucceeds(st, env.browser) {
        RestartBrowserSuccess(entered, env.browser);
      }
    } else {
      TickQueryFailed(crashed, env);
      RestartBrowserEffect(crashed, env.browser);
      if BrowserRestartSucceeds(st, env.browser) {
        RestartBrowserSuccess(crashed, env.browser);
      }
    }
  }

  lemma {:induction false} RunKeepsValid(st: State, events: seq<Event>)
    requires Valid(st)
    ensures Valid(Run(st, events))
    decreases |events|
  {
    if events != [] {
      StepFacts(st, events[0]);
      RunKeepsValid(Step(st, events[0]), events[1..]);
    }
  }

  /** Events only append to the record of calls, at most three per event. */
  lemma {:induction false} RunExtendsCalls(st: State, events: seq<Event>)
    requires Valid(st)
    ensures |st.calls| <= |Run(st, events).calls| <= |st.calls| + 3 * |events|
    ensures Run(st, events).calls[..|st.calls|] == st.calls
    decreases |events|
  {
    if events != [] {
      var next := Step(st, events[0]);
      StepFacts(st, events[0]);
      EscalationBounded(StepCalls(st, events[0]));
      RunExtendsCalls(next, events[1..]);
      assert Run(st, events) == Run(next, events[1..]);
    }
  }

  /** Every quit recorded in `calls` from position `from` on comes right after a browser restart. */
  predicate QuitFollowsBrowserRestart(calls: seq<Call>, from: nat) {
    forall i :: from <= i < |calls| && calls[i] == AppQuit ==> from < i && calls[i - 1] == BrowserRestart
  }

  /** Putting one escalation in front of a suffix that already has the property keeps it. */
  lemma EscalationThenSuffix(calls: seq<Call>, from: nat, t: seq<Call>)
    requires from + |t| <= |calls| && calls[from..from + |t|] == t
    requires Escalation(t) && QuitFollowsBrowserRestart(calls, from + |t|)
    ensures QuitFollowsBrowserRestart(calls, from)
  {
    EscalationBounded(t);
    forall i | from <= i < |calls| && calls[i] == AppQuit
      ensures from < i && calls[i - 1] == BrowserRestart
    {
      if i < from + |t| {
        assert t[i - from] == calls[i];
        assert t[i - from - 1] == calls[i - 1];
      }
    }
  }

  /** No quit requested during a run comes without the browser restart that failed just before it. */
  lemma {:induction false} RunQuitFollowsBrowserRestart(st: State, events: seq<Event>)
    requires Valid(st)
    ensures |st.calls| <= |Run(st, events).calls|
    ensures QuitFollowsBrowserRestart(Run(st, events).calls, |st.calls|)
    decreases |events|
  {
    RunExtendsCalls(st, events);
    if events != [] {
      var next := Step(st, events[0]);
      var t := StepCalls(st, events[0]);
      StepFacts(st, events[0]);
      RunQuitFollowsBrowserRestart(next, events[1..]);
      RunExtendsCalls(next, events[1..]);
      var after := Run(next, events[1..]).calls;
      assert Run(st, events).calls == after;
      assert after[..|next.calls|] == st.calls + t;
      assert after[|st.calls|..|st.calls| + |t|] == t;
      EscalationThenSuffix(after, |st.calls|, t);
    }
  }

  /** Once quit has been requested it stays requested; no event withdraws it. */
  lemma {:induction false} RunKeepsQuit(st: State, events: seq<Event>)
    requires st.quitRequested
    ensures Run(st, events).quitRequested
    decreases |events|
  {
    if events != [] {
      var next := Step(st, events[0]);
      StepKeepsQuit(st, events[0]);
      RunKeepsQuit(next, events[1..]);
    }
  }

  /**
   * The timer is set up even when startup failed: the first tick after a failed
   * launch or newPage still sees no open page and restarts the tab.
   */
  lemma MonitorRunsAfterFailedStartup(window: bool, s: StartSteps, env: TickEnv)
    requires !s.launch || !s.newPage
    ensures Startup(window, s).quitRequested
    ensures var after := Tick(Startup(window, s), env).calls;
      |after| >= 2 && after[0] == AppQuit && after[1] == TabRestart
  {
  }
}
