/**
 * The supervisor as app.js writes it: module-level `browser`, `page` and `mainWindow`
 * variables reassigned step by step by startBrowser, restartTab, restartBrowser,
 * monitorTab and cleanUpAndExit. Each awaited call that rejects ends its function at
 * that point, where the function's catch takes over. Each method is proved to produce
 * the state its specification function in Recovery or Shutdown describes.
 */
module App {
  import opened Policy
  import opened SessionState
  import Recovery
  import Shutdown

  class Session {
    // the module-level variables of app.js
    var browser: Option<nat>
    var page: Option<Page>
    var mainWindow: bool

    // what the outside world knows about the handles
    var closedBrowsers: set<nat>
    var closedPages: set<nat>
    var lostBrowsers: set<nat>
    var windowClosed: bool
    var nextId: nat
    var quitRequested: bool

    // bookkeeping for the proofs
    ghost var launched: set<nat>
    ghost var pagesOpened: set<Page>
    ghost var calls: seq<Call>

    ghost function Abs(): State
      reads this
    {
      State(browser, page, mainWindow, launched, pagesOpened, closedBrowsers, closedPages, lostBrowsers,
            windowClosed, nextId, quitRequested, calls)
    }

    ghost predicate Valid()
      reads this
    {
      SessionState.Valid(Abs())
    }

    /** The session once the window exists and before the browser is started. */
    constructor (windowPresent: bool)
      ensures Abs() == Initial(windowPresent) && Valid()
    {
      browser, page, mainWindow := None, None, windowPresent;
      closedBrowsers, closedPages, lostBrowsers, windowClosed := {}, {}, {}, false;
      nextId, quitRequested := 0, false;
      launched, pagesOpened, calls := {}, {}, [];
    }

    /** `page.isClosed()`. In a valid session only the current page can report open. */
    function IsClosed(p: Page): (closed: bool)
      reads this
      ensures closed == !Live(Abs(), p)
      ensures Valid() && p in pagesOpened && Some(p) != page ==> closed
    {
      p.id in closedPages || p.owner in closedBrowsers
    }

    /** `app.quit()`. */
    method Quit()
      modifies this
      ensures Abs() == Recovery.Quit(old(Abs()))
    {
      quitRequested := true;
      calls := calls + [AppQuit];
    }

    /** A resolved `browser.newPage()` on the current browser, assigned to `page`. */
    method OpenPage()
      requires browser.Some?
      modifies this
      ensures Abs() == Recovery.OpenPage(old(Abs()))
    {
      var p := Page(nextId, browser.value);
      nextId := nextId + 1;
      pagesOpened := pagesOpened + {p};
      page := Some(p);
    }

    method StartBrowser(s: Recovery.StartSteps)
      requires Valid() && NoLiveBrowser(Abs())
      modifies this
      ensures Valid()
      ensures Abs() == Recovery.StartBrowser(old(Abs()), s)
    {
      Recovery.StartBrowserKeepsValid(Abs(), s);
      if !s.launch {
        Quit();
        return;
      }
      var b := nextId;
      nextId := nextId + 1;
      launched := launched + {b};
      browser := Some(b);
      if !s.newPage {
        Quit();
        return;
      }
      OpenPage();
      if !s.setViewport || !s.goto {
        Quit();
      }
    }

    method RestartBrowser(r: Recovery.BrowserSteps)
      requires Valid()
      modifies this
      ensures Valid()
      ensures Abs() == Recovery.RestartBrowser(old(Abs()), r)
    {
      Recovery.RestartBrowserKeepsValid(Abs(), r);
      calls := calls + [BrowserRestart];
      if browser.Some? {
        if !r.close {
          Quit();
          return;
        }
        closedBrowsers := closedBrowsers + {browser.value};
      }
      assert Valid() && NoLiveBrowser(Abs());
      StartBrowser(r.start);
    }

    method RestartTab(t: Recovery.TabSteps, r: Recovery.BrowserSteps)
      requires Valid()
      modifies this
      ensures Valid()
      ensures Abs() == Recovery.RestartTab(old(Abs()), t, r)
    {
      calls := calls + [TabRestart];
      assert Valid();
      if page.Some? && !IsClosed(page.value) {
        if !t.close {
          RestartBrowser(r);
          return;
        }
        Recovery.ClosePageKeepsValid(Abs());
        closedPages := closedPages + {page.value.id};
      }
      // `browser.newPage()` on an undefined browser throws, and a closed or lost browser rejects it
      if browser.None? || browser.value in closedBrowsers || browser.value in lostBrowsers || !t.newPage {
        RestartBrowser(r);
        return;
      }
      Recovery.OpenPageKeepsValid(Abs());
      OpenPage();
      if !t.setViewport || !t.goto {
        RestartBrowser(r);
      }
    }

    /**
     * One tick. The action taken is the pure classification of the state before the
     * tick, and the session invariant holds after it.
     */
    method MonitorTab(env: Recovery.TickEnv) returns (action: Action)
      requires Valid()
      modifies this
      ensures Valid()
      ensures action == Decide(old(page).Some?, old(page).Some? && !Live(old(Abs()), old(page).value),
                               env.metrics, MemoryLimitBytes)
      ensures Abs() == Recovery.Tick(old(Abs()), env)
    {
      ghost var before := Abs();
      if page.None? || IsClosed(page.value) {
        action := RecoverTab;
        RestartTab(env.tab, env.browser);
      } else {
        match env.metrics
        case QueryFailed =>
          action := RecoverBrowser;
          RestartBrowser(env.browser);
        case Reading(used) =>
          if used > MemoryLimitBytes {
            action := RecoverTab;
            RestartTab(env.tab, env.browser);
          } else {
            action := Idle;
          }
      }
      Recovery.TickKeepsValid(before, env);
    }

    /** The signal handler, as written. */
    method CleanUpAndExit(closeOk: bool)
      requires Valid()
      modifies this
      ensures Valid()
      ensures Abs() == Shutdown.CleanUpAndExit(old(Abs()), closeOk)
    {
      Shutdown.CleanUpAndExitKeepsValid(Abs(), closeOk);
      if browser.Some? {
        if !closeOk {
          return;
        }
        closedBrowsers := closedBrowsers + {browser.value};
      }
      if mainWindow {
        windowClosed := true;
      }
      Quit();
    }
  }
}
