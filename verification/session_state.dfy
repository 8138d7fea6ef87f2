/**
 * The supervised session as a value: the module-level `browser` and `page` handles,
 * whether a window exists, and the part of the outside world the policy touches
 * (which handles have been created and which have been closed, and whether quit was
 * requested), plus a record of the recovery tiers invoked.
 */
module SessionState {

  datatype Option<T> = None | Some(value: T)

  /** A page handle: its own id and the id of the browser that opened it. */
  datatype Page = Page(id: nat, owner: nat)

  /** The recovery tiers, in escalation order: recreate the tab, recreate the browser, quit. */
  datatype Call = TabRestart | BrowserRestart | AppQuit

  function Rank(c: Call): (r: nat)
    ensures r <= 2
  {
    match c
    case TabRestart => 0
    case BrowserRestart => 1
    case AppQuit => 2
  }

  datatype State = State(
    browser: Option<nat>,     // the current browser handle, if any
    page: Option<Page>,       // the current page handle, if any
    window: bool,             // whether the host window exists
    launched: set<nat>,       // every browser ever launched
    pagesOpened: set<Page>,        // every page ever opened
    closedBrowsers: set<nat>, // browsers that are closed
    closedPages: set<nat>,    // pages that are closed
    lostBrowsers: set<nat>,   // browsers gone in a way their pages do not report
    windowClosed: bool,       // whether the window was asked to close
    nextId: nat,              // source of fresh handle ids
    quitRequested: bool,      // whether the application was asked to quit
    calls: seq<Call>)         // the recovery tiers entered so far, in order

  /** A page is open while neither it nor the browser it came from has been closed. */
  predicate Live(st: State, p: Page) {
    p.id !in st.closedPages && p.owner !in st.closedBrowsers
  }

  /** The negation of the monitor's `!page || page.isClosed()`. */
  predicate PageLive(st: State) {
    st.page.Some? && Live(st, st.page.value)
  }

  /** No browser is open, so launching one keeps at most one alive. */
  predicate NoLiveBrowser(st: State) {
    st.browser.None? || st.browser.value in st.closedBrowsers
  }

  /**
   * The session invariant: handles are well formed, at most one browser is open and it
   * is the current one, at most one page is open and it is the current one.
   */
  predicate Valid(st: State) {
    (st.browser.Some? ==> st.browser.value in st.launched) &&
    (st.page.Some? ==> st.page.value in st.pagesOpened) &&
    (forall b :: b in st.launched ==> b < st.nextId) &&
    (forall p :: p in st.pagesOpened ==> p.id < st.nextId && p.owner in st.launched) &&
    (forall b :: b in st.closedBrowsers ==> b < st.nextId) &&
    (forall i :: i in st.closedPages ==> i < st.nextId) &&
    (forall b :: b in st.lostBrowsers ==> b < st.nextId) &&
    (forall b :: b in st.launched && b !in st.closedBrowsers ==> st.browser == Some(b)) &&
    (forall p :: p in st.pagesOpened && Live(st, p) ==> st.page == Some(p))
  }

  /** The state before the first browser is started: no handles at all. */
  function Initial(window: bool): (st: State)
    ensures Valid(st) && !PageLive(st) && NoLiveBrowser(st)
  {
    State(None, None, window, {}, {}, {}, {}, {}, false, 0, false, [])
  }

  /** An open page always belongs to the current browser. */
  lemma LivePageBelongsToBrowser(st: State)
    requires Valid(st) && PageLive(st)
    ensures st.browser == Some(st.page.value.owner) && st.page.value.owner !in st.closedBrowsers
  {
  }

  /**
   * A run of recovery calls that escalates: it never starts at quit, and each call is
   * the tier right above the previous one.
   */
  predicate Escalation(t: seq<Call>) {
    (|t| > 0 ==> t[0] != AppQuit) &&
    (forall i :: 0 <= i < |t| - 1 ==> Rank(t[i + 1]) == Rank(t[i]) + 1)
  }

  lemma {:induction false} EscalationRank(t: seq<Call>, k: nat)
    requires Escalation(t) && k < |t|
    ensures Rank(t[k]) == Rank(t[0]) + k
  {
    if k > 0 {
      EscalationRank(t, k - 1);
    }
  }

  /** An escalation is short and never repeats a tier, and a quit in it follows a browser restart. */
  lemma EscalationBounded(t: seq<Call>)
    requires Escalation(t)
    ensures |t| <= 3
    ensures forall i, j :: 0 <= i < j < |t| ==> Rank(t[i]) < Rank(t[j])
    ensures forall i :: 0 <= i < |t| && t[i] == AppQuit ==> 0 < i && t[i - 1] == BrowserRestart
  {
    if |t| > 0 {
      EscalationRank(t, |t| - 1);
      assert Rank(t[0]) < 2;
    }
    forall i, j | 0 <= i < j < |t|
      ensures Rank(t[i]) < Rank(t[j])
    {
      EscalationRank(t, i);
      EscalationRank(t, j);
    }
    forall i | 0 <= i < |t| && t[i] == AppQuit
      ensures 0 < i && t[i - 1] == BrowserRestart
    {
      assert i != 0;
      assert Rank(t[i]) == Rank(t[i - 1]) + 1;
    }
  }
}
