/** The monitor's configuration and the decision one tick takes (monitorTab in app.js). */
module Policy {

  /** Heap budget of the supervised page, in bytes (just under 1 GiB). */
  const MemoryLimitBytes: nat := 1_073_741_820

  /** Time between two monitor ticks, in milliseconds. */
  const MonitorIntervalMs: nat := 5000

  /** What asking the page for its metrics yields: the used JS heap, or a failure. */
  datatype Metrics = Reading(usedHeap: nat) | QueryFailed

  /** What one tick does: nothing, recreate the tab, or recreate the browser. */
  datatype Action = Idle | RecoverTab | RecoverBrowser

  /**
   * The classification at the top of a tick. A page that is missing or closed is
   * recreated without looking at the metrics; a failed metrics query is treated as a
   * browser-level fault; otherwise only a heap strictly above the limit triggers recovery.
   */
  function Decide(pagePresent: bool, pageClosed: bool, metrics: Metrics, limit: int): (a: Action)
    ensures a == RecoverTab <==>
              !pagePresent || pageClosed || (metrics.Reading? && metrics.usedHeap > limit)
    ensures a == RecoverBrowser <==> pagePresent && !pageClosed && metrics.QueryFailed?
    ensures a == Idle <==> pagePresent && !pageClosed && metrics.Reading? && metrics.usedHeap <= limit
  {
    if !pagePresent || pageClosed then RecoverTab
    else match metrics
      case QueryFailed => RecoverBrowser
      case Reading(used) => if used > limit then RecoverTab else Idle
  }

  /** When the page is missing or closed, the metrics cannot influence the decision. */
  lemma DecideIgnoresMetricsWhenPageGone(pagePresent: bool, pageClosed: bool, m1: Metrics, m2: Metrics, limit: int)
    requires !pagePresent || pageClosed
    ensures Decide(pagePresent, pageClosed, m1, limit) == Decide(pagePresent, pageClosed, m2, limit) == RecoverTab
  {
  }

  /** The limit itself is still within budget; one byte more is not. */
  lemma ThresholdScenario()
    ensures Decide(true, false, Reading(1_073_741_821), MemoryLimitBytes) == RecoverTab
    ensures Decide(true, false, Reading(1_073_741_820), MemoryLimitBytes) == Idle
  {
  }
}
