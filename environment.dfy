/**
 * Build-time and environment facts the logger reads but never changes: the
 * development-build flag, the profiler-timer feature flag, which user-timing APIs the
 * host provides, the issue-reporting feature flag and the scheduler's lane helpers.
 */
module Environment {
  import opened Lanes

  datatype Env = Env(
    dev: bool,                               // __DEV__
    enableProfilerTimer: bool,
    hasConsoleTimeStamp: bool,               // typeof console.timeStamp === 'function'
    hasPerformanceMeasure: bool,             // typeof performance.measure === 'function'
    enablePerformanceIssueReporting: bool,
    lanes: LaneHelpers)
  {
    /**
     * `supportsUserTiming` (ReactFiberPerformanceTrack.js:37-45): the profiler timer is
     * enabled, `console.timeStamp` exists and, in a development build,
     * `performance.measure` exists too.
     */
    predicate SupportsUserTiming()
    {
      enableProfilerTimer && hasConsoleTimeStamp && (!dev || hasPerformanceMeasure)
    }
  }

  /**
   * What user timing needs: without the profiler timer or `console.timeStamp` it is
   * off; a development build also needs `performance.measure`, which a production
   * build does without, so switching to a production build never turns it off.
   */
  lemma UserTimingRequirements(env: Env)
    ensures !env.enableProfilerTimer ==> !env.SupportsUserTiming()
    ensures !env.hasConsoleTimeStamp ==> !env.SupportsUserTiming()
    ensures env.dev && !env.hasPerformanceMeasure ==> !env.SupportsUserTiming()
    ensures env.SupportsUserTiming() ==> env.(dev := false).SupportsUserTiming()
    ensures env.enableProfilerTimer && env.hasConsoleTimeStamp ==> env.(dev := false).SupportsUserTiming()
  {
  }
}
