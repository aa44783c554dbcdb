/**
 * The render, commit and post-commit phase loggers as functions from their inputs
 * and the current track to the spans they emit, once the tracking service is bound
 * and user timing is supported. Every one of them logs nothing for an empty or
 * inverted range.
 */
module Phases {
  import opened Wrappers
  import opened SpanModel
  import opened Lanes
  import opened Environment
  import opened Classify
  import opened Components

  /** One scheduler span over `[startTime, endTime]`, or none when the range is empty or inverted. */
  function PhaseSpans(name: string, startTime: real, endTime: real, details: Details, error: bool)
    : (r: seq<Span>)
    ensures |r| <= 1
    ensures r == [] <==> endTime <= startTime
    ensures r != [] ==> r[0] == Span(name, ReactScheduler, startTime, endTime, Some(details), error)
  {
    if endTime <= startTime then [] else [Span(name, ReactScheduler, startTime, endTime, Some(details), error)]
  }

  /** `logRenderPhase` (ReactFiberPerformanceTrack.js:1061-1084). */
  function RenderPhaseSpans(env: Env, track: string, startTime: real, endTime: real, lanes: Lanes)
    : seq<Span>
  {
    PhaseSpans(RenderLabel(env.lanes, lanes), startTime, endTime,
               TrackColor(track, PhaseColor(env.lanes, lanes)), false)
  }

  /** `logInterruptedRenderPhase` (ReactFiberPerformanceTrack.js:1098-1121). */
  function InterruptedRenderPhaseSpans(env: Env, track: string, startTime: real, endTime: real, lanes: Lanes)
    : seq<Span>
  {
    PhaseSpans(InterruptedRenderLabel(env.lanes, lanes), startTime, endTime,
               TrackColor(track, PhaseColor(env.lanes, lanes)), false)
  }

  /** `logSuspendedRenderPhase`, whose span is named 'Prewarm' (ReactFiberPerformanceTrack.js:1135-1153). */
  function SuspendedRenderPhaseSpans(env: Env, track: string, startTime: real, endTime: real, lanes: Lanes)
    : seq<Span>
  {
    PhaseSpans("Prewarm", startTime, endTime, TrackColor(track, PhaseColor(env.lanes, lanes)), false)
  }

  /** `logSuspendedWithDelayPhase` (ReactFiberPerformanceTrack.js:1168-1186). */
  function SuspendedWithDelayPhaseSpans(env: Env, track: string, startTime: real, endTime: real, lanes: Lanes)
    : seq<Span>
  {
    PhaseSpans("Suspended", startTime, endTime, TrackColor(track, PhaseColor(env.lanes, lanes)), false)
  }

  /** Tooltip of the recovered render in a development build (ReactFiberPerformanceTrack.js:1230-1232). */
  function RecoveredTooltip(hydrationFailed: bool): string
  {
    if hydrationFailed then "Hydration Failed" else "Recovered after Error"
  }

  /**
   * `logRecoveredRenderPhase` (ReactFiberPerformanceTrack.js:1202-1251): the development
   * build lists the recoverable errors; the production build colours the span as an error.
   */
  function RecoveredRenderPhaseSpans(env: Env, track: string, startTime: real, endTime: real,
                                     recoverableErrors: seq<string>, hydrationFailed: bool): seq<Span>
  {
    if env.dev then
      PhaseSpans("Recovered", startTime, endTime,
                 Details(Some(track), Some(PrimaryDark), Some(RecoveredTooltip(hydrationFailed)),
                         Some(ErrorProperties("Recoverable Error", recoverableErrors)), None, None, None, None),
                 false)
    else
      PhaseSpans("Recovered", startTime, endTime, TrackColor(track, Error), false)
  }

  /** `logErroredRenderPhase` (ReactFiberPerformanceTrack.js:1265-1281). */
  function ErroredRenderPhaseSpans(track: string, startTime: real, endTime: real): seq<Span>
  {
    PhaseSpans("Errored", startTime, endTime, TrackColor(track, Error), true)
  }

  /** `logInconsistentRender` (ReactFiberPerformanceTrack.js:1294-1310). */
  function InconsistentRenderSpans(track: string, startTime: real, endTime: real): seq<Span>
  {
    PhaseSpans("Teared Render", startTime, endTime, TrackColor(track, Error), true)
  }

  /**
   * `logSuspendedCommitPhase` and `logSuspendedViewTransitionPhase`, named by the reason
   * (ReactFiberPerformanceTrack.js:1325-1342, 1357-1374).
   */
  function SuspendedCommitPhaseSpans(track: string, startTime: real, endTime: real, reason: string)
    : seq<Span>
  {
    PhaseSpans(reason, startTime, endTime, TrackColor(track, SecondaryLight), false)
  }

  /** Tooltip of an errored commit (ReactFiberPerformanceTrack.js:1417). */
  function CommitErroredTooltip(passive: bool): string
  {
    if passive then "Remaining Effects Errored" else "Commit Errored"
  }

  /** `logCommitErrored` (ReactFiberPerformanceTrack.js:1389-1438). */
  function CommitErroredSpans(env: Env, track: string, startTime: real, endTime: real,
                              errors: seq<string>, passive: bool): (r: seq<Span>)
    ensures |r| <= 1 && (r == [] <==> endTime <= startTime)
    ensures r != [] ==> && r[0].name == "Errored" && r[0].error && SpanColor(r[0]) == Some(Error)
                        && SpanTrack(r[0]) == Some(track)
    ensures r != [] && env.dev ==>
      && r[0].details.value.tooltipText == Some(CommitErroredTooltip(passive))
      && SpanProperties(r[0]) == Some(ErrorProperties("Error", errors))
    ensures r != [] && !env.dev ==> r[0].details == Some(TrackColor(track, Error))
  {
    if env.dev then
      PhaseSpans("Errored", startTime, endTime,
                 Details(Some(track), Some(Error), Some(CommitErroredTooltip(passive)),
                         Some(ErrorProperties("Error", errors)), None, None, None, None),
                 true)
    else
      PhaseSpans("Errored", startTime, endTime, TrackColor(track, Error), true)
  }

  /** `logCommitPhase` (ReactFiberPerformanceTrack.js:1452-1473): errors go to the errored commit. */
  function CommitPhaseSpans(env: Env, track: string, startTime: real, endTime: real,
                            errors: Option<seq<string>>, abortedViewTransition: bool): seq<Span>
  {
    if errors.Some? then CommitErroredSpans(env, track, startTime, endTime, errors.value, false)
    else PhaseSpans(if abortedViewTransition then "Commit Interrupted View Transition" else "Commit",
                    startTime, endTime,
                    TrackColor(track, if abortedViewTransition then Error else SecondaryDark), false)
  }

  /** `logPaintYieldPhase` (ReactFiberPerformanceTrack.js:1486-1501). */
  function PaintYieldPhaseSpans(track: string, startTime: real, endTime: real, delayedUntilPaint: bool)
    : seq<Span>
  {
    PhaseSpans(if delayedUntilPaint then "Waiting for Paint" else "Waiting", startTime, endTime,
               TrackColor(track, SecondaryLight), false)
  }

  /** `logStartViewTransitionYieldPhase` (ReactFiberPerformanceTrack.js:1515-1532). */
  function StartViewTransitionYieldPhaseSpans(track: string, startTime: real, endTime: real,
                                              abortedViewTransition: bool): seq<Span>
  {
    PhaseSpans(if abortedViewTransition then "Interrupted View Transition" else "Starting Animation",
               startTime, endTime,
               TrackColor(track, if abortedViewTransition then Error else SecondaryLight), false)
  }

  /** `logAnimatingPhase` (ReactFiberPerformanceTrack.js:1545-1560). */
  function AnimatingPhaseSpans(track: string, startTime: real, endTime: real): seq<Span>
  {
    PhaseSpans("Animating", startTime, endTime, TrackColor(track, SecondaryDark), false)
  }

  /** `logPassiveCommitPhase` (ReactFiberPerformanceTrack.js:1570-1594): errors go to the errored commit. */
  function PassiveCommitPhaseSpans(env: Env, track: string, startTime: real, endTime: real,
                                   errors: Option<seq<string>>): seq<Span>
  {
    if errors.Some? then CommitErroredSpans(env, track, startTime, endTime, errors.value, true)
    else PhaseSpans("Remaining Effects", startTime, endTime, TrackColor(track, SecondaryDark), false)
  }

  /**
   * What every phase logger promises: nothing for an empty or inverted range, otherwise
   * exactly one scheduler span over the range on the current track.
   */
  predicate PhaseOutcome(r: seq<Span>, track: string, startTime: real, endTime: real)
  {
    && |r| <= 1
    && (r == [] <==> endTime <= startTime)
    && (r != [] ==> && r[0].category == ReactScheduler
                    && r[0].startTime == startTime && r[0].endTime == endTime
                    && SpanTrack(r[0]) == Some(track))
  }

  /** Every phase logger logs one span over its range on the current track, or none for an empty range. */
  lemma PhaseLoggersOutcome(env: Env, track: string, startTime: real, endTime: real, lanes: Lanes,
                            errors: Option<seq<string>>, recoverable: seq<string>, flag: bool, reason: string)
    ensures PhaseOutcome(RenderPhaseSpans(env, track, startTime, endTime, lanes), track, startTime, endTime)
    ensures PhaseOutcome(InterruptedRenderPhaseSpans(env, track, startTime, endTime, lanes), track, startTime, endTime)
    ensures PhaseOutcome(SuspendedRenderPhaseSpans(env, track, startTime, endTime, lanes), track, startTime, endTime)
    ensures PhaseOutcome(SuspendedWithDelayPhaseSpans(env, track, startTime, endTime, lanes), track, startTime, endTime)
    ensures PhaseOutcome(RecoveredRenderPhaseSpans(env, track, startTime, endTime, recoverable, flag),
                         track, startTime, endTime)
    ensures PhaseOutcome(ErroredRenderPhaseSpans(track, startTime, endTime), track, startTime, endTime)
    ensures PhaseOutcome(InconsistentRenderSpans(track, startTime, endTime), track, startTime, endTime)
    ensures PhaseOutcome(SuspendedCommitPhaseSpans(track, startTime, endTime, reason), track, startTime, endTime)
    ensures PhaseOutcome(CommitPhaseSpans(env, track, startTime, endTime, errors, flag), track, startTime, endTime)
    ensures PhaseOutcome(PaintYieldPhaseSpans(track, startTime, endTime, flag), track, startTime, endTime)
    ensures PhaseOutcome(StartViewTransitionYieldPhaseSpans(track, startTime, endTime, flag),
                         track, startTime, endTime)
    ensures PhaseOutcome(AnimatingPhaseSpans(track, startTime, endTime), track, startTime, endTime)
    ensures PhaseOutcome(PassiveCommitPhaseSpans(env, track, startTime, endTime, errors), track, startTime, endTime)
  {
  }

  /**
   * Render-phase naming: 'Prepared' / 'Prewarm' for offscreen-only lanes, the hydration
   * names for hydration-only lanes, and the tertiary colour exactly for background lanes.
   */
  lemma RenderPhaseNaming(env: Env, track: string, startTime: real, endTime: real, lanes: Lanes)
    requires startTime < endTime
    ensures var r := RenderPhaseSpans(env, track, startTime, endTime, lanes);
            && (r[0].name == "Prepared" <==> env.lanes.includesOnlyOffscreenLanes(lanes))
            && (r[0].name == "Hydrated" <==>
                  !env.lanes.includesOnlyOffscreenLanes(lanes) && env.lanes.includesOnlyHydrationLanes(lanes))
            && (SpanColor(r[0]) == Some(TertiaryDark) <==> env.lanes.includesOnlyHydrationOrOffscreenLanes(lanes))
            && (SpanColor(r[0]) != Some(TertiaryDark) ==> SpanColor(r[0]) == Some(PrimaryDark))
    ensures var r := InterruptedRenderPhaseSpans(env, track, startTime, endTime, lanes);
            && (r[0].name == "Prewarm" <==> env.lanes.includesOnlyOffscreenLanes(lanes))
            && (r[0].name == "Interrupted Hydration" <==>
                  !env.lanes.includesOnlyOffscreenLanes(lanes) && env.lanes.includesOnlyHydrationLanes(lanes))
            && (SpanColor(r[0]) == Some(TertiaryDark) <==> env.lanes.includesOnlyHydrationOrOffscreenLanes(lanes))
    ensures SuspendedRenderPhaseSpans(env, track, startTime, endTime, lanes)[0].name == "Prewarm"
  {
  }

  /**
   * Error routing: a commit with errors is the errored commit of the non-passive kind, a
   * passive commit with errors the passive kind; their spans differ only in the tooltip.
   */
  lemma CommitErrorRouting(env: Env, track: string, startTime: real, endTime: real,
                           errors: seq<string>, abortedViewTransition: bool)
    ensures CommitPhaseSpans(env, track, startTime, endTime, Some(errors), abortedViewTransition)
            == CommitErroredSpans(env, track, startTime, endTime, errors, false)
    ensures PassiveCommitPhaseSpans(env, track, startTime, endTime, Some(errors))
            == CommitErroredSpans(env, track, startTime, endTime, errors, true)
    ensures !env.dev ==> CommitErroredSpans(env, track, startTime, endTime, errors, false)
                         == CommitErroredSpans(env, track, startTime, endTime, errors, true)
  {
  }
}
