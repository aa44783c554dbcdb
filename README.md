# React performance-track logger

A Dafny model of React's performance-track logger,
`packages/react-reconciler/src/ReactFiberPerformanceTrack.js`. The reconciler calls
the logger with scheduler facts: timestamps, lane sets, fibers and captured errors.
The logger turns them into finished spans and hands each span to an optional
tracking service. A span has a name, a category (`ReactComponent` or
`ReactScheduler`), a start and an end time, additional data (track, colour, tooltip,
properties, self time, the deep-equality verdict, changed props, a performance issue)
and an error flag.

The modules follow the logger's concerns:

- `SpanModel`: spans, colours and their additional data.
- `Lanes`, `Environment`: the lane helpers and the build and environment flags the
  logger reads (`__DEV__`, `supportsUserTiming`, `enablePerformanceIssueReporting`).
- `Classify`: the duration buckets that pick a colour, and the labels picked from
  lane predicates and update flags.
- `Origin`: timestamp clamping and the spans of the three update-origin loggers.
- `Components`: fibers, self time, the deep-equality warning, error property lists
  and the spans of the per-component loggers.
- `Phases`: the spans of the render, commit and post-commit phase loggers.
- `ReactFiberPerformanceTrack`: the module state. It is a `PerformanceTrack` object
  whose fields are the current track, the bound tracking service and the
  deep-equality flag. The service is a `TrackingService` object whose list of
  finished spans grows with every `createFinishedSpan` call.

Every logger is a method of `PerformanceTrack`. Each is proved against a function of
`Origin`, `Components` or `Phases`: it appends exactly that function's spans to the
bound service when a service is bound and user timing is supported (`Tracing()`),
and appends nothing otherwise. No logger changes the bound service's tracking flag,
so a later setup call binds the same service again. The properties of those functions are proved as
their own postconditions and as lemmas.

Where the code and its design description disagree, the model follows the code:

- The "already warned" condition of the deep-equality warning is commented out
  (line 329). The flag is set (line 334) but never read. So a second qualifying
  render in the same subtree warns again. It is not suppressed.
- The 100-unit threshold of that warning compares the fiber's actual duration
  (line 331), not its self time.
- In a development build the render colour computed from self time is not passed to
  the component render span (lines 336-418). Only the production build colours it.
- `logSuspendedRenderPhase` names its span 'Prewarm' (line 1142).
- The component loggers never check `endTime <= startTime`.

## Model

| member | source | states |
|---|---|---|
| Environment.UserTimingRequirements | packages/react-reconciler/src/ReactFiberPerformanceTrack.js:37-45 | user timing is off without the profiler timer or `console.timeStamp`, and off in a development build without `performance.measure`; a production build needs only the first two, so a setup that supports it in development also supports it in production |
| ReactFiberPerformanceTrack.PerformanceTrack.NoUserTimingNoTracing | packages/react-reconciler/src/ReactFiberPerformanceTrack.js:37-45 | when any of those probes fails, `Tracing()` is false, so every logger leaves the recorded spans unchanged whatever service is bound |
| ReactFiberPerformanceTrack.ServiceIfTracking | packages/react-reconciler/src/ReactFiberPerformanceTrack.js:130-139 | a `null` slot throws a TypeError and only it; otherwise the lookup yields a service iff the slot holds one whose `isTracking` is true, and then it is that service |
| ReactFiberPerformanceTrack.TrackingService.CreateFinishedSpan | packages/react-reconciler/src/ReactFiberPerformanceTrack.js:110-128 | a finished span is recorded after all earlier ones; the tracking flag is untouched |
| ReactFiberPerformanceTrack.PerformanceTrack.constructor | packages/react-reconciler/src/ReactFiberPerformanceTrack.js:50 | the initial state: track 'Blocking', no bound service, deep-equality flag false |
| ReactFiberPerformanceTrack.PerformanceTrack.SetCurrentTrackFromLanes | packages/react-reconciler/src/ReactFiberPerformanceTrack.js:52-54 | the current track becomes the group name of the highest-priority lane |
| ReactFiberPerformanceTrack.PerformanceTrack.MarkAllLanesInOrder | packages/react-reconciler/src/ReactFiberPerformanceTrack.js:56-58 | setup binds the override service only if it is present and tracking, unbinds for an absent or non-tracking one, and for a `null` slot throws and keeps the old binding |
| ReactFiberPerformanceTrack.PerformanceTrack.PushDeepEquality | packages/react-reconciler/src/ReactFiberPerformanceTrack.js:209-216 | push returns the flag in a development build and false otherwise |
| ReactFiberPerformanceTrack.PerformanceTrack.PopDeepEquality | packages/react-reconciler/src/ReactFiberPerformanceTrack.js:218-222 | pop restores the saved flag in a development build and is a no-op otherwise |
| ReactFiberPerformanceTrack.PerformanceTrack.LogComponentRenderInSubtree | packages/react-reconciler/src/ReactFiberPerformanceTrack.js:209-222 | a render bracketed by push and pop logs its span and leaves the flag as it was before, in both builds |
| ReactFiberPerformanceTrack.PerformanceTrack.LogComponentTrigger | packages/react-reconciler/src/ReactFiberPerformanceTrack.js:143-173 | one component span named by the trigger while tracing, nothing otherwise |
| ReactFiberPerformanceTrack.PerformanceTrack.LogComponentMount | packages/react-reconciler/src/ReactFiberPerformanceTrack.js:175-181 | the trigger span named 'Mount' |
| ReactFiberPerformanceTrack.PerformanceTrack.LogComponentUnmount | packages/react-reconciler/src/ReactFiberPerformanceTrack.js:183-189 | the trigger span named 'Unmount' |
| ReactFiberPerformanceTrack.PerformanceTrack.LogComponentReappeared | packages/react-reconciler/src/ReactFiberPerformanceTrack.js:191-197 | the trigger span named 'Reconnect' |
| ReactFiberPerformanceTrack.PerformanceTrack.LogComponentDisappeared | packages/react-reconciler/src/ReactFiberPerformanceTrack.js:199-205 | the trigger span named 'Disconnect' |
| Components.ComputeSelfTime | packages/react-reconciler/src/ReactFiberPerformanceTrack.js:271-277 | the loop yields the actual duration minus the children's durations when there is no alternate or the child list changed, else the actual duration |
| Components.SumNonNegative | packages/react-reconciler/src/ReactFiberPerformanceTrack.js:274-276 | the subtracted children's total is non-negative when every child duration is |
| Components.SelfTimeBounds | packages/react-reconciler/src/ReactFiberPerformanceTrack.js:271-277 | self time never exceeds the actual duration, and equals it when the child list is unchanged |
| Classify.Bucket | packages/react-reconciler/src/ReactFiberPerformanceTrack.js:278-291 | the bucket index of a duration against three exclusive upper bounds, each bucket characterised by an iff |
| Classify.RenderColor | packages/react-reconciler/src/ReactFiberPerformanceTrack.js:278-291 | render colour severity is the bucket of self time at 0.5/10/100; tertiary family when hydrated, primary otherwise, error from 100 |
| Classify.EffectColor | packages/react-reconciler/src/ReactFiberPerformanceTrack.js:609-616 | effect colour severity is the bucket of self time at 1/100/500 in the secondary family, error from 500 |
| Classify.YieldColor | packages/react-reconciler/src/ReactFiberPerformanceTrack.js:644-651 | yield colour severity is the bucket of the yield at 5/10/100 in the primary family, error from 100 |
| Classify.RenderColorMonotone | packages/react-reconciler/src/ReactFiberPerformanceTrack.js:278-291 | a longer self time never gets a milder render colour; hydration does not move the boundaries |
| Classify.EffectColorMonotone | packages/react-reconciler/src/ReactFiberPerformanceTrack.js:609-616 | a longer effect never gets a milder colour |
| Classify.YieldColorMonotone | packages/react-reconciler/src/ReactFiberPerformanceTrack.js:644-651 | a longer yield never gets a milder colour |
| Classify.ThresholdsAreExclusive | packages/react-reconciler/src/ReactFiberPerformanceTrack.js:278-291 | durations exactly on a threshold fall into the stricter bucket, for render, effect and yield colours |
| Classify.PhaseColor | packages/react-reconciler/src/ReactFiberPerformanceTrack.js:1064-1066 | render-phase colour is tertiary-dark iff the lanes are hydration-or-offscreen only, else primary-dark |
| Classify.RenderLabel | packages/react-reconciler/src/ReactFiberPerformanceTrack.js:1067-1071 | 'Prepared' iff offscreen-only, 'Hydrated' iff hydration-only and not offscreen-only, 'Render' iff neither |
| Classify.InterruptedRenderLabel | packages/react-reconciler/src/ReactFiberPerformanceTrack.js:1104-1108 | 'Prewarm' / 'Interrupted Hydration' / 'Interrupted Render' under the same conditions, each as an iff |
| Classify.BlockingUpdateLabel | packages/react-reconciler/src/ReactFiberPerformanceTrack.js:779-785 | label precedence as iffs: pinged, then spawned, then a gap above 5, then plain 'Update' |
| Classify.BlockingUpdateColor | packages/react-reconciler/src/ReactFiberPerformanceTrack.js:774-778 | the update colour is error iff spawned, whatever the label; otherwise tertiary-light or primary-light by lanes |
| Classify.GestureUpdateLabel | packages/react-reconciler/src/ReactFiberPerformanceTrack.js:883-887 | 'Promise Resolved' iff pinged, 'Gesture Blocked' iff not pinged and the gap exceeds 5, else 'Gesture' |
| Classify.TransitionUpdateLabel | packages/react-reconciler/src/ReactFiberPerformanceTrack.js:1005-1009 | 'Promise Resolved' iff pinged, 'Update Blocked' iff not pinged and the gap exceeds 5, else 'Update' |
| Classify.EventLabel | packages/react-reconciler/src/ReactFiberPerformanceTrack.js:759 | a repeated event is 'Consecutive'; otherwise 'Event: ' followed by the event type |
| Classify.EventColor | packages/react-reconciler/src/ReactFiberPerformanceTrack.js:757 | secondary-light iff repeated, warning otherwise |
| Origin.ClampTo | packages/react-reconciler/src/ReactFiberPerformanceTrack.js:737-751 | a clamped time never exceeds the next stage; a non-positive time takes the next stage's time; an in-range time is kept |
| Origin.BlockingClampOrder | packages/react-reconciler/src/ReactFiberPerformanceTrack.js:737-751 | after clamping, event <= update <= render start; missing times collapse onto the next stage; ordered inputs are kept |
| Origin.TransitionClampOrder | packages/react-reconciler/src/ReactFiberPerformanceTrack.js:946-967 | after clamping, event <= start <= update <= render start, with missing times collapsing onto the next stage |
| Origin.EventSpans | packages/react-reconciler/src/ReactFiberPerformanceTrack.js:755-771 | an event span exists iff the event type is known and the gap is positive, with the event label and colour on the track |
| Origin.UpdateProperties | packages/react-reconciler/src/ReactFiberPerformanceTrack.js:788-794 | the development properties are 'Component name' then 'Method name', each only when known |
| Origin.CascadingIssue | packages/react-reconciler/src/ReactFiberPerformanceTrack.js:806-809 | the cascading-update issue is attached iff development build, issue reporting on and the update spawned |
| Origin.UpdateSpans | packages/react-reconciler/src/ReactFiberPerformanceTrack.js:772-828 | an update span exists iff the render starts after the update; it carries the label, colour and track, and properties and the issue marker only in a development build |
| Origin.ActionSpans | packages/react-reconciler/src/ReactFiberPerformanceTrack.js:986-1001 | an 'Action' span exists iff the update comes after the transition start, primary-dark on the transition track |
| Origin.BlockingStartChained | packages/react-reconciler/src/ReactFiberPerformanceTrack.js:719-830 | the blocking spans have positive width, share endpoints in order, end at the render start and lie on the 'Blocking' track |
| Origin.GestureStartChained | packages/react-reconciler/src/ReactFiberPerformanceTrack.js:832-927 | the same tiling for the gesture spans on the 'Gesture' track |
| Origin.TransitionStartChained | packages/react-reconciler/src/ReactFiberPerformanceTrack.js:929-1049 | event, action and update spans tile the time up to the render start on the 'Transition' track |
| Origin.ChainedAppend | packages/react-reconciler/src/ReactFiberPerformanceTrack.js:755-828 | two tilings on one track glue into one when the second starts where the first ends |
| Origin.SpawnedUpdateIsError | packages/react-reconciler/src/ReactFiberPerformanceTrack.js:774-809 | a spawned update's span is error-coloured even when labelled 'Promise Resolved'; the issue is present iff development build with issue reporting |
| Origin.MissingTimesEmitNothing | packages/react-reconciler/src/ReactFiberPerformanceTrack.js:737-751 | for any render start, non-positive update and event times collapse onto it and no blocking or gesture span is logged; a transition also needs a non-positive start time |
| Origin.CascadingIssueMarker | packages/react-reconciler/src/ReactFiberPerformanceTrack.js:795-809 | when the update precedes the render, the blocking update span carries the cascading-update issue iff the update was spawned in a development build with issue reporting on |
| Origin.SpawnedGapOfSix | packages/react-reconciler/src/ReactFiberPerformanceTrack.js:779-785 | a spawned update with a gap of 6 is 'Cascading Update' in the error colour, not 'Update Blocked' |
| ReactFiberPerformanceTrack.PerformanceTrack.LogEvent | packages/react-reconciler/src/ReactFiberPerformanceTrack.js:755-771 | appends exactly the event span on the current track |
| ReactFiberPerformanceTrack.PerformanceTrack.LogUpdate | packages/react-reconciler/src/ReactFiberPerformanceTrack.js:772-828 | appends exactly the update span on the current track, building the development properties in order |
| ReactFiberPerformanceTrack.PerformanceTrack.LogAction | packages/react-reconciler/src/ReactFiberPerformanceTrack.js:986-1001 | appends exactly the action span |
| ReactFiberPerformanceTrack.PerformanceTrack.LogBlockingStart | packages/react-reconciler/src/ReactFiberPerformanceTrack.js:719-830 | while tracing switches to 'Blocking' and appends the blocking spans; unbound, it changes neither the track nor the spans |
| ReactFiberPerformanceTrack.PerformanceTrack.EmitBlockingStart | packages/react-reconciler/src/ReactFiberPerformanceTrack.js:737-829 | on the blocking track, clamps the times and appends the event span then the update span |
| ReactFiberPerformanceTrack.PerformanceTrack.LogGestureStart | packages/react-reconciler/src/ReactFiberPerformanceTrack.js:832-927 | while tracing switches to 'Gesture' and appends the gesture spans; otherwise changes nothing |
| ReactFiberPerformanceTrack.PerformanceTrack.EmitGestureStart | packages/react-reconciler/src/ReactFiberPerformanceTrack.js:848-925 | on the gesture track, clamps the times and appends the event span then the update span |
| ReactFiberPerformanceTrack.PerformanceTrack.LogTransitionStart | packages/react-reconciler/src/ReactFiberPerformanceTrack.js:929-1049 | while tracing switches to 'Transition' and appends the transition spans; otherwise changes nothing |
| ReactFiberPerformanceTrack.PerformanceTrack.EmitTransitionStart | packages/react-reconciler/src/ReactFiberPerformanceTrack.js:946-1047 | on the transition track, clamps the times and appends the event, action and update spans in that order |
| Components.ComponentRenderSpans | packages/react-reconciler/src/ReactFiberPerformanceTrack.js:255-445 | one span iff the name resolves; production colours it by self time; development attaches the diff and the warning verdict exactly when props changed with more than one entry, and no colour |
| ReactFiberPerformanceTrack.PerformanceTrack.LogComponentRender | packages/react-reconciler/src/ReactFiberPerformanceTrack.js:255-445 | appends the render span while tracing; the flag becomes set exactly when it was set or this render warned (development build, more than one diff entry, deeply equal props, no committed-lane overlap, actual duration above 100) |
| Components.ErrorProperties | packages/react-reconciler/src/ReactFiberPerformanceTrack.js:464-476 | one (key, message) property per captured error, in order |
| Components.CollectErrorProperties | packages/react-reconciler/src/ReactFiberPerformanceTrack.js:1207-1219 | the error loop builds exactly the ordered error properties |
| Components.ComponentErrorProperties | packages/react-reconciler/src/ReactFiberPerformanceTrack.js:463-482 | a component error span lists the errors first, then the key entries when keyed, then the props entries when it has props |
| Components.ErroredComponentSpans | packages/react-reconciler/src/ReactFiberPerformanceTrack.js:456-517 | one error-flagged, error-coloured span iff the name resolves; the development build adds the tooltip and the properties |
| Components.ComponentErroredTooltip | packages/react-reconciler/src/ReactFiberPerformanceTrack.js:493-496 | 'Hydration failed' iff the fiber is a Suspense boundary, else 'Error boundary caught an error' |
| ReactFiberPerformanceTrack.PerformanceTrack.LogErroredComponent | packages/react-reconciler/src/ReactFiberPerformanceTrack.js:447-518 | appends the errored component span while tracing |
| ReactFiberPerformanceTrack.PerformanceTrack.LogComponentErrored | packages/react-reconciler/src/ReactFiberPerformanceTrack.js:447-518 | appends the errored span with the boundary tooltip |
| ReactFiberPerformanceTrack.PerformanceTrack.LogComponentEffectErrored | packages/react-reconciler/src/ReactFiberPerformanceTrack.js:520-587 | appends the errored span with the effect tooltip |
| Components.ComponentEffectSpans | packages/react-reconciler/src/ReactFiberPerformanceTrack.js:589-631 | with errors it is exactly the effect-errored span; otherwise one span iff the name resolves, coloured by self time and carrying it |
| ReactFiberPerformanceTrack.PerformanceTrack.LogComponentEffect | packages/react-reconciler/src/ReactFiberPerformanceTrack.js:589-631 | routes errors to the effect-errored logger, otherwise appends the effect span |
| Components.YieldSpans | packages/react-reconciler/src/ReactFiberPerformanceTrack.js:633-669 | a 'Blocked' span iff the yield lasts at least 3, coloured by the yield colour |
| Components.YieldFloorExamples | packages/react-reconciler/src/ReactFiberPerformanceTrack.js:638-651 | a yield of 2.9 is skipped and one of 3.1 is logged primary-light |
| ReactFiberPerformanceTrack.PerformanceTrack.LogYieldTime | packages/react-reconciler/src/ReactFiberPerformanceTrack.js:633-669 | appends the yield span while tracing |
| ReactFiberPerformanceTrack.PerformanceTrack.LogSuspendedYieldTime | packages/react-reconciler/src/ReactFiberPerformanceTrack.js:671-693 | appends a primary-light 'Suspended' component span while tracing |
| ReactFiberPerformanceTrack.PerformanceTrack.LogActionYieldTime | packages/react-reconciler/src/ReactFiberPerformanceTrack.js:695-717 | appends a primary-light 'Action' component span while tracing |
| Phases.PhaseSpans | packages/react-reconciler/src/ReactFiberPerformanceTrack.js:1057-1084 | no span iff the range is empty or inverted, else exactly one scheduler span over the range |
| Phases.PhaseLoggersOutcome | packages/react-reconciler/src/ReactFiberPerformanceTrack.js:1051-1595 | every phase logger logs nothing for an empty range, else one scheduler span over the range on the current track |
| Phases.RenderPhaseNaming | packages/react-reconciler/src/ReactFiberPerformanceTrack.js:1061-1142 | render and interrupted render names and colours follow the lane classification as iffs; the suspended render is 'Prewarm' |
| Phases.CommitErroredSpans | packages/react-reconciler/src/ReactFiberPerformanceTrack.js:1378-1440 | an 'Errored' error-flagged, error-coloured span on the track; development adds the tooltip and one 'Error' property per error |
| Phases.CommitErrorRouting | packages/react-reconciler/src/ReactFiberPerformanceTrack.js:1442-1455 | a commit with errors is the non-passive errored commit, a passive commit with errors the passive one; in production they coincide |
| ReactFiberPerformanceTrack.PerformanceTrack.LogPhase | packages/react-reconciler/src/ReactFiberPerformanceTrack.js:1057-1084 | the shared guard: nothing unbound, without user timing or for an empty range; else one span |
| ReactFiberPerformanceTrack.PerformanceTrack.LogRenderPhase | packages/react-reconciler/src/ReactFiberPerformanceTrack.js:1051-1086 | appends the render-phase span while tracing |
| ReactFiberPerformanceTrack.PerformanceTrack.LogInterruptedRenderPhase | packages/react-reconciler/src/ReactFiberPerformanceTrack.js:1088-1123 | appends the interrupted render span while tracing |
| ReactFiberPerformanceTrack.PerformanceTrack.LogSuspendedRenderPhase | packages/react-reconciler/src/ReactFiberPerformanceTrack.js:1125-1155 | appends the 'Prewarm' span while tracing |
| ReactFiberPerformanceTrack.PerformanceTrack.LogSuspendedWithDelayPhase | packages/react-reconciler/src/ReactFiberPerformanceTrack.js:1157-1188 | appends the 'Suspended' span while tracing |
| ReactFiberPerformanceTrack.PerformanceTrack.LogRecoveredRenderPhase | packages/react-reconciler/src/ReactFiberPerformanceTrack.js:1190-1253 | appends the 'Recovered' span: development lists the recoverable errors with a tooltip, production colours it as an error |
| ReactFiberPerformanceTrack.PerformanceTrack.LogErroredRenderPhase | packages/react-reconciler/src/ReactFiberPerformanceTrack.js:1255-1283 | appends the error-flagged 'Errored' span while tracing |
| ReactFiberPerformanceTrack.PerformanceTrack.LogInconsistentRender | packages/react-reconciler/src/ReactFiberPerformanceTrack.js:1285-1312 | appends the error-flagged 'Teared Render' span while tracing |
| ReactFiberPerformanceTrack.PerformanceTrack.LogSuspendedCommitPhase | packages/react-reconciler/src/ReactFiberPerformanceTrack.js:1314-1344 | appends a secondary-light span named by the reason |
| ReactFiberPerformanceTrack.PerformanceTrack.LogSuspendedViewTransitionPhase | packages/react-reconciler/src/ReactFiberPerformanceTrack.js:1346-1376 | appends a secondary-light span named by the reason |
| ReactFiberPerformanceTrack.PerformanceTrack.LogCommitErrored | packages/react-reconciler/src/ReactFiberPerformanceTrack.js:1378-1440 | appends the errored commit span, building the error properties in a loop in a development build |
| ReactFiberPerformanceTrack.PerformanceTrack.LogCommitPhase | packages/react-reconciler/src/ReactFiberPerformanceTrack.js:1442-1474 | routes errors to the errored commit; else appends 'Commit' or 'Commit Interrupted View Transition' |
| ReactFiberPerformanceTrack.PerformanceTrack.LogPaintYieldPhase | packages/react-reconciler/src/ReactFiberPerformanceTrack.js:1476-1503 | appends 'Waiting for Paint' or 'Waiting' while tracing |
| ReactFiberPerformanceTrack.PerformanceTrack.LogStartViewTransitionYieldPhase | packages/react-reconciler/src/ReactFiberPerformanceTrack.js:1505-1534 | appends 'Interrupted View Transition' in the error colour or 'Starting Animation' |
| ReactFiberPerformanceTrack.PerformanceTrack.LogAnimatingPhase | packages/react-reconciler/src/ReactFiberPerformanceTrack.js:1536-1562 | appends the secondary-dark 'Animating' span while tracing |
| ReactFiberPerformanceTrack.PerformanceTrack.LogPassiveCommitPhase | packages/react-reconciler/src/ReactFiberPerformanceTrack.js:1564-1595 | routes errors to the passive errored commit; else appends 'Remaining Effects' |

## Left out

- `scripts/release/publish-commands/publish-to-npm.js` is not part of this model: it is release tooling built from file and process I/O.
- The external collaborators are inputs. `getComponentNameFromFiber` is the fiber's
  `componentName`. The lane helpers are the functions of `LaneHelpers`. The props diff
  is a `PropsDiff` (its entries and its deep-equality verdict). The key and props
  flatteners are the fiber's `keyEntries` and `propsEntries`.
- The global override slot `__reactPerformanceTrackingOverride` is a parameter of
  `MarkAllLanesInOrder`: `undefined`, `null` or a service object. The results of the
  `typeof` probes behind `supportsUserTiming` are fields of `Env`, and
  `Env.SupportsUserTiming` combines them as the source does.
- Captured errors are their message strings: the `String(error)` and `error.message`
  coercion is not modelled.
- Times are real numbers: IEEE double rounding is not modelled.
- The commented-out `console.timeStamp` and `performance.measure` blocks are not
  modelled; they do not run.
- The text of the cascading-update issue payload is not modelled; the issue is a
  marker that is present or absent.
- The `_debugTask`, `debugTask` and `suspendedFiber` parameters, the `lanes` parameter of
  `logRecoveredRenderPhase` and `logErroredRenderPhase`, and the service's `startSpan`
  member are left out: the logger never uses them.
- The fiber's child list is a sequence of the children's actual durations rather
  than a linked list of sibling fibers.
- The clamping in the origin loggers reassigns the time parameters in place. The
  model computes the clamped times as locals with `Origin.ClampTo`.
