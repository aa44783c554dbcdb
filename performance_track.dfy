/**
 * The logger's module state and its exported loggers. The module-level variables of
 * the source (the current track, the bound tracking service and the deep-equality
 * flag) are the fields of one `PerformanceTrack` object; the tracking service is an
 * object of its own whose list of finished spans grows with every span handed to it.
 *
 * Every logger is specified against a function of the `Origin`, `Components` or
 * `Phases` module: what it appends to the bound service's spans is that function's
 * value when a service is bound and user timing is supported, and nothing otherwise.
 */
module ReactFiberPerformanceTrack {
  import opened Wrappers
  import opened SpanModel
  import opened Lanes
  import opened Environment
  import opened Classify
  import opened Origin
  import opened Components
  import opened Phases

  /** The external tracking service, reduced to its tracking flag and the spans it has received. */
  class TrackingService {
    var isTracking: bool
    var finishedSpans: seq<Span>

    constructor (isTracking: bool)
      ensures this.isTracking == isTracking && finishedSpans == []
    {
      this.isTracking := isTracking;
      finishedSpans := [];
    }

    /** `createFinishedSpan`: the span is recorded after the ones before it. */
    method CreateFinishedSpan(span: Span)
      modifies this
      ensures finishedSpans == old(finishedSpans) + [span]
      ensures isTracking == old(isTracking)
    {
      finishedSpans := finishedSpans + [span];
    }
  }

  /**
   * What the global override slot holds: nothing (`undefined`), `null`, or a service
   * object. The source tells only `undefined` apart, so `null` reaches the read of
   * `isTracking`.
   */
  datatype OverrideSlot = Undefined | Null | Defined(service: TrackingService)

  /** The outcome of looking a service up: the service to bind (or none), or the thrown TypeError. */
  datatype Lookup = Found(bound: TrackingService?) | TypeError

  /**
   * `getPerformanceTrackingServiceFromGlobalIfTracking` (ReactFiberPerformanceTrack.js:130-139):
   * the service in the global override slot, if there is one and it is tracking; a
   * `null` slot passes the `!== undefined` test and throws on reading `isTracking`.
   */
  function ServiceIfTracking(slot: OverrideSlot): (r: Lookup)
    reads if slot.Defined? then {slot.service} else {}
    ensures r.TypeError? <==> slot.Null?
    ensures r.Found? && r.bound != null <==> slot.Defined? && slot.service.isTracking
    ensures r.Found? && r.bound != null ==> slot.Defined? && r.bound == slot.service
  {
    match slot
    case Undefined => Found(null)
    case Null => TypeError
    case Defined(service) => if service.isTracking then Found(service) else Found(null)
  }

  class PerformanceTrack {
    const env: Env
    var currentTrack: string
    var currentTrackingService: TrackingService?
    var alreadyWarnedForDeepEquality: bool

    /** The module's initial state (ReactFiberPerformanceTrack.js:50, 141, 207). */
    constructor (env: Env)
      ensures this.env == env
      ensures currentTrack == BlockingTrack && currentTrackingService == null
      ensures !alreadyWarnedForDeepEquality
    {
      this.env := env;
      currentTrack := BlockingTrack;
      currentTrackingService := null;
      alreadyWarnedForDeepEquality := false;
    }

    /** The spans the bound service has received; none while no service is bound. */
    ghost function Recorded(): seq<Span>
      reads this, currentTrackingService
    {
      if currentTrackingService == null then [] else currentTrackingService.finishedSpans
    }

    /** Whether the loggers do anything: a service is bound and user timing is supported. */
    predicate Tracing()
      reads this
    {
      currentTrackingService != null && env.SupportsUserTiming()
    }

    /**
     * Without the profiler timer, or in a development build without `performance.measure`,
     * no logger records anything, whatever service is bound.
     */
    lemma NoUserTimingNoTracing()
      ensures !env.enableProfilerTimer ==> !Tracing()
      ensures !env.hasConsoleTimeStamp ==> !Tracing()
      ensures env.dev && !env.hasPerformanceMeasure ==> !Tracing()
    {
      UserTimingRequirements(env);
    }

    /** `setCurrentTrackFromLanes` (ReactFiberPerformanceTrack.js:52-54). */
    method SetCurrentTrackFromLanes(lanes: Lanes)
      modifies this`currentTrack
      ensures currentTrack == env.lanes.getGroupNameOfHighestPriorityLane(lanes)
    {
      currentTrack := env.lanes.getGroupNameOfHighestPriorityLane(lanes);
    }

    /**
     * `markAllLanesInOrder` (ReactFiberPerformanceTrack.js:56-58): the setup call that
     * binds the service found in the global override slot, or unbinds; when the lookup
     * throws, the exception escapes and the binding stays as it was.
     */
    method MarkAllLanesInOrder(globalOverride: OverrideSlot) returns (threw: bool)
      modifies this`currentTrackingService
      ensures threw <==> globalOverride.Null?
      ensures threw ==> currentTrackingService == old(currentTrackingService)
      ensures globalOverride.Undefined? ==> currentTrackingService == null
      ensures globalOverride.Defined? ==>
        currentTrackingService == if globalOverride.service.isTracking then globalOverride.service else null
    {
      var lookup := ServiceIfTracking(globalOverride);
      match lookup
      case TypeError =>
        threw := true;
      case Found(service) =>
        currentTrackingService := service;
        threw := false;
    }

    /** `pushDeepEquality` (ReactFiberPerformanceTrack.js:209-216): the flag to restore later. */
    method PushDeepEquality() returns (prev: bool)
      ensures prev == (env.dev && alreadyWarnedForDeepEquality)
    {
      if env.dev {
        return alreadyWarnedForDeepEquality;
      }
      return false;
    }

    /** `popDeepEquality` (ReactFiberPerformanceTrack.js:218-222): restore the flag in a development build. */
    method PopDeepEquality(prev: bool)
      modifies this`alreadyWarnedForDeepEquality
      ensures alreadyWarnedForDeepEquality == if env.dev then prev else old(alreadyWarnedForDeepEquality)
    {
      if env.dev {
        alreadyWarnedForDeepEquality := prev;
      }
    }

    /** `logComponentTrigger` (ReactFiberPerformanceTrack.js:143-173). */
    method LogComponentTrigger(fiber: Fiber, startTime: real, endTime: real, trigger: string)
      modifies currentTrackingService
      ensures currentTrackingService != null ==> currentTrackingService.isTracking == old(currentTrackingService.isTracking)
      ensures Recorded() == old(Recorded()) + if Tracing() then [TriggerSpan(trigger, startTime, endTime)] else []
    {
      if env.SupportsUserTiming() {
        if currentTrackingService != null {
          currentTrackingService.CreateFinishedSpan(Span(trigger, ReactComponent, startTime, endTime, None, false));
        }
      }
    }

    /** `logComponentMount` (ReactFiberPerformanceTrack.js:175-181). */
    method LogComponentMount(fiber: Fiber, startTime: real, endTime: real)
      modifies currentTrackingService
      ensures currentTrackingService != null ==> currentTrackingService.isTracking == old(currentTrackingService.isTracking)
      ensures Recorded() == old(Recorded()) + if Tracing() then [TriggerSpan("Mount", startTime, endTime)] else []
    {
      LogComponentTrigger(fiber, startTime, endTime, "Mount");
    }

    /** `logComponentUnmount` (ReactFiberPerformanceTrack.js:183-189). */
    method LogComponentUnmount(fiber: Fiber, startTime: real, endTime: real)
      modifies currentTrackingService
      ensures currentTrackingService != null ==> currentTrackingService.isTracking == old(currentTrackingService.isTracking)
      ensures Recorded() == old(Recorded()) + if Tracing() then [TriggerSpan("Unmount", startTime, endTime)] else []
    {
      LogComponentTrigger(fiber, startTime, endTime, "Unmount");
    }

    /** `logComponentReappeared` (ReactFiberPerformanceTrack.js:191-197). */
    method LogComponentReappeared(fiber: Fiber, startTime: real, endTime: real)
      modifies currentTrackingService
      ensures currentTrackingService != null ==> currentTrackingService.isTracking == old(currentTrackingService.isTracking)
      ensures Recorded() == old(Recorded()) + if Tracing() then [TriggerSpan("Reconnect", startTime, endTime)] else []
    {
      LogComponentTrigger(fiber, startTime, endTime, "Reconnect");
    }

    /** `logComponentDisappeared` (ReactFiberPerformanceTrack.js:199-205). */
    method LogComponentDisappeared(fiber: Fiber, startTime: real, endTime: real)
      modifies currentTrackingService
      ensures currentTrackingService != null ==> currentTrackingService.isTracking == old(currentTrackingService.isTracking)
      ensures Recorded() == old(Recorded()) + if Tracing() then [TriggerSpan("Disconnect", startTime, endTime)] else []
    {
      LogComponentTrigger(fiber, startTime, endTime, "Disconnect");
    }

    /**
     * `logComponentRender` (ReactFiberPerformanceTrack.js:255-445). The deep-equality flag
     * is set exactly when the warning is raised; it is never consulted.
     */
    method LogComponentRender(fiber: Fiber, startTime: real, endTime: real, wasHydrated: bool, committedLanes: Lanes)
      modifies this`alreadyWarnedForDeepEquality, currentTrackingService
      ensures currentTrackingService != null ==> currentTrackingService.isTracking == old(currentTrackingService.isTracking)
      ensures Recorded() == old(Recorded()) +
        if Tracing() then ComponentRenderSpans(env, fiber, startTime, endTime, wasHydrated, committedLanes) else []
      ensures alreadyWarnedForDeepEquality ==
        (old(alreadyWarnedForDeepEquality)
         || (Tracing() && fiber.componentName.Some? && DeepEqualityWarning(env, fiber, committedLanes)))
    {
      if currentTrackingService == null {
        return;
      }
      var name := fiber.componentName;
      if name.None? {
        return;
      }
      if env.SupportsUserTiming() {
        var selfTime := ComputeSelfTime(fiber);
        var color := RenderColor(selfTime, wasHydrated);
        if !env.dev {
          currentTrackingService.CreateFinishedSpan(
            Span(name.value, ReactComponent, startTime, endTime, Some(ColorOnly(color)), false));
        } else if fiber.hasProps && fiber.alternate.Some? && !fiber.alternate.value.sameProps {
          var properties := fiber.propsDiff.entries;
          var isDeeplyEqual := fiber.propsDiff.isDeeplyEqual;
          if |properties| > 1 {
            var isDeeplyEqualAndUserShouldSeeWarning := false;
            if isDeeplyEqual
               && !env.lanes.includesSomeLane(fiber.alternate.value.lanes, committedLanes)
               && fiber.actualDuration > 100.0
            {
              isDeeplyEqualAndUserShouldSeeWarning := true;
              alreadyWarnedForDeepEquality := true;
            }
            currentTrackingService.CreateFinishedSpan(
              Span(name.value, ReactComponent, startTime, endTime,
                   Some(Details(None, None, None, None, None,
                                Some(isDeeplyEqualAndUserShouldSeeWarning), Some(properties), None)),
                   false));
          } else {
            currentTrackingService.CreateFinishedSpan(Span(name.value, ReactComponent, startTime, endTime, None, false));
          }
        } else {
          currentTrackingService.CreateFinishedSpan(Span(name.value, ReactComponent, startTime, endTime, None, false));
        }
      }
    }

    /**
     * A component rendered between `pushDeepEquality` and `popDeepEquality`, as the commit
     * walk brackets each subtree: whatever the render does to the flag, its siblings see
     * the flag as it was before.
     */
    method LogComponentRenderInSubtree(fiber: Fiber, startTime: real, endTime: real, wasHydrated: bool,
                                       committedLanes: Lanes)
      modifies this`alreadyWarnedForDeepEquality, currentTrackingService
      ensures currentTrackingService != null ==> currentTrackingService.isTracking == old(currentTrackingService.isTracking)
      ensures Recorded() == old(Recorded()) +
        if Tracing() then ComponentRenderSpans(env, fiber, startTime, endTime, wasHydrated, committedLanes) else []
      ensures alreadyWarnedForDeepEquality == old(alreadyWarnedForDeepEquality)
    {
      var prev := PushDeepEquality();
      LogComponentRender(fiber, startTime, endTime, wasHydrated, committedLanes);
      PopDeepEquality(prev);
    }

    /** The shared body of the two component error loggers. */
    method LogErroredComponent(fiber: Fiber, startTime: real, endTime: real, errors: seq<string>, tooltip: string)
      modifies currentTrackingService
      ensures currentTrackingService != null ==> currentTrackingService.isTracking == old(currentTrackingService.isTracking)
      ensures Recorded() == old(Recorded()) +
        if Tracing() then ErroredComponentSpans(env, fiber, startTime, endTime, errors, tooltip) else []
    {
      if currentTrackingService == null {
        return;
      }
      if env.SupportsUserTiming() {
        var name := fiber.componentName;
        if name.None? {
          return;
        }
        if env.dev {
          var properties := CollectErrorProperties("Error", errors);
          if fiber.key.Some? {
            properties := properties + fiber.keyEntries;
          }
          if fiber.hasProps {
            properties := properties + fiber.propsEntries;
          }
          assert properties == ComponentErrorProperties(fiber, errors);
          currentTrackingService.CreateFinishedSpan(
            Span(name.value, ReactComponent, startTime, endTime,
                 Some(Details(None, Some(Error), Some(tooltip), Some(properties), None, None, None, None)), true));
        } else {
          currentTrackingService.CreateFinishedSpan(
            Span(name.value, ReactComponent, startTime, endTime, Some(ColorOnly(Error)), true));
        }
      }
    }

    /** `logComponentErrored` (ReactFiberPerformanceTrack.js:447-518). */
    method LogComponentErrored(fiber: Fiber, startTime: real, endTime: real, errors: seq<string>)
      modifies currentTrackingService
      ensures currentTrackingService != null ==> currentTrackingService.isTracking == old(currentTrackingService.isTracking)
      ensures Recorded() == old(Recorded()) +
        if Tracing() then ErroredComponentSpans(env, fiber, startTime, endTime, errors, ComponentErroredTooltip(fiber))
        else []
    {
      LogErroredComponent(fiber, startTime, endTime, errors, ComponentErroredTooltip(fiber));
    }

    /** `logComponentEffectErrored` (ReactFiberPerformanceTrack.js:520-587). */
    method LogComponentEffectErrored(fiber: Fiber, startTime: real, endTime: real, errors: seq<string>)
      modifies currentTrackingService
      ensures currentTrackingService != null ==> currentTrackingService.isTracking == old(currentTrackingService.isTracking)
      ensures Recorded() == old(Recorded()) +
        if Tracing() then ErroredComponentSpans(env, fiber, startTime, endTime, errors, EffectErroredTooltip) else []
    {
      LogErroredComponent(fiber, startTime, endTime, errors, EffectErroredTooltip);
    }

    /** `logComponentEffect` (ReactFiberPerformanceTrack.js:589-631). */
    method LogComponentEffect(fiber: Fiber, startTime: real, endTime: real, selfTime: real,
                              errors: Option<seq<string>>)
      modifies currentTrackingService
      ensures currentTrackingService != null ==> currentTrackingService.isTracking == old(currentTrackingService.isTracking)
      ensures Recorded() == old(Recorded()) +
        if Tracing() then ComponentEffectSpans(env, fiber, startTime, endTime, selfTime, errors) else []
    {
      if currentTrackingService == null {
        return;
      }
      if errors.Some? {
        LogComponentEffectErrored(fiber, startTime, endTime, errors.value);
        return;
      }
      var name := fiber.componentName;
      if name.None? {
        return;
      }
      if env.SupportsUserTiming() {
        var color := EffectColor(selfTime);
        currentTrackingService.CreateFinishedSpan(
          Span(name.value, ReactComponent, startTime, endTime,
               Some(Details(None, Some(color), None, None, Some(selfTime), None, None, None)), false));
      }
    }

    /** `logYieldTime` (ReactFiberPerformanceTrack.js:633-669). */
    method LogYieldTime(startTime: real, endTime: real)
      modifies currentTrackingService
      ensures currentTrackingService != null ==> currentTrackingService.isTracking == old(currentTrackingService.isTracking)
      ensures Recorded() == old(Recorded()) + if Tracing() then YieldSpans(startTime, endTime) else []
    {
      if currentTrackingService == null {
        return;
      }
      if env.SupportsUserTiming() {
        var yieldDuration := endTime - startTime;
        if yieldDuration < YieldFloor {
          return;
        }
        var color := YieldColor(yieldDuration);
        currentTrackingService.CreateFinishedSpan(
          Span("Blocked", ReactComponent, startTime, endTime, Some(ColorOnly(color)), false));
      }
    }

    /** `logSuspendedYieldTime` (ReactFiberPerformanceTrack.js:671-693). */
    method LogSuspendedYieldTime(startTime: real, endTime: real)
      modifies currentTrackingService
      ensures currentTrackingService != null ==> currentTrackingService.isTracking == old(currentTrackingService.isTracking)
      ensures Recorded() == old(Recorded()) +
        if Tracing() then [FixedYieldSpan("Suspended", startTime, endTime)] else []
    {
      if currentTrackingService == null {
        return;
      }
      if env.SupportsUserTiming() {
        currentTrackingService.CreateFinishedSpan(
          Span("Suspended", ReactComponent, startTime, endTime, Some(ColorOnly(PrimaryLight)), false));
      }
    }

    /** `logActionYieldTime` (ReactFiberPerformanceTrack.js:695-717). */
    method LogActionYieldTime(startTime: real, endTime: real)
      modifies currentTrackingService
      ensures currentTrackingService != null ==> currentTrackingService.isTracking == old(currentTrackingService.isTracking)
      ensures Recorded() == old(Recorded()) +
        if Tracing() then [FixedYieldSpan("Action", startTime, endTime)] else []
    {
      if currentTrackingService == null {
        return;
      }
      if env.SupportsUserTiming() {
        currentTrackingService.CreateFinishedSpan(
          Span("Action", ReactComponent, startTime, endTime, Some(ColorOnly(PrimaryLight)), false));
      }
    }

    /** The event span shared by the origin loggers (ReactFiberPerformanceTrack.js:755-771). */
    method LogEvent(eventType: Option<string>, eventIsRepeat: bool, eventTime: real, nextTime: real)
      requires currentTrackingService != null
      modifies currentTrackingService
      ensures currentTrackingService != null ==> currentTrackingService.isTracking == old(currentTrackingService.isTracking)
      ensures Recorded() == old(Recorded()) + EventSpans(currentTrack, eventType, eventIsRepeat, eventTime, nextTime)
    {
      if eventType.Some? && nextTime > eventTime {
        var color := EventColor(eventIsRepeat);
        currentTrackingService.CreateFinishedSpan(
          Span(EventLabel(eventType.value, eventIsRepeat), ReactScheduler, eventTime, nextTime,
               Some(TrackColor(currentTrack, color)), false));
      }
    }

    /** The update span shared by the origin loggers (ReactFiberPerformanceTrack.js:772-828). */
    method LogUpdate(name: string, color: Color, issue: Option<Issue>, updateTime: real, renderStartTime: real,
                     updateMethodName: Option<string>, updateComponentName: Option<string>)
      requires currentTrackingService != null
      modifies currentTrackingService
      ensures currentTrackingService != null ==> currentTrackingService.isTracking == old(currentTrackingService.isTracking)
      ensures Recorded() == old(Recorded()) +
        UpdateSpans(env, currentTrack, name, color, issue, updateTime, renderStartTime,
                    updateMethodName, updateComponentName)
    {
      if renderStartTime > updateTime {
        if env.dev {
          var properties := [];
          if updateComponentName.Some? {
            properties := properties + [Property("Component name", updateComponentName.value)];
          }
          if updateMethodName.Some? {
            properties := properties + [Property("Method name", updateMethodName.value)];
          }
          assert properties == UpdateProperties(updateComponentName, updateMethodName);
          var span := Span(name, ReactScheduler, updateTime, renderStartTime,
                           Some(Details(Some(currentTrack), Some(color), None, Some(properties), None, None, None,
                                        issue)),
                           false);
          assert [span] == UpdateSpans(env, currentTrack, name, color, issue, updateTime, renderStartTime,
                                       updateMethodName, updateComponentName);
          currentTrackingService.CreateFinishedSpan(span);
        } else {
          currentTrackingService.CreateFinishedSpan(
            Span(name, ReactScheduler, updateTime, renderStartTime, Some(TrackColor(currentTrack, color)), false));
        }
      }
    }

    /** The action span of `logTransitionStart` (ReactFiberPerformanceTrack.js:986-1001). */
    method LogAction(startTime: real, updateTime: real)
      requires currentTrackingService != null && currentTrack == TransitionTrack
      modifies currentTrackingService
      ensures currentTrackingService != null ==> currentTrackingService.isTracking == old(currentTrackingService.isTracking)
      ensures Recorded() == old(Recorded()) + ActionSpans(startTime, updateTime)
    {
      if updateTime > startTime {
        currentTrackingService.CreateFinishedSpan(
          Span("Action", ReactScheduler, startTime, updateTime, Some(TrackColor(currentTrack, PrimaryDark)), false));
      }
    }

    /** `logBlockingStart` (ReactFiberPerformanceTrack.js:719-830). */
    method LogBlockingStart(
      updateTime: real, eventTime: real, eventType: Option<string>, eventIsRepeat: bool,
      isSpawnedUpdate: bool, isPingedUpdate: bool, renderStartTime: real, lanes: Lanes,
      updateMethodName: Option<string>, updateComponentName: Option<string>)
      modifies this`currentTrack, currentTrackingService
      ensures currentTrackingService != null ==> currentTrackingService.isTracking == old(currentTrackingService.isTracking)
      ensures currentTrack == if Tracing() then BlockingTrack else old(currentTrack)
      ensures Recorded() == old(Recorded()) +
        if Tracing() then BlockingStartSpans(env, updateTime, eventTime, eventType, eventIsRepeat, isSpawnedUpdate,
                                             isPingedUpdate, renderStartTime, lanes, updateMethodName,
                                             updateComponentName)
        else []
    {
      if currentTrackingService == null {
        return;
      }
      if env.SupportsUserTiming() {
        currentTrack := BlockingTrack;
        EmitBlockingStart(updateTime, eventTime, eventType, eventIsRepeat, isSpawnedUpdate, isPingedUpdate,
                          renderStartTime, lanes, updateMethodName, updateComponentName);
      }
    }

    /** The spans of `logBlockingStart` once it has switched to the blocking track (ReactFiberPerformanceTrack.js:737-829). */
    method EmitBlockingStart(
      updateTime: real, eventTime: real, eventType: Option<string>, eventIsRepeat: bool,
      isSpawnedUpdate: bool, isPingedUpdate: bool, renderStartTime: real, lanes: Lanes,
      updateMethodName: Option<string>, updateComponentName: Option<string>)
      requires currentTrackingService != null && currentTrack == BlockingTrack
      modifies currentTrackingService
      ensures currentTrackingService != null ==> currentTrackingService.isTracking == old(currentTrackingService.isTracking)
      ensures Recorded() == old(Recorded()) +
        BlockingStartSpans(env, updateTime, eventTime, eventType, eventIsRepeat, isSpawnedUpdate,
                           isPingedUpdate, renderStartTime, lanes, updateMethodName, updateComponentName)
    {
      // Clamp start times
      var update := ClampTo(updateTime, renderStartTime);
      var event := ClampTo(eventTime, update);
      var color := BlockingUpdateColor(env.lanes, isSpawnedUpdate, lanes);
      var name := BlockingUpdateLabel(isPingedUpdate, isSpawnedUpdate, renderStartTime - update);
      var issue := CascadingIssue(env, isSpawnedUpdate);
      ghost var eventSpans := EventSpans(BlockingTrack, eventType, eventIsRepeat, event, update);
      ghost var updateSpans := UpdateSpans(env, BlockingTrack, name, color, issue, update, renderStartTime,
                                           updateMethodName, updateComponentName);
      assert BlockingStartSpans(env, updateTime, eventTime, eventType, eventIsRepeat, isSpawnedUpdate,
                                isPingedUpdate, renderStartTime, lanes, updateMethodName, updateComponentName)
             == eventSpans + updateSpans;
      ghost var r0 := Recorded();
      LogEvent(eventType, eventIsRepeat, event, update);
      ghost var r1 := Recorded();
      LogUpdate(name, color, issue, update, renderStartTime, updateMethodName, updateComponentName);
      assert Recorded() == r0 + eventSpans + updateSpans by {
        assert r1 == r0 + eventSpans;
        assert Recorded() == r1 + updateSpans;
      }
    }

    /** `logGestureStart` (ReactFiberPerformanceTrack.js:832-927). */
    method LogGestureStart(
      updateTime: real, eventTime: real, eventType: Option<string>, eventIsRepeat: bool,
      isPingedUpdate: bool, renderStartTime: real,
      updateMethodName: Option<string>, updateComponentName: Option<string>)
      modifies this`currentTrack, currentTrackingService
      ensures currentTrackingService != null ==> currentTrackingService.isTracking == old(currentTrackingService.isTracking)
      ensures currentTrack == if Tracing() then GestureTrack else old(currentTrack)
      ensures Recorded() == old(Recorded()) +
        if Tracing() then GestureStartSpans(env, updateTime, eventTime, eventType, eventIsRepeat, isPingedUpdate,
                                            renderStartTime, updateMethodName, updateComponentName)
        else []
    {
      if currentTrackingService == null {
        return;
      }
      if env.SupportsUserTiming() {
        currentTrack := GestureTrack;
        EmitGestureStart(updateTime, eventTime, eventType, eventIsRepeat, isPingedUpdate, renderStartTime,
                         updateMethodName, updateComponentName);
      }
    }

    /** The spans of `logGestureStart` once it has switched to the gesture track (ReactFiberPerformanceTrack.js:848-925). */
    method EmitGestureStart(
      updateTime: real, eventTime: real, eventType: Option<string>, eventIsRepeat: bool,
      isPingedUpdate: bool, renderStartTime: real,
      updateMethodName: Option<string>, updateComponentName: Option<string>)
      requires currentTrackingService != null && currentTrack == GestureTrack
      modifies currentTrackingService
      ensures currentTrackingService != null ==> currentTrackingService.isTracking == old(currentTrackingService.isTracking)
      ensures Recorded() == old(Recorded()) +
        GestureStartSpans(env, updateTime, eventTime, eventType, eventIsRepeat, isPingedUpdate,
                          renderStartTime, updateMethodName, updateComponentName)
    {
      // Clamp start times
      var update := ClampTo(updateTime, renderStartTime);
      var event := ClampTo(eventTime, update);
      var name := GestureUpdateLabel(isPingedUpdate, renderStartTime - update);
      ghost var eventSpans := EventSpans(GestureTrack, eventType, eventIsRepeat, event, update);
      ghost var updateSpans := UpdateSpans(env, GestureTrack, name, PrimaryLight, None, update, renderStartTime,
                                           updateMethodName, updateComponentName);
      assert GestureStartSpans(env, updateTime, eventTime, eventType, eventIsRepeat, isPingedUpdate,
                               renderStartTime, updateMethodName, updateComponentName)
             == eventSpans + updateSpans;
      ghost var r0 := Recorded();
      LogEvent(eventType, eventIsRepeat, event, update);
      ghost var r1 := Recorded();
      LogUpdate(name, PrimaryLight, None, update, renderStartTime, updateMethodName, updateComponentName);
      assert Recorded() == r0 + eventSpans + updateSpans by {
        assert r1 == r0 + eventSpans;
        assert Recorded() == r1 + updateSpans;
      }
    }

    /** `logTransitionStart` (ReactFiberPerformanceTrack.js:929-1049). */
    method LogTransitionStart(
      startTime: real, updateTime: real, eventTime: real, eventType: Option<string>, eventIsRepeat: bool,
      isPingedUpdate: bool, renderStartTime: real,
      updateMethodName: Option<string>, updateComponentName: Option<string>)
      modifies this`currentTrack, currentTrackingService
      ensures currentTrackingService != null ==> currentTrackingService.isTracking == old(currentTrackingService.isTracking)
      ensures currentTrack == if Tracing() then TransitionTrack else old(currentTrack)
      ensures Recorded() == old(Recorded()) +
        if Tracing() then TransitionStartSpans(env, startTime, updateTime, eventTime, eventType, eventIsRepeat,
                                               isPingedUpdate, renderStartTime, updateMethodName, updateComponentName)
        else []
    {
      if currentTrackingService == null {
        return;
      }
      if env.SupportsUserTiming() {
        currentTrack := TransitionTrack;
        EmitTransitionStart(startTime, updateTime, eventTime, eventType, eventIsRepeat, isPingedUpdate,
                            renderStartTime, updateMethodName, updateComponentName);
      }
    }

    /**
     * The spans of `logTransitionStart` once it has switched to the transition track
     * (ReactFiberPerformanceTrack.js:946-1047).
     */
    method EmitTransitionStart(
      startTime: real, updateTime: real, eventTime: real, eventType: Option<string>, eventIsRepeat: bool,
      isPingedUpdate: bool, renderStartTime: real,
      updateMethodName: Option<string>, updateComponentName: Option<string>)
      requires currentTrackingService != null && currentTrack == TransitionTrack
      modifies currentTrackingService
      ensures currentTrackingService != null ==> currentTrackingService.isTracking == old(currentTrackingService.isTracking)
      ensures Recorded() == old(Recorded()) +
        TransitionStartSpans(env, startTime, updateTime, eventTime, eventType, eventIsRepeat,
                             isPingedUpdate, renderStartTime, updateMethodName, updateComponentName)
    {
      // Clamp start times
      var update := ClampTo(updateTime, renderStartTime);
      var start := ClampTo(startTime, update);
      var event := ClampTo(eventTime, start);
      var name := TransitionUpdateLabel(isPingedUpdate, renderStartTime - update);
      ghost var eventSpans := EventSpans(TransitionTrack, eventType, eventIsRepeat, event, start);
      ghost var actionSpans := ActionSpans(start, update);
      ghost var updateSpans := UpdateSpans(env, TransitionTrack, name, PrimaryLight, None, update, renderStartTime,
                                           updateMethodName, updateComponentName);
      assert TransitionStartSpans(env, startTime, updateTime, eventTime, eventType, eventIsRepeat,
                                  isPingedUpdate, renderStartTime, updateMethodName, updateComponentName)
             == eventSpans + actionSpans + updateSpans;
      ghost var r0 := Recorded();
      LogEvent(eventType, eventIsRepeat, event, start);
      ghost var r1 := Recorded();
      LogAction(start, update);
      ghost var r2 := Recorded();
      LogUpdate(name, PrimaryLight, None, update, renderStartTime, updateMethodName, updateComponentName);
      assert Recorded() == r0 + eventSpans + actionSpans + updateSpans by {
        assert r1 == r0 + eventSpans;
        assert r2 == r1 + actionSpans;
        assert Recorded() == r2 + updateSpans;
      }
    }

    /**
     * The guard and emission every phase logger shares (for instance
     * ReactFiberPerformanceTrack.js:1057-1084): nothing without a bound service, without
     * user timing or for an empty or inverted range; otherwise one scheduler span on the
     * current track.
     */
    method LogPhase(name: string, startTime: real, endTime: real, details: Details, error: bool)
      modifies currentTrackingService
      ensures currentTrackingService != null ==> currentTrackingService.isTracking == old(currentTrackingService.isTracking)
      ensures Recorded() == old(Recorded()) +
        if Tracing() then PhaseSpans(name, startTime, endTime, details, error) else []
    {
      if currentTrackingService == null {
        return;
      }
      if env.SupportsUserTiming() {
        if endTime <= startTime {
          return;
        }
        currentTrackingService.CreateFinishedSpan(
          Span(name, ReactScheduler, startTime, endTime, Some(details), error));
      }
    }

    /** `logRenderPhase` (ReactFiberPerformanceTrack.js:1051-1086). */
    method LogRenderPhase(startTime: real, endTime: real, lanes: Lanes)
      modifies currentTrackingService
      ensures currentTrackingService != null ==> currentTrackingService.isTracking == old(currentTrackingService.isTracking)
      ensures Recorded() == old(Recorded()) +
        if Tracing() then RenderPhaseSpans(env, currentTrack, startTime, endTime, lanes) else []
    {
      var color := PhaseColor(env.lanes, lanes);
      var name := RenderLabel(env.lanes, lanes);
      LogPhase(name, startTime, endTime, TrackColor(currentTrack, color), false);
    }

    /** `logInterruptedRenderPhase` (ReactFiberPerformanceTrack.js:1088-1123). */
    method LogInterruptedRenderPhase(startTime: real, endTime: real, lanes: Lanes)
      modifies currentTrackingService
      ensures currentTrackingService != null ==> currentTrackingService.isTracking == old(currentTrackingService.isTracking)
      ensures Recorded() == old(Recorded()) +
        if Tracing() then InterruptedRenderPhaseSpans(env, currentTrack, startTime, endTime, lanes) else []
    {
      var color := PhaseColor(env.lanes, lanes);
      var name := InterruptedRenderLabel(env.lanes, lanes);
      LogPhase(name, startTime, endTime, TrackColor(currentTrack, color), false);
    }

    /** `logSuspendedRenderPhase` (ReactFiberPerformanceTrack.js:1125-1155). */
    method LogSuspendedRenderPhase(startTime: real, endTime: real, lanes: Lanes)
      modifies currentTrackingService
      ensures currentTrackingService != null ==> currentTrackingService.isTracking == old(currentTrackingService.isTracking)
      ensures Recorded() == old(Recorded()) +
        if Tracing() then SuspendedRenderPhaseSpans(env, currentTrack, startTime, endTime, lanes) else []
    {
      var color := PhaseColor(env.lanes, lanes);
      LogPhase("Prewarm", startTime, endTime, TrackColor(currentTrack, color), false);
    }

    /** `logSuspendedWithDelayPhase` (ReactFiberPerformanceTrack.js:1157-1188). */
    method LogSuspendedWithDelayPhase(startTime: real, endTime: real, lanes: Lanes)
      modifies currentTrackingService
      ensures currentTrackingService != null ==> currentTrackingService.isTracking == old(currentTrackingService.isTracking)
      ensures Recorded() == old(Recorded()) +
        if Tracing() then SuspendedWithDelayPhaseSpans(env, currentTrack, startTime, endTime, lanes) else []
    {
      var color := PhaseColor(env.lanes, lanes);
      LogPhase("Suspended", startTime, endTime, TrackColor(currentTrack, color), false);
    }

    /** `logRecoveredRenderPhase` (ReactFiberPerformanceTrack.js:1190-1253). */
    method LogRecoveredRenderPhase(startTime: real, endTime: real,
                                   recoverableErrors: seq<string>, hydrationFailed: bool)
      modifies currentTrackingService
      ensures currentTrackingService != null ==> currentTrackingService.isTracking == old(currentTrackingService.isTracking)
      ensures Recorded() == old(Recorded()) +
        if Tracing() then RecoveredRenderPhaseSpans(env, currentTrack, startTime, endTime,
                                                    recoverableErrors, hydrationFailed)
        else []
    {
      if currentTrackingService == null {
        return;
      }
      if env.SupportsUserTiming() {
        if endTime <= startTime {
          return;
        }
        if env.dev {
          var properties := CollectErrorProperties("Recoverable Error", recoverableErrors);
          currentTrackingService.CreateFinishedSpan(
            Span("Recovered", ReactScheduler, startTime, endTime,
                 Some(Details(Some(currentTrack), Some(PrimaryDark), Some(RecoveredTooltip(hydrationFailed)),
                              Some(properties), None, None, None, None)),
                 false));
        } else {
          currentTrackingService.CreateFinishedSpan(
            Span("Recovered", ReactScheduler, startTime, endTime, Some(TrackColor(currentTrack, Error)), false));
        }
      }
    }

    /** `logErroredRenderPhase` (ReactFiberPerformanceTrack.js:1255-1283). */
    method LogErroredRenderPhase(startTime: real, endTime: real)
      modifies currentTrackingService
      ensures currentTrackingService != null ==> currentTrackingService.isTracking == old(currentTrackingService.isTracking)
      ensures Recorded() == old(Recorded()) +
        if Tracing() then ErroredRenderPhaseSpans(currentTrack, startTime, endTime) else []
    {
      LogPhase("Errored", startTime, endTime, TrackColor(currentTrack, Error), true);
    }

    /** `logInconsistentRender` (ReactFiberPerformanceTrack.js:1285-1312). */
    method LogInconsistentRender(startTime: real, endTime: real)
      modifies currentTrackingService
      ensures currentTrackingService != null ==> currentTrackingService.isTracking == old(currentTrackingService.isTracking)
      ensures Recorded() == old(Recorded()) +
        if Tracing() then InconsistentRenderSpans(currentTrack, startTime, endTime) else []
    {
      LogPhase("Teared Render", startTime, endTime, TrackColor(currentTrack, Error), true);
    }

    /** `logSuspendedCommitPhase` (ReactFiberPerformanceTrack.js:1314-1344). */
    method LogSuspendedCommitPhase(startTime: real, endTime: real, reason: string)
      modifies currentTrackingService
      ensures currentTrackingService != null ==> currentTrackingService.isTracking == old(currentTrackingService.isTracking)
      ensures Recorded() == old(Recorded()) +
        if Tracing() then SuspendedCommitPhaseSpans(currentTrack, startTime, endTime, reason) else []
    {
      LogPhase(reason, startTime, endTime, TrackColor(currentTrack, SecondaryLight), false);
    }

    /** `logSuspendedViewTransitionPhase` (ReactFiberPerformanceTrack.js:1346-1376). */
    method LogSuspendedViewTransitionPhase(startTime: real, endTime: real, reason: string)
      modifies currentTrackingService
      ensures currentTrackingService != null ==> currentTrackingService.isTracking == old(currentTrackingService.isTracking)
      ensures Recorded() == old(Recorded()) +
        if Tracing() then SuspendedCommitPhaseSpans(currentTrack, startTime, endTime, reason) else []
    {
      LogPhase(reason, startTime, endTime, TrackColor(currentTrack, SecondaryLight), false);
    }

    /** `logCommitErrored` (ReactFiberPerformanceTrack.js:1378-1440). */
    method LogCommitErrored(startTime: real, endTime: real, errors: seq<string>, passive: bool)
      modifies currentTrackingService
      ensures currentTrackingService != null ==> currentTrackingService.isTracking == old(currentTrackingService.isTracking)
      ensures Recorded() == old(Recorded()) +
        if Tracing() then CommitErroredSpans(env, currentTrack, startTime, endTime, errors, passive) else []
    {
      if currentTrackingService == null {
        return;
      }
      if env.SupportsUserTiming() {
        if endTime <= startTime {
          return;
        }
        if env.dev {
          var properties := CollectErrorProperties("Error", errors);
          currentTrackingService.CreateFinishedSpan(
            Span("Errored", ReactScheduler, startTime, endTime,
                 Some(Details(Some(currentTrack), Some(Error), Some(CommitErroredTooltip(passive)),
                              Some(properties), None, None, None, None)),
                 true));
        } else {
          currentTrackingService.CreateFinishedSpan(
            Span("Errored", ReactScheduler, startTime, endTime, Some(TrackColor(currentTrack, Error)), true));
        }
      }
    }

    /** `logCommitPhase` (ReactFiberPerformanceTrack.js:1442-1474): a commit with errors logs as errored. */
    method LogCommitPhase(startTime: real, endTime: real, errors: Option<seq<string>>, abortedViewTransition: bool)
      modifies currentTrackingService
      ensures currentTrackingService != null ==> currentTrackingService.isTracking == old(currentTrackingService.isTracking)
      ensures Recorded() == old(Recorded()) +
        if Tracing() then CommitPhaseSpans(env, currentTrack, startTime, endTime, errors, abortedViewTransition)
        else []
    {
      if currentTrackingService == null {
        return;
      }
      if errors.Some? {
        LogCommitErrored(startTime, endTime, errors.value, false);
        return;
      }
      LogPhase(if abortedViewTransition then "Commit Interrupted View Transition" else "Commit",
               startTime, endTime,
               TrackColor(currentTrack, if abortedViewTransition then Error else SecondaryDark), false);
    }

    /** `logPaintYieldPhase` (ReactFiberPerformanceTrack.js:1476-1503). */
    method LogPaintYieldPhase(startTime: real, endTime: real, delayedUntilPaint: bool)
      modifies currentTrackingService
      ensures currentTrackingService != null ==> currentTrackingService.isTracking == old(currentTrackingService.isTracking)
      ensures Recorded() == old(Recorded()) +
        if Tracing() then PaintYieldPhaseSpans(currentTrack, startTime, endTime, delayedUntilPaint) else []
    {
      LogPhase(if delayedUntilPaint then "Waiting for Paint" else "Waiting", startTime, endTime,
               TrackColor(currentTrack, SecondaryLight), false);
    }

    /** `logStartViewTransitionYieldPhase` (ReactFiberPerformanceTrack.js:1505-1534). */
    method LogStartViewTransitionYieldPhase(startTime: real, endTime: real, abortedViewTransition: bool)
      modifies currentTrackingService
      ensures currentTrackingService != null ==> currentTrackingService.isTracking == old(currentTrackingService.isTracking)
      ensures Recorded() == old(Recorded()) +
        if Tracing() then StartViewTransitionYieldPhaseSpans(currentTrack, startTime, endTime, abortedViewTransition)
        else []
    {
      LogPhase(if abortedViewTransition then "Interrupted View Transition" else "Starting Animation",
               startTime, endTime,
               TrackColor(currentTrack, if abortedViewTransition then Error else SecondaryLight), false);
    }

    /** `logAnimatingPhase` (ReactFiberPerformanceTrack.js:1536-1562). */
    method LogAnimatingPhase(startTime: real, endTime: real)
      modifies currentTrackingService
      ensures currentTrackingService != null ==> currentTrackingService.isTracking == old(currentTrackingService.isTracking)
      ensures Recorded() == old(Recorded()) +
        if Tracing() then AnimatingPhaseSpans(currentTrack, startTime, endTime) else []
    {
      LogPhase("Animating", startTime, endTime, TrackColor(currentTrack, SecondaryDark), false);
    }

    /**
     * `logPassiveCommitPhase` (ReactFiberPerformanceTrack.js:1564-1595): errors are routed to
     * the errored commit before the service is looked at, which checks it in turn.
     */
    method LogPassiveCommitPhase(startTime: real, endTime: real, errors: Option<seq<string>>)
      modifies currentTrackingService
      ensures currentTrackingService != null ==> currentTrackingService.isTracking == old(currentTrackingService.isTracking)
      ensures Recorded() == old(Recorded()) +
        if Tracing() then PassiveCommitPhaseSpans(env, currentTrack, startTime, endTime, errors) else []
    {
      if errors.Some? {
        LogCommitErrored(startTime, endTime, errors.value, true);
        return;
      }
      LogPhase("Remaining Effects", startTime, endTime, TrackColor(currentTrack, SecondaryDark), false);
    }
  }
}
