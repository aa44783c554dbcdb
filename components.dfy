/**
 * The per-component loggers: what a fiber looks like to the logger, its self time,
 * the deep-equality warning, the error property lists and the spans the component
 * loggers emit once the tracking service is bound and user timing is supported.
 */
module Components {
  import opened Wrappers
  import opened SpanModel
  import opened Lanes
  import opened Environment
  import opened Classify

  /** The work tag of a Suspense boundary. */
  const SuspenseComponent: nat := 13

  /** What the logger reads of a fiber's previous version. */
  datatype Alternate = Alternate(
    lanes: Lanes,          // alternate.lanes
    sameChild: bool,       // alternate.child === fiber.child
    sameProps: bool)       // alternate.memoizedProps === fiber.memoizedProps

  /** The result of diffing the previous props against the current ones. */
  datatype PropsDiff = PropsDiff(entries: seq<Property>, isDeeplyEqual: bool)

  /**
   * What the logger reads of a fiber, together with what the external collaborators
   * answer for it: the component name resolver, the props diff and the property
   * flatteners for the key and the props.
   */
  datatype Fiber = Fiber(
    tag: nat,
    key: Option<string>,
    hasProps: bool,                  // memoizedProps !== null
    actualDuration: real,
    childDurations: seq<real>,       // actualDuration of each child, in sibling order
    alternate: Option<Alternate>,
    componentName: Option<string>,   // getComponentNameFromFiber(fiber)
    propsDiff: PropsDiff,            // addObjectDiffToProperties(alternate.memoizedProps, memoizedProps, …)
    keyEntries: seq<Property>,       // what addValueToProperties('key', key, …) appends
    propsEntries: seq<Property>)     // what addObjectToProperties(memoizedProps, …) appends

  /** Sum of durations, in order. */
  function Sum(ds: seq<real>): real
  {
    if ds == [] then 0.0 else Sum(ds[..|ds| - 1]) + ds[|ds| - 1]
  }

  /** Whether the children's time is subtracted: a fresh fiber or a changed child list. */
  predicate RecomputesChildren(fiber: Fiber)
  {
    fiber.alternate.None? || !fiber.alternate.value.sameChild
  }

  /**
   * A fiber's self time (ReactFiberPerformanceTrack.js:272-277): its actual duration, minus
   * its children's when there is no alternate or the child list changed.
   */
  function SelfTime(fiber: Fiber): real
  {
    if RecomputesChildren(fiber) then fiber.actualDuration - Sum(fiber.childDurations)
    else fiber.actualDuration
  }

  /** The self-time loop of `logComponentRender` (ReactFiberPerformanceTrack.js:272-277). */
  method ComputeSelfTime(fiber: Fiber) returns (selfTime: real)
    ensures selfTime == SelfTime(fiber)
  {
    selfTime := fiber.actualDuration;
    if fiber.alternate.None? || !fiber.alternate.value.sameChild {
      var children := fiber.childDurations;
      var i := 0;
      while i < |children|
        invariant 0 <= i <= |children|
        invariant selfTime == fiber.actualDuration - Sum(children[..i])
      {
        assert children[..i + 1][..i] == children[..i];
        selfTime := selfTime - children[i];
        i := i + 1;
      }
      assert children[..i] == children;
    }
  }

  lemma {:induction false} SumNonNegative(ds: seq<real>)
    requires forall i :: 0 <= i < |ds| ==> ds[i] >= 0.0
    ensures Sum(ds) >= 0.0
  {
    if ds != [] {
      SumNonNegative(ds[..|ds| - 1]);
    }
  }

  /**
   * With non-negative child durations the self time never exceeds the actual duration;
   * an unchanged child list keeps the actual duration as it is.
   */
  lemma SelfTimeBounds(fiber: Fiber)
    requires forall i :: 0 <= i < |fiber.childDurations| ==> fiber.childDurations[i] >= 0.0
    ensures SelfTime(fiber) <= fiber.actualDuration
    ensures !RecomputesChildren(fiber) ==> SelfTime(fiber) == fiber.actualDuration
  {
    SumNonNegative(fiber.childDurations);
  }

  /** Whether the development path diffs the props: an update whose props object changed. */
  predicate DiffsProps(fiber: Fiber)
  {
    fiber.hasProps && fiber.alternate.Some? && !fiber.alternate.value.sameProps
  }

  /**
   * The deep-equality warning of the development path (ReactFiberPerformanceTrack.js:325-335).
   * The "already warned" condition is not consulted; the threshold compares the actual
   * duration, not the self time.
   */
  predicate DeepEqualityWarning(env: Env, fiber: Fiber, committedLanes: Lanes)
  {
    && env.dev
    && DiffsProps(fiber)
    && |fiber.propsDiff.entries| > 1
    && fiber.propsDiff.isDeeplyEqual
    && !env.lanes.includesSomeLane(fiber.alternate.value.lanes, committedLanes)
    && fiber.actualDuration > 100.0
  }

  /** The spans `logComponentRender` emits (ReactFiberPerformanceTrack.js:265-444). */
  function ComponentRenderSpans(env: Env, fiber: Fiber, startTime: real, endTime: real,
                                wasHydrated: bool, committedLanes: Lanes): (r: seq<Span>)
    ensures |r| == (if fiber.componentName.Some? then 1 else 0)
    ensures r != [] ==> r[0].name == fiber.componentName.value && r[0].category == ReactComponent
                        && r[0].startTime == startTime && r[0].endTime == endTime && !r[0].error
    ensures r != [] && !env.dev ==> r[0].details == Some(ColorOnly(RenderColor(SelfTime(fiber), wasHydrated)))
    ensures r != [] && env.dev ==>
      (r[0].details.Some? <==> DiffsProps(fiber) && |fiber.propsDiff.entries| > 1)
    ensures r != [] && r[0].details.Some? && env.dev ==>
      && r[0].details.value.isDeeplyEqualAndUserShouldSeeWarning
         == Some(DeepEqualityWarning(env, fiber, committedLanes))
      && r[0].details.value.changedPropertyEntries == Some(fiber.propsDiff.entries)
      && r[0].details.value.color.None?
  {
    match fiber.componentName
    case None => []
    case Some(name) =>
      if !env.dev then
        [Span(name, ReactComponent, startTime, endTime,
              Some(ColorOnly(RenderColor(SelfTime(fiber), wasHydrated))), false)]
      else if DiffsProps(fiber) && |fiber.propsDiff.entries| > 1 then
        var warn := fiber.propsDiff.isDeeplyEqual
                    && !env.lanes.includesSomeLane(fiber.alternate.value.lanes, committedLanes)
                    && fiber.actualDuration > 100.0;
        [Span(name, ReactComponent, startTime, endTime,
              Some(Details(None, None, None, None, None, Some(warn), Some(fiber.propsDiff.entries), None)),
              false)]
      else
        [Span(name, ReactComponent, startTime, endTime, None, false)]
  }

  /** One `[key, message]` entry per captured error, in order. */
  function ErrorProperties(key: string, messages: seq<string>): (props: seq<Property>)
    ensures |props| == |messages|
    ensures forall i :: 0 <= i < |messages| ==> props[i] == Property(key, messages[i])
  {
    seq(|messages|, i requires 0 <= i < |messages| => Property(key, messages[i]))
  }

  /** The error loops (ReactFiberPerformanceTrack.js:464-476, 1207-1219, 1394-1406). */
  method CollectErrorProperties(key: string, messages: seq<string>) returns (props: seq<Property>)
    ensures props == ErrorProperties(key, messages)
  {
    props := [];
    var i := 0;
    while i < |messages|
      invariant 0 <= i <= |messages|
      invariant props == ErrorProperties(key, messages[..i])
    {
      props := props + [Property(key, messages[i])];
      i := i + 1;
    }
    assert messages[..i] == messages;
  }

  /** The property list of a component error span: the errors, then the key, then the props. */
  function ComponentErrorProperties(fiber: Fiber, messages: seq<string>): (props: seq<Property>)
    ensures |props| >= |messages|
    ensures props[..|messages|] == ErrorProperties("Error", messages)
    ensures props[|messages|..] == (if fiber.key.Some? then fiber.keyEntries else [])
                                   + (if fiber.hasProps then fiber.propsEntries else [])
  {
    ErrorProperties("Error", messages)
    + (if fiber.key.Some? then fiber.keyEntries else [])
    + (if fiber.hasProps then fiber.propsEntries else [])
  }

  /**
   * The span of a component whose render or effect errored
   * (ReactFiberPerformanceTrack.js:456-517, 529-586): error-coloured and flagged as an
   * error; the development build adds the tooltip and the properties.
   */
  function ErroredComponentSpans(env: Env, fiber: Fiber, startTime: real, endTime: real,
                                 messages: seq<string>, tooltip: string): (r: seq<Span>)
    ensures |r| == (if fiber.componentName.Some? then 1 else 0)
    ensures r != [] ==> r[0].name == fiber.componentName.value && r[0].category == ReactComponent
                        && r[0].startTime == startTime && r[0].endTime == endTime
                        && r[0].error && SpanColor(r[0]) == Some(Error)
    ensures r != [] && env.dev ==>
      && r[0].details.value.tooltipText == Some(tooltip)
      && SpanProperties(r[0]) == Some(ComponentErrorProperties(fiber, messages))
    ensures r != [] && !env.dev ==> r[0].details == Some(ColorOnly(Error))
  {
    match fiber.componentName
    case None => []
    case Some(name) =>
      if env.dev then
        [Span(name, ReactComponent, startTime, endTime,
              Some(Details(None, Some(Error), Some(tooltip), Some(ComponentErrorProperties(fiber, messages)),
                           None, None, None, None)),
              true)]
      else
        [Span(name, ReactComponent, startTime, endTime, Some(ColorOnly(Error)), true)]
  }

  /** Tooltip of `logComponentErrored` (ReactFiberPerformanceTrack.js:493-496). */
  function ComponentErroredTooltip(fiber: Fiber): (tooltip: string)
    ensures tooltip == "Hydration failed" <==> fiber.tag == SuspenseComponent
    ensures tooltip == "Error boundary caught an error" <==> fiber.tag != SuspenseComponent
  {
    if fiber.tag == SuspenseComponent then "Hydration failed" else "Error boundary caught an error"
  }

  /** Tooltip of the effect-errored logger (ReactFiberPerformanceTrack.js:565). */
  const EffectErroredTooltip: string := "A lifecycle or effect errored"

  /**
   * The spans `logComponentEffect` emits (ReactFiberPerformanceTrack.js:599-630): errors go
   * to the effect-errored span, otherwise one span coloured by self time.
   */
  function ComponentEffectSpans(env: Env, fiber: Fiber, startTime: real, endTime: real,
                                selfTime: real, errors: Option<seq<string>>): (r: seq<Span>)
    ensures errors.Some? ==>
      r == ErroredComponentSpans(env, fiber, startTime, endTime, errors.value, EffectErroredTooltip)
    ensures errors.None? ==> |r| == (if fiber.componentName.Some? then 1 else 0)
    ensures errors.None? && r != [] ==>
      && r[0].name == fiber.componentName.value && r[0].category == ReactComponent && !r[0].error
      && r[0].startTime == startTime && r[0].endTime == endTime
      && SpanColor(r[0]) == Some(EffectColor(selfTime))
      && r[0].details.value.selfTime == Some(selfTime)
  {
    if errors.Some? then
      ErroredComponentSpans(env, fiber, startTime, endTime, errors.value, EffectErroredTooltip)
    else match fiber.componentName
      case None => []
      case Some(name) =>
        [Span(name, ReactComponent, startTime, endTime,
              Some(Details(None, Some(EffectColor(selfTime)), None, None, Some(selfTime), None, None, None)),
              false)]
  }

  /**
   * The span of `logComponentTrigger` (mount, unmount, reconnect, disconnect;
   * ReactFiberPerformanceTrack.js:143-205): named by the trigger, with no additional data.
   */
  function TriggerSpan(trigger: string, startTime: real, endTime: real): Span
  {
    Span(trigger, ReactComponent, startTime, endTime, None, false)
  }

  /** The span `logYieldTime` emits, if any (ReactFiberPerformanceTrack.js:637-667). */
  function YieldSpans(startTime: real, endTime: real): (r: seq<Span>)
    ensures |r| <= 1
    ensures r == [] <==> endTime - startTime < YieldFloor
    ensures r != [] ==> r[0].name == "Blocked" && r[0].category == ReactComponent
                        && r[0].startTime == startTime && r[0].endTime == endTime
                        && SpanColor(r[0]) == Some(YieldColor(endTime - startTime))
  {
    var yieldDuration := endTime - startTime;
    if yieldDuration < YieldFloor then []
    else [Span("Blocked", ReactComponent, startTime, endTime, Some(ColorOnly(YieldColor(yieldDuration))), false)]
  }

  /** Yields of 2.9 units are skipped; 3.1 units are logged in the lightest colour. */
  lemma YieldFloorExamples(t: real)
    ensures YieldSpans(t, t + 2.9) == []
    ensures var r := YieldSpans(t, t + 3.1); |r| == 1 && SpanColor(r[0]) == Some(PrimaryLight)
  {
  }

  /** The fixed-colour yield spans of `logSuspendedYieldTime` and `logActionYieldTime`. */
  function FixedYieldSpan(name: string, startTime: real, endTime: real): Span
  {
    Span(name, ReactComponent, startTime, endTime, Some(ColorOnly(PrimaryLight)), false)
  }
}
