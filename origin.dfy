/**
 * The update-origin loggers (`logBlockingStart`, `logGestureStart`,
 * `logTransitionStart`) as functions from their inputs to the spans they emit,
 * once the tracking service is bound and user timing is supported.
 */
module Origin {
  import opened Wrappers
  import opened SpanModel
  import opened Lanes
  import opened Environment
  import opened Classify

  /**
   * Clamp a stage's timestamp against the next stage's (ReactFiberPerformanceTrack.js:738-744):
   * a missing (non-positive) time takes the next stage's time, and a time after it is
   * pulled back to it.
   */
  function ClampTo(t: real, bound: real): (r: real)
    ensures r <= bound
    ensures t <= 0.0 ==> r == bound
    ensures 0.0 < t <= bound ==> r == t
    ensures t > bound ==> r == bound
  {
    if t > 0.0 then (if t > bound then bound else t) else bound
  }

  /** The track each origin logger switches to (ReactFiberPerformanceTrack.js:736, 847, 945). */
  const BlockingTrack: string := "Blocking"
  const GestureTrack: string := "Gesture"
  const TransitionTrack: string := "Transition"

  /**
   * The event span from the event's time stamp to the next stage
   * (ReactFiberPerformanceTrack.js:755-771): only for a known event type and a positive gap.
   */
  function EventSpans(track: string, eventType: Option<string>, eventIsRepeat: bool,
                      eventTime: real, nextTime: real): (r: seq<Span>)
    ensures |r| <= 1
    ensures r != [] <==> eventType.Some? && nextTime > eventTime
    ensures r != [] ==> r[0] == Span(EventLabel(eventType.value, eventIsRepeat), ReactScheduler,
                                     eventTime, nextTime,
                                     Some(TrackColor(track, EventColor(eventIsRepeat))), false)
  {
    if eventType.Some? && nextTime > eventTime then
      [Span(EventLabel(eventType.value, eventIsRepeat), ReactScheduler, eventTime, nextTime,
            Some(TrackColor(track, EventColor(eventIsRepeat))), false)]
    else []
  }

  /** The development-build properties naming who scheduled the update (ReactFiberPerformanceTrack.js:788-794). */
  function UpdateProperties(updateComponentName: Option<string>, updateMethodName: Option<string>)
    : (props: seq<Property>)
    ensures |props| == (if updateComponentName.Some? then 1 else 0) + (if updateMethodName.Some? then 1 else 0)
    ensures updateComponentName.Some? ==> props[0] == Property("Component name", updateComponentName.value)
    ensures updateMethodName.Some? ==> props[|props| - 1] == Property("Method name", updateMethodName.value)
  {
    (if updateComponentName.Some? then [Property("Component name", updateComponentName.value)] else [])
    + (if updateMethodName.Some? then [Property("Method name", updateMethodName.value)] else [])
  }

  /** The additional data of an update span: properties (and an issue) only in a development build. */
  function UpdateDetails(env: Env, track: string, color: Color, props: seq<Property>, issue: Option<Issue>)
    : Details
  {
    if env.dev then Details(Some(track), Some(color), None, Some(props), None, None, None, issue)
    else TrackColor(track, color)
  }

  /** The cascading-update issue is attached only in a development build with issue reporting on. */
  function CascadingIssue(env: Env, isSpawnedUpdate: bool): (issue: Option<Issue>)
    ensures issue.Some? <==> env.dev && env.enablePerformanceIssueReporting && isSpawnedUpdate
  {
    if env.dev && env.enablePerformanceIssueReporting && isSpawnedUpdate then Some(CascadingUpdate) else None
  }

  /**
   * The update span from the (clamped) update time to the render start
   * (ReactFiberPerformanceTrack.js:772-828): only for a positive gap; properties and the
   * issue marker only in a development build.
   */
  function UpdateSpans(env: Env, track: string, name: string, color: Color, issue: Option<Issue>,
                       updateTime: real, renderStartTime: real,
                       updateMethodName: Option<string>, updateComponentName: Option<string>): (r: seq<Span>)
    ensures |r| <= 1
    ensures r != [] <==> renderStartTime > updateTime
    ensures r != [] ==> && r[0].name == name && r[0].category == ReactScheduler && !r[0].error
                        && r[0].startTime == updateTime && r[0].endTime == renderStartTime
                        && SpanColor(r[0]) == Some(color) && SpanTrack(r[0]) == Some(track)
                        && SpanProperties(r[0])
                           == (if env.dev then Some(UpdateProperties(updateComponentName, updateMethodName)) else None)
                        && r[0].details.value.performanceIssue == (if env.dev then issue else None)
  {
    if renderStartTime > updateTime then
      [Span(name, ReactScheduler, updateTime, renderStartTime,
            Some(UpdateDetails(env, track, color, UpdateProperties(updateComponentName, updateMethodName), issue)),
            false)]
    else []
  }

  /** The spans `logBlockingStart` emits (ReactFiberPerformanceTrack.js:735-829). */
  function BlockingStartSpans(
    env: Env, updateTime: real, eventTime: real, eventType: Option<string>, eventIsRepeat: bool,
    isSpawnedUpdate: bool, isPingedUpdate: bool, renderStartTime: real, lanes: Lanes,
    updateMethodName: Option<string>, updateComponentName: Option<string>): seq<Span>
  {
    var update := ClampTo(updateTime, renderStartTime);
    var event := ClampTo(eventTime, update);
    EventSpans(BlockingTrack, eventType, eventIsRepeat, event, update)
    + UpdateSpans(env, BlockingTrack, BlockingUpdateLabel(isPingedUpdate, isSpawnedUpdate, renderStartTime - update),
                  BlockingUpdateColor(env.lanes, isSpawnedUpdate, lanes), CascadingIssue(env, isSpawnedUpdate),
                  update, renderStartTime, updateMethodName, updateComponentName)
  }

  /** The spans `logGestureStart` emits (ReactFiberPerformanceTrack.js:846-925). */
  function GestureStartSpans(
    env: Env, updateTime: real, eventTime: real, eventType: Option<string>, eventIsRepeat: bool,
    isPingedUpdate: bool, renderStartTime: real,
    updateMethodName: Option<string>, updateComponentName: Option<string>): seq<Span>
  {
    var update := ClampTo(updateTime, renderStartTime);
    var event := ClampTo(eventTime, update);
    EventSpans(GestureTrack, eventType, eventIsRepeat, event, update)
    + UpdateSpans(env, GestureTrack, GestureUpdateLabel(isPingedUpdate, renderStartTime - update), PrimaryLight, None,
                  update, renderStartTime, updateMethodName, updateComponentName)
  }

  /** The action span of a transition, from its start to its update (ReactFiberPerformanceTrack.js:986-1002). */
  function ActionSpans(startTime: real, updateTime: real): (r: seq<Span>)
    ensures |r| <= 1 && (r != [] <==> updateTime > startTime)
    ensures r != [] ==> && r[0].name == "Action" && r[0].category == ReactScheduler
                        && r[0].startTime == startTime && r[0].endTime == updateTime
                        && r[0].details == Some(TrackColor(TransitionTrack, PrimaryDark))
  {
    if updateTime > startTime then
      [Span("Action", ReactScheduler, startTime, updateTime, Some(TrackColor(TransitionTrack, PrimaryDark)), false)]
    else []
  }

  /** The spans `logTransitionStart` emits (ReactFiberPerformanceTrack.js:944-1047). */
  function TransitionStartSpans(
    env: Env, startTime: real, updateTime: real, eventTime: real, eventType: Option<string>,
    eventIsRepeat: bool, isPingedUpdate: bool, renderStartTime: real,
    updateMethodName: Option<string>, updateComponentName: Option<string>): seq<Span>
  {
    var update := ClampTo(updateTime, renderStartTime);
    var start := ClampTo(startTime, update);
    var event := ClampTo(eventTime, start);
    EventSpans(TransitionTrack, eventType, eventIsRepeat, event, start)
    + ActionSpans(start, update)
    + UpdateSpans(env, TransitionTrack, TransitionUpdateLabel(isPingedUpdate, renderStartTime - update), PrimaryLight,
                  None, update, renderStartTime, updateMethodName, updateComponentName)
  }

  /**
   * Spans that tile a stretch of time ending at `end`: each has positive width, each
   * starts where the previous one ends, and the last one ends at `end`.
   */
  predicate Chained(spans: seq<Span>, end: real)
  {
    && (forall i :: 0 <= i < |spans| ==> spans[i].startTime < spans[i].endTime)
    && (forall i :: 0 < i < |spans| ==> spans[i - 1].endTime == spans[i].startTime)
    && (spans != [] ==> spans[|spans| - 1].endTime == end)
  }

  /** Every span is a scheduler span on `track`. */
  predicate OnTrack(spans: seq<Span>, track: string)
  {
    forall i :: 0 <= i < |spans| ==> spans[i].category == ReactScheduler && SpanTrack(spans[i]) == Some(track)
  }

  /** Clamping puts the three blocking/gesture stages in causal order. */
  lemma BlockingClampOrder(updateTime: real, eventTime: real, renderStartTime: real)
    ensures var update := ClampTo(updateTime, renderStartTime);
            var event := ClampTo(eventTime, update);
            && event <= update <= renderStartTime
            && (updateTime <= 0.0 ==> update == renderStartTime)
            && (eventTime <= 0.0 ==> event == update)
            && (0.0 < eventTime <= updateTime <= renderStartTime ==> event == eventTime && update == updateTime)
  {
  }

  /** Clamping puts the four transition stages in causal order. */
  lemma TransitionClampOrder(startTime: real, updateTime: real, eventTime: real, renderStartTime: real)
    ensures var update := ClampTo(updateTime, renderStartTime);
            var start := ClampTo(startTime, update);
            var event := ClampTo(eventTime, start);
            && event <= start <= update <= renderStartTime
            && (updateTime <= 0.0 ==> update == renderStartTime)
            && (startTime <= 0.0 ==> start == update)
            && (eventTime <= 0.0 ==> event == start)
  {
  }

  /** The blocking spans tile the time up to the render start, all on the blocking track. */
  lemma BlockingStartChained(
    env: Env, updateTime: real, eventTime: real, eventType: Option<string>, eventIsRepeat: bool,
    isSpawnedUpdate: bool, isPingedUpdate: bool, renderStartTime: real, lanes: Lanes,
    updateMethodName: Option<string>, updateComponentName: Option<string>)
    ensures var r := BlockingStartSpans(env, updateTime, eventTime, eventType, eventIsRepeat,
                                        isSpawnedUpdate, isPingedUpdate, renderStartTime, lanes,
                                        updateMethodName, updateComponentName);
            |r| <= 2 && Chained(r, renderStartTime) && OnTrack(r, BlockingTrack)
  {
    var update := ClampTo(updateTime, renderStartTime);
    var event := ClampTo(eventTime, update);
    var ev := EventSpans(BlockingTrack, eventType, eventIsRepeat, event, update);
    var up := UpdateSpans(env, BlockingTrack, BlockingUpdateLabel(isPingedUpdate, isSpawnedUpdate, renderStartTime - update),
                          BlockingUpdateColor(env.lanes, isSpawnedUpdate, lanes), CascadingIssue(env, isSpawnedUpdate),
                          update, renderStartTime, updateMethodName, updateComponentName);
    assert Chained(ev, update) && OnTrack(ev, BlockingTrack);
    assert Chained(up, renderStartTime) && OnTrack(up, BlockingTrack);
    ChainedAppend(ev, update, up, renderStartTime, BlockingTrack);
  }

  /** The gesture spans tile the time up to the render start, all on the gesture track. */
  lemma GestureStartChained(
    env: Env, updateTime: real, eventTime: real, eventType: Option<string>, eventIsRepeat: bool,
    isPingedUpdate: bool, renderStartTime: real,
    updateMethodName: Option<string>, updateComponentName: Option<string>)
    ensures var r := GestureStartSpans(env, updateTime, eventTime, eventType, eventIsRepeat,
                                       isPingedUpdate, renderStartTime, updateMethodName, updateComponentName);
            |r| <= 2 && Chained(r, renderStartTime) && OnTrack(r, GestureTrack)
  {
    var update := ClampTo(updateTime, renderStartTime);
    var event := ClampTo(eventTime, update);
    var ev := EventSpans(GestureTrack, eventType, eventIsRepeat, event, update);
    var up := UpdateSpans(env, GestureTrack, GestureUpdateLabel(isPingedUpdate, renderStartTime - update), PrimaryLight,
                          None, update, renderStartTime, updateMethodName, updateComponentName);
    assert Chained(ev, update) && OnTrack(ev, GestureTrack);
    assert Chained(up, renderStartTime) && OnTrack(up, GestureTrack);
    ChainedAppend(ev, update, up, renderStartTime, GestureTrack);
  }

  /** The transition spans (event, action, update) tile the time up to the render start. */
  lemma TransitionStartChained(
    env: Env, startTime: real, updateTime: real, eventTime: real, eventType: Option<string>,
    eventIsRepeat: bool, isPingedUpdate: bool, renderStartTime: real,
    updateMethodName: Option<string>, updateComponentName: Option<string>)
    ensures var r := TransitionStartSpans(env, startTime, updateTime, eventTime, eventType, eventIsRepeat,
                                          isPingedUpdate, renderStartTime, updateMethodName, updateComponentName);
            |r| <= 3 && Chained(r, renderStartTime) && OnTrack(r, TransitionTrack)
  {
    var update := ClampTo(updateTime, renderStartTime);
    var start := ClampTo(startTime, update);
    var event := ClampTo(eventTime, start);
    var ev := EventSpans(TransitionTrack, eventType, eventIsRepeat, event, start);
    var up := UpdateSpans(env, TransitionTrack, TransitionUpdateLabel(isPingedUpdate, renderStartTime - update),
                          PrimaryLight, None, update, renderStartTime, updateMethodName, updateComponentName);
    var action := ActionSpans(start, update);
    assert Chained(ev, start) && OnTrack(ev, TransitionTrack);
    assert Chained(action, update) && OnTrack(action, TransitionTrack);
    assert Chained(up, renderStartTime) && OnTrack(up, TransitionTrack);
    ChainedAppend(ev, start, action, update, TransitionTrack);
    ChainedAppend(ev + action, update, up, renderStartTime, TransitionTrack);
  }

  /**
   * Gluing two tilings: the second starts where the first ends (or the first is empty
   * and collapses onto the second's start).
   */
  lemma ChainedAppend(a: seq<Span>, aEnd: real, b: seq<Span>, bEnd: real, track: string)
    requires Chained(a, aEnd) && Chained(b, bEnd) && OnTrack(a, track) && OnTrack(b, track)
    requires |b| <= 1 && aEnd <= bEnd
    requires b != [] ==> b[0].startTime == aEnd
    requires b == [] ==> aEnd == bEnd
    ensures Chained(a + b, bEnd) && OnTrack(a + b, track)
  {
  }

  /**
   * A spawned update is always coloured as an error, even when its label says the
   * update came from a resolved promise; the issue marker needs a development build
   * with issue reporting on.
   */
  lemma SpawnedUpdateIsError(
    env: Env, updateTime: real, eventTime: real, eventType: Option<string>, eventIsRepeat: bool,
    isPingedUpdate: bool, renderStartTime: real, lanes: Lanes,
    updateMethodName: Option<string>, updateComponentName: Option<string>)
    requires 0.0 < updateTime < renderStartTime
    ensures var r := BlockingStartSpans(env, updateTime, eventTime, eventType, eventIsRepeat,
                                        true, isPingedUpdate, renderStartTime, lanes,
                                        updateMethodName, updateComponentName);
            && r != []
            && r[|r| - 1].startTime == updateTime && r[|r| - 1].endTime == renderStartTime
            && SpanColor(r[|r| - 1]) == Some(Error)
            && r[|r| - 1].name == (if isPingedUpdate then "Promise Resolved" else "Cascading Update")
            && (r[|r| - 1].details.value.performanceIssue.Some?
                <==> env.dev && env.enablePerformanceIssueReporting)
  {
    var ev := EventSpans(BlockingTrack, eventType, eventIsRepeat, ClampTo(eventTime, updateTime), updateTime);
    var r := BlockingStartSpans(env, updateTime, eventTime, eventType, eventIsRepeat,
                                true, isPingedUpdate, renderStartTime, lanes,
                                updateMethodName, updateComponentName);
    assert r[|r| - 1] == r[|ev|];
  }

  /**
   * Missing (non-positive) update and event times collapse onto the render start, so
   * no origin logger emits anything, whatever the render start time; for a transition
   * the action's start time must be missing too.
   */
  lemma MissingTimesEmitNothing(
    env: Env, startTime: real, updateTime: real, eventTime: real, eventType: Option<string>, eventIsRepeat: bool,
    isSpawnedUpdate: bool, isPingedUpdate: bool, renderStartTime: real, lanes: Lanes,
    updateMethodName: Option<string>, updateComponentName: Option<string>)
    requires updateTime <= 0.0 && eventTime <= 0.0
    ensures BlockingStartSpans(env, updateTime, eventTime, eventType, eventIsRepeat, isSpawnedUpdate, isPingedUpdate,
                               renderStartTime, lanes, updateMethodName, updateComponentName) == []
    ensures GestureStartSpans(env, updateTime, eventTime, eventType, eventIsRepeat, isPingedUpdate,
                              renderStartTime, updateMethodName, updateComponentName) == []
    ensures startTime <= 0.0 ==>
              TransitionStartSpans(env, startTime, updateTime, eventTime, eventType, eventIsRepeat, isPingedUpdate,
                                   renderStartTime, updateMethodName, updateComponentName) == []
  {
  }

  /**
   * The cascading-update issue marker sits on the blocking update span exactly when the
   * update was spawned in a development build with issue reporting on.
   */
  lemma CascadingIssueMarker(
    env: Env, updateTime: real, eventTime: real, eventType: Option<string>, eventIsRepeat: bool,
    isSpawnedUpdate: bool, isPingedUpdate: bool, renderStartTime: real, lanes: Lanes,
    updateMethodName: Option<string>, updateComponentName: Option<string>)
    requires 0.0 < updateTime < renderStartTime
    ensures var r := BlockingStartSpans(env, updateTime, eventTime, eventType, eventIsRepeat,
                                        isSpawnedUpdate, isPingedUpdate, renderStartTime, lanes,
                                        updateMethodName, updateComponentName);
            && r != [] && r[|r| - 1].startTime == updateTime
            && (r[|r| - 1].details.value.performanceIssue.Some?
                <==> env.dev && env.enablePerformanceIssueReporting && isSpawnedUpdate)
  {
    var ev := EventSpans(BlockingTrack, eventType, eventIsRepeat, ClampTo(eventTime, updateTime), updateTime);
    var r := BlockingStartSpans(env, updateTime, eventTime, eventType, eventIsRepeat,
                                isSpawnedUpdate, isPingedUpdate, renderStartTime, lanes,
                                updateMethodName, updateComponentName);
    assert r[|r| - 1] == r[|ev|];
  }

  /** A spawned update six units before the render is a cascading update, not a blocked one. */
  lemma SpawnedGapOfSix(env: Env, lanes: Lanes)
    ensures var r := BlockingStartSpans(env, 10.0, 10.0, None, false, true, false, 16.0, lanes, None, None);
            |r| == 1 && r[0].name == "Cascading Update" && SpanColor(r[0]) == Some(Error)
  {
  }
}
