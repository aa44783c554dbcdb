/**
 * The pure choices the loggers make: duration buckets that pick a colour and the
 * labels picked from lane predicates and update flags.
 */
module Classify {
  import opened SpanModel
  import opened Lanes

  /** Position of a colour inside its family: light, base, dark, then the shared error colour. */
  function Severity(c: Color): nat
  {
    match c
    case PrimaryLight | SecondaryLight | TertiaryLight => 0
    case Primary | Secondary | Tertiary => 1
    case PrimaryDark | SecondaryDark | TertiaryDark => 2
    case Warning => 2
    case Error => 3
  }

  /** The bucket index of a duration against three exclusive upper bounds. */
  function Bucket(d: real, t1: real, t2: real, t3: real): (b: nat)
    requires t1 <= t2 <= t3
    ensures b <= 3
    ensures b == 0 <==> d < t1
    ensures b == 3 <==> t3 <= d
    ensures b == 1 <==> t1 <= d < t2
  {
    if d < t1 then 0 else if d < t2 then 1 else if d < t3 then 2 else 3
  }

  /** Colour of a component render span by self time (ReactFiberPerformanceTrack.js:278-291). */
  function RenderColor(selfTime: real, wasHydrated: bool): (c: Color)
    ensures Severity(c) == Bucket(selfTime, 0.5, 10.0, 100.0)
    ensures c == Error || c in (if wasHydrated then {TertiaryLight, Tertiary, TertiaryDark}
                                else {PrimaryLight, Primary, PrimaryDark})
  {
    if selfTime < 0.5 then (if wasHydrated then TertiaryLight else PrimaryLight)
    else if selfTime < 10.0 then (if wasHydrated then Tertiary else Primary)
    else if selfTime < 100.0 then (if wasHydrated then TertiaryDark else PrimaryDark)
    else Error
  }

  /** Colour of a component effect span by self time (ReactFiberPerformanceTrack.js:609-616). */
  function EffectColor(selfTime: real): (c: Color)
    ensures Severity(c) == Bucket(selfTime, 1.0, 100.0, 500.0)
    ensures c in {SecondaryLight, Secondary, SecondaryDark, Error}
  {
    if selfTime < 1.0 then SecondaryLight
    else if selfTime < 100.0 then Secondary
    else if selfTime < 500.0 then SecondaryDark
    else Error
  }

  /** Yields shorter than this are not logged (ReactFiberPerformanceTrack.js:639). */
  const YieldFloor: real := 3.0

  /** Colour of a logged yield by its duration (ReactFiberPerformanceTrack.js:644-651). */
  function YieldColor(yieldDuration: real): (c: Color)
    ensures Severity(c) == Bucket(yieldDuration, 5.0, 10.0, 100.0)
    ensures c in {PrimaryLight, Primary, PrimaryDark, Error}
  {
    if yieldDuration < 5.0 then PrimaryLight
    else if yieldDuration < 10.0 then Primary
    else if yieldDuration < 100.0 then PrimaryDark
    else Error
  }

  /** A longer duration never gets a milder render colour, and hydration does not move the boundaries. */
  lemma RenderColorMonotone(a: real, b: real, wasHydrated: bool)
    requires a <= b
    ensures Severity(RenderColor(a, wasHydrated)) <= Severity(RenderColor(b, wasHydrated))
    ensures Severity(RenderColor(a, true)) == Severity(RenderColor(a, false))
  {
  }

  /** A longer effect never gets a milder colour. */
  lemma EffectColorMonotone(a: real, b: real)
    requires a <= b
    ensures Severity(EffectColor(a)) <= Severity(EffectColor(b))
  {
  }

  /** A longer yield never gets a milder colour. */
  lemma YieldColorMonotone(a: real, b: real)
    requires a <= b
    ensures Severity(YieldColor(a)) <= Severity(YieldColor(b))
  {
  }

  /** A duration exactly on a threshold falls into the stricter bucket. */
  lemma ThresholdsAreExclusive()
    ensures RenderColor(0.5, false) == Primary && RenderColor(10.0, false) == PrimaryDark
    ensures RenderColor(100.0, false) == Error && RenderColor(100.0, true) == Error
    ensures RenderColor(0.5, true) == Tertiary && RenderColor(10.0, true) == TertiaryDark
    ensures EffectColor(1.0) == Secondary && EffectColor(100.0) == SecondaryDark
    ensures EffectColor(500.0) == Error
    ensures YieldColor(5.0) == Primary && YieldColor(10.0) == PrimaryDark && YieldColor(100.0) == Error
  {
  }

  /** Colour of the render-phase spans: tertiary for background (hydration or offscreen) work. */
  function PhaseColor(h: LaneHelpers, lanes: Lanes): (c: Color)
    ensures c == TertiaryDark <==> h.includesOnlyHydrationOrOffscreenLanes(lanes)
    ensures c != TertiaryDark ==> c == PrimaryDark
  {
    if h.includesOnlyHydrationOrOffscreenLanes(lanes) then TertiaryDark else PrimaryDark
  }

  /** Label of a completed render phase (ReactFiberPerformanceTrack.js:1067-1071). */
  function RenderLabel(h: LaneHelpers, lanes: Lanes): (name: string)
    ensures name == "Prepared" <==> h.includesOnlyOffscreenLanes(lanes)
    ensures name == "Hydrated" <==>
      !h.includesOnlyOffscreenLanes(lanes) && h.includesOnlyHydrationLanes(lanes)
    ensures name == "Render" <==>
      !h.includesOnlyOffscreenLanes(lanes) && !h.includesOnlyHydrationLanes(lanes)
  {
    if h.includesOnlyOffscreenLanes(lanes) then "Prepared"
    else if h.includesOnlyHydrationLanes(lanes) then "Hydrated"
    else "Render"
  }

  /** Label of an interrupted render phase (ReactFiberPerformanceTrack.js:1104-1108). */
  function InterruptedRenderLabel(h: LaneHelpers, lanes: Lanes): (name: string)
    ensures name == "Prewarm" <==> h.includesOnlyOffscreenLanes(lanes)
    ensures name == "Interrupted Hydration" <==>
      !h.includesOnlyOffscreenLanes(lanes) && h.includesOnlyHydrationLanes(lanes)
    ensures name == "Interrupted Render" <==>
      !h.includesOnlyOffscreenLanes(lanes) && !h.includesOnlyHydrationLanes(lanes)
  {
    if h.includesOnlyOffscreenLanes(lanes) then "Prewarm"
    else if h.includesOnlyHydrationLanes(lanes) then "Interrupted Hydration"
    else "Interrupted Render"
  }

  /** A gap between update and render longer than this reads as blocked. */
  const BlockedGap: real := 5.0

  /** Label of the blocking update span (ReactFiberPerformanceTrack.js:779-785). */
  function BlockingUpdateLabel(isPingedUpdate: bool, isSpawnedUpdate: bool, gap: real): (name: string)
    ensures name == "Promise Resolved" <==> isPingedUpdate
    ensures name == "Cascading Update" <==> !isPingedUpdate && isSpawnedUpdate
    ensures name == "Update Blocked" <==> !isPingedUpdate && !isSpawnedUpdate && gap > BlockedGap
    ensures name == "Update" <==> !isPingedUpdate && !isSpawnedUpdate && gap <= BlockedGap
  {
    if isPingedUpdate then "Promise Resolved"
    else if isSpawnedUpdate then "Cascading Update"
    else if gap > BlockedGap then "Update Blocked"
    else "Update"
  }

  /** Colour of the blocking update span (ReactFiberPerformanceTrack.js:774-778). */
  function BlockingUpdateColor(h: LaneHelpers, isSpawnedUpdate: bool, lanes: Lanes): (c: Color)
    ensures c == Error <==> isSpawnedUpdate
    ensures c == TertiaryLight <==> !isSpawnedUpdate && h.includesOnlyHydrationOrOffscreenLanes(lanes)
    ensures c == PrimaryLight <==> !isSpawnedUpdate && !h.includesOnlyHydrationOrOffscreenLanes(lanes)
  {
    if isSpawnedUpdate then Error
    else if h.includesOnlyHydrationOrOffscreenLanes(lanes) then TertiaryLight
    else PrimaryLight
  }

  /** Label of the gesture update span (ReactFiberPerformanceTrack.js:883-887). */
  function GestureUpdateLabel(isPingedUpdate: bool, gap: real): (name: string)
    ensures name == "Promise Resolved" <==> isPingedUpdate
    ensures name == "Gesture Blocked" <==> !isPingedUpdate && gap > BlockedGap
    ensures name == "Gesture" <==> !isPingedUpdate && gap <= BlockedGap
  {
    if isPingedUpdate then "Promise Resolved"
    else if gap > BlockedGap then "Gesture Blocked"
    else "Gesture"
  }

  /** Label of the transition update span (ReactFiberPerformanceTrack.js:1005-1009). */
  function TransitionUpdateLabel(isPingedUpdate: bool, gap: real): (name: string)
    ensures name == "Promise Resolved" <==> isPingedUpdate
    ensures name == "Update Blocked" <==> !isPingedUpdate && gap > BlockedGap
    ensures name == "Update" <==> !isPingedUpdate && gap <= BlockedGap
  {
    if isPingedUpdate then "Promise Resolved"
    else if gap > BlockedGap then "Update Blocked"
    else "Update"
  }

  /** Label of the event span: a repeated event reads as consecutive (ReactFiberPerformanceTrack.js:759). */
  function EventLabel(eventType: string, eventIsRepeat: bool): (name: string)
    ensures eventIsRepeat ==> name == "Consecutive"
    ensures !eventIsRepeat ==> name == "Event: " + eventType && name[7..] == eventType
  {
    if eventIsRepeat then "Consecutive" else "Event: " + eventType
  }

  /** Colour of the event span (ReactFiberPerformanceTrack.js:757). */
  function EventColor(eventIsRepeat: bool): (c: Color)
    ensures c == SecondaryLight <==> eventIsRepeat
    ensures c == Warning <==> !eventIsRepeat
  {
    if eventIsRepeat then SecondaryLight else Warning
  }
}
