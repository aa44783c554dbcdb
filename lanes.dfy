/**
 * Priority lanes are owned by the scheduler. The logger only asks questions about
 * them through the scheduler's lane helpers, which are given here as a record of
 * functions so that their definitions stay outside the model.
 */
module Lanes {

  /** A set of priority lanes, one bit per lane. */
  type Lanes = bv32

  /** The lane helpers the logger imports from the scheduler. */
  datatype LaneHelpers = LaneHelpers(
    includesOnlyOffscreenLanes: Lanes -> bool,
    includesOnlyHydrationLanes: Lanes -> bool,
    includesOnlyHydrationOrOffscreenLanes: Lanes -> bool,
    includesSomeLane: (Lanes, Lanes) -> bool,
    getGroupNameOfHighestPriorityLane: Lanes -> string)
}
