/**
 * The values handed to the tracking service: finished spans, their category,
 * their colour token and the additional data attached to them.
 */
module SpanModel {
  import opened Wrappers

  /** The `type` argument of `createFinishedSpan`. */
  datatype Category = ReactComponent | ReactScheduler

  /** The colour tokens the loggers choose from ("primary-light" … "tertiary-dark", "warning", "error"). */
  datatype Color =
    | PrimaryLight | Primary | PrimaryDark
    | SecondaryLight | Secondary | SecondaryDark
    | TertiaryLight | Tertiary | TertiaryDark
    | Warning | Error

  /** One `[key, value]` entry of a span's property list. */
  datatype Property = Property(key: string, value: string)

  /** The cascading-update performance issue payload (its text is not modelled). */
  datatype Issue = CascadingUpdate

  /**
   * The `knownAdditionalData` object; `None` stands for a key the logger does not set
   * (or sets to `undefined`).
   */
  datatype Details = Details(
    track: Option<string>,
    color: Option<Color>,
    tooltipText: Option<string>,
    properties: Option<seq<Property>>,
    selfTime: Option<real>,
    isDeeplyEqualAndUserShouldSeeWarning: Option<bool>,
    changedPropertyEntries: Option<seq<Property>>,
    performanceIssue: Option<Issue>)

  /**
   * One `createFinishedSpan(name, category, startTime, endTime, options)` call.
   * `details` is `None` when no `knownAdditionalData` is passed; `error` is the
   * options' `error` flag (absent reads as false).
   */
  datatype Span = Span(
    name: string,
    category: Category,
    startTime: real,
    endTime: real,
    details: Option<Details>,
    error: bool)

  /** Additional data carrying only a colour. */
  function ColorOnly(color: Color): Details
  {
    Details(None, Some(color), None, None, None, None, None, None)
  }

  /** Additional data carrying a track and a colour, as every scheduler span does. */
  function TrackColor(track: string, color: Color): Details
  {
    Details(Some(track), Some(color), None, None, None, None, None, None)
  }

  /** The colour a span carries, if any. */
  function SpanColor(s: Span): Option<Color>
  {
    if s.details.Some? then s.details.value.color else None
  }

  /** The track a span is attributed to, if any. */
  function SpanTrack(s: Span): Option<string>
  {
    if s.details.Some? then s.details.value.track else None
  }

  /** The property list a span carries, if any. */
  function SpanProperties(s: Span): Option<seq<Property>>
  {
    if s.details.Some? then s.details.value.properties else None
  }
}
