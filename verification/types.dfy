/** The data model shared by every part of the chart layout: segments and
    stacks, emphasis ranges and links, the representation mode and the
    (immutable) typesetting configuration. */
module ChartTypes {

  /** The source's `None`: an optional value. */
  datatype Option<T> = None | Some(value: T)

  /** The one failure the layout core raises on data it accepts: a division
      by a zero bar total while normalising. */
  datatype Error = ZeroDivision

  datatype Result<T> = Success(value: T) | Failure(error: Error)

  /** One box of a stack, the `[value, label, "#RRGGBB"]` triple; `name` is the label. */
  datatype Segment = Segment(value: real, name: string, color: string)

  /** A stack is listed bottom to top: index 0 is the lowest box. */
  type Stack = seq<Segment>

  /** The `[low, high, label]` triple: inclusive box-index bounds into one
      stack, either of which may be `None`, and an optional wedge caption. */
  datatype Range = Range(low: Option<int>, high: Option<int>, caption: Option<string>)

  /** One wedge between stack k and stack k+1: `source` indexes stack k,
      `dest` indexes stack k+1. */
  datatype Link = Link(source: Range, dest: Range)

  /** The `representation` argument: `None`, or a string such as
      "normalized" or "percentage". */
  datatype Representation = Raw | Named(name: string)

  predicate IsPercentage(rep: Representation)
  {
    rep == Named("percentage")
  }

  /** The height a normalised bar is scaled to: 100 for percentages, else 1. */
  function Scale(rep: Representation): real
  {
    if IsPercentage(rep) then 100.0 else 1.0
  }

  datatype Point = Point(x: real, y: real)

  /** A text placed with its anchor at (x, y). */
  datatype Text = Text(x: real, y: real, text: string)

  /** The numeric and on/off entries of the typesetting dictionary; the
      entries that are only forwarded to the renderer (fonts, line styles,
      z-orders) are not part of the layout. */
  datatype Config = Config(
    boxLabel: bool,
    boxSizeTextCutoff: real,
    boxLabelOffset: real,
    boxBorderGradient: real,
    barLabel: bool,
    barLabelOffset: real,
    relative: bool,
    relativeBoxHOffset: real,
    explodeLabel: bool,
    explodeLabelOffsetLeft: real,
    explodeLabelVOffsetLeft: real,
    explodeLabelOffsetRight: real,
    explodeLabelVOffsetRight: real,
    explodeBg: bool,
    explodeBgXsOffset: real,
    explodeBgYsOffset: real)

  /** The default typesetting values. */
  const DefaultConfig: Config := Config(
    boxLabel := true,
    boxSizeTextCutoff := 1.0,
    boxLabelOffset := 0.2,
    boxBorderGradient := 0.2,
    barLabel := true,
    barLabelOffset := 0.15,
    relative := true,
    relativeBoxHOffset := -0.005,
    explodeLabel := true,
    explodeLabelOffsetLeft := 0.52,
    explodeLabelVOffsetLeft := 0.15,
    explodeLabelOffsetRight := 0.83,
    explodeLabelVOffsetRight := 0.6,
    explodeBg := true,
    explodeBgXsOffset := 0.009,
    explodeBgYsOffset := 0.0013)

  /** The box heights of a stack, bottom to top. */
  function Values(bar: Stack): seq<real>
  {
    seq(|bar|, i requires 0 <= i < |bar| => bar[i].value)
  }
}
