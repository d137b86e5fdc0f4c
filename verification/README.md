# Cascaded exploding bar charts: the layout core in Dafny

`cascadedexplodingbarcharts.py` draws a row of stacked bar charts (stacks).
It "explodes" a range of boxes of one stack into a range of boxes of the
next stack with two dashed lines, optional captions and a shaded wedge. This
project models the numbers behind that picture. Matplotlib only receives
those numbers.

- **Normalizer** (`normalize.dfy`): `normalize_or_percentage_data`. It
  computes the per-bar totals and, for a representation other than `None`,
  rescales every bar to height 1 (or 100 for `"percentage"`). With a
  representation it fails with a division by zero when the first bar, or any
  non-empty bar, sums to zero.
- **Resolver** (`resolver.dfy`): `explosion_line_y_top_and_bottom`, the walk
  that finds where one side of a wedge meets a stack. The walk is proved to
  compute prefix sums.
- **Wedge** (`wedge.dfy`): `explosion_line_y_points`,
  `explosion_line_x_points`, and the caption positions and background polygon
  of `display_explosion`.
- **Colors** (`color.dfy`): `convert_color`, both as written and with the
  clamp it evidently intends (see Findings).
- **StackChart** (`stack.dfy`): the layout half of
  `create_bar_chart_with_emphasis`:
  - box positions
  - the emphasis set (`emph_boxes`)
  - the label cutoff and border colours
  - the label over the stack
  - the relative-size bar.
- **Driver** (`driver.dfy`): `cascaded_exploding_barcharts`. The order of
  its drawing calls is a `Schedule` of steps, and rendering carries the steps
  out on the normalised data.
- **ChartTypes** (`types.dfy`) and **PrefixSums** (`prefix_sums.dfy`): the
  data model, the configuration dictionary as a record, and sums over
  sequences.

Text measurement by the renderer becomes a parameter
`textHeight: string -> real`. Every drawing call becomes a value: a `Box`, a
`Text`, a `RelativeBar` or a `WedgeDraw`.

Facts about the code that shape the model:
- A range without a lower bound raises `TypeError` in the walk, which
  compares `i < None`. It does not raise when the stack is empty or when the
  first box is the top box. The model makes this a precondition
  (`Resolver.Resolvable`).
- The driver reads `emphasis[idx+1]` and `bar_labels[idx+1]` for every gap.
  So it needs one emphasis list and one label per stack, not one per gap
  (`Driver.Renderable`).
- Normalising divides by a bar's own total only when the bar has boxes. An
  empty bar after the first is accepted even though its total is zero.
- Range bounds are never checked. A `high` that names no box never stops the
  walk, and `low > high` simply stops `bottom` at `high`
  (`Resolver.ResolveUnmatchedHigh`).
- The relative-size bar is labelled with the loop's leftover `label`, the
  name of the stack's top box. So a stack must have boxes when the relative
  bar is on.

## Model

| member | source | states |
|---|---|---|
| `Resolver.YTopAndBottom` | cascadedexplodingbarcharts.py:338-363 | `top` is the sum of the boxes up to and including `high` (the whole stack when `high` names no box); `bottom` is the sum of the boxes below both `low` and `high` |
| `Resolver.WalkSums` | cascadedexplodingbarcharts.py:349-361 | the loop invariant: from any index on, the running `top` and `bottom` equal the prefix sums covered so far, and the walk ends on the counts above |
| `Resolver.ResolveConcrete` | cascadedexplodingbarcharts.py:349-363 | for `0 <= low <= high < n` the result is (sum through `high`, sum below `low`), and top minus bottom is the total of boxes `low..high` |
| `Resolver.ResolveUnmatchedHigh` | cascadedexplodingbarcharts.py:350-353 | when `high` is `None` or names no box the loop never breaks, so `top` is the stack's total |
| `Resolver.ResolveBottomBelowTop` | cascadedexplodingbarcharts.py:349-363 | with non-negative values the bottom of a wedge side never lies above its top, whatever the bounds |
| `Resolver.ResolveFromBottom` | cascadedexplodingbarcharts.py:349-359 | a missing `low` with `high == 0` gives `(first value, 0)` |
| `Resolver.ResolveExamples` | cascadedexplodingbarcharts.py:338-363 | stack [2, 3, 5]: range 1..2 gives top 10 and bottom 2; range None..0 gives top 2 and bottom 0 |
| `Wedge.YPoints` | cascadedexplodingbarcharts.py:366-396 | no link gives all-zero lines; otherwise the left ends come from the source range on the left stack and the right ends from the destination range on the right stack, as prefix sums |
| `Wedge.XPoints` | cascadedexplodingbarcharts.py:399-404 | both lines use x = k + 0.50 and k + 0.99, strictly inside the gap between stack k and stack k+1 |
| `Wedge.CaptionsInterpolate` | cascadedexplodingbarcharts.py:431-459 | the slope correction is linear interpolation: the left caption lies `2 * v_left * offset_left` of the way from the left midpoint to the right one, and the right caption `2 * v_right * (1 - offset_right)` of the way back |
| `Wedge.CaptionsBetweenMidpoints` | cascadedexplodingbarcharts.py:431-459 | with both fractions in [0, 1] each caption stays between the two midpoints; on a level wedge both sit at the common midpoint |
| `Wedge.DefaultFractions` | cascadedexplodingbarcharts.py:206-213 | the default settings put the captions 0.156 and 0.204 of the way along the midline, both within [0, 1], so `CaptionsBetweenMidpoints` applies to them |
| `Wedge.Background` | cascadedexplodingbarcharts.py:462-479 | the polygon has five vertices and closes on its first one |
| `Wedge.Explosion` | cascadedexplodingbarcharts.py:407-479 | a wedge is drawn exactly when a link is given; it has two two-point lines running from the resolved left heights at x = k + 0.50 to the resolved right heights at x = k + 0.99, each caption exactly when captions are on and that side carries one, and the background exactly when it is on |
| `Wedge.DrawnCaptionsBetweenMidpoints` | cascadedexplodingbarcharts.py:426-459 | each drawn caption sits at its side's x offset in gap k with its side's text, at the interpolated height, and (fractions in [0, 1]) between the midpoints of the drawn lines |
| `Wedge.BackgroundFollowsLines` | cascadedexplodingbarcharts.py:462-479 | the background's vertices are the drawn lines' ends: all moved right by the x offset, the bottom ones also up by the y offset, which is 100 times larger for percentages |
| `Wedge.WedgeSpansRanges` | cascadedexplodingbarcharts.py:407-423 | for concrete ranges each end of the wedge spans exactly the emphasised boxes: its height is the total of the source boxes on the left and of the destination boxes on the right |
| `Normalizer.ScaleBar` | cascadedexplodingbarcharts.py:510-513 | a rescaled bar keeps its length and, for a non-zero total, sums to its old total divided by that total times the scale |
| `Normalizer.ScaleBarShares` | cascadedexplodingbarcharts.py:510-513 | each rescaled box keeps its name and colour, and its value is its share of the total times the scale |
| `Normalizer.NormalizeBar` | cascadedexplodingbarcharts.py:494-517 | one pass of the outer loop succeeds exactly for the raw representation or when no division by zero occurs |
| `Normalizer.NormalizeFromSpec` | cascadedexplodingbarcharts.py:494-519 | the loop succeeds exactly when every bar's pass does, and then holds each bar's own result in order |
| `Normalizer.NormalizeAt` | cascadedexplodingbarcharts.py:494-519 | bar i of a successful run is bar i's own pass, run with the first bar's total |
| `Normalizer.RelativeSizeAt` | cascadedexplodingbarcharts.py:504-517 | a bar's entry of `bar_sums` is its literal total without a representation, otherwise its total as a ratio to the first bar's total times the scale |
| `Normalizer.NormalizeRaw` | cascadedexplodingbarcharts.py:516-517 | without a representation the values are unchanged and each entry is the bar's literal total |
| `Normalizer.NormalizeFailsIff` | cascadedexplodingbarcharts.py:501-515 | normalising fails exactly when a representation is given and the first bar, or some non-empty bar, sums to zero |
| `Normalizer.NormalizeScaledTotals` | cascadedexplodingbarcharts.py:501-515 | a successful scaled run implies a non-zero first total and non-zero totals for non-empty bars |
| `Normalizer.NormalizeScaledBars` | cascadedexplodingbarcharts.py:504-513 | every bar becomes its values as shares of its own total times the scale, so each non-empty bar sums to 1 (or 100 for percentages) |
| `Normalizer.NormalizeScaledSums` | cascadedexplodingbarcharts.py:501-515 | each relative-size entry is the bar's total over the first bar's total times the scale; the first entry is the scale itself |
| `Normalizer.NormalizeKeepsLabels` | cascadedexplodingbarcharts.py:510-513 | normalising changes values only: bar and box counts, names and colours are kept |
| `Normalizer.TwoEvenBarsArePercentHalves` | cascadedexplodingbarcharts.py:486-519 | two bars of two unit boxes as percentages: every box becomes 50 and both totals 100 |
| `Colors.TwoHex` | cascadedexplodingbarcharts.py:243-245 | a byte written as two zero-padded lower-case hex digits that parse back to the byte |
| `Colors.ConvertColorChannels` | cascadedexplodingbarcharts.py:222-247 | the clamped conversion gives "#" and three two-digit lower-case hex channels; each reads back as the input channel times the factor, truncated and capped at 255 |
| `Colors.ChannelAsWrittenOnByte` | cascadedexplodingbarcharts.py:236-245 | when the product fits in a byte, the source's string comparison never fires and its slice-and-pad gives the same two digits as the clamped channel |
| `Colors.DarkenAgrees` | cascadedexplodingbarcharts.py:222-247 | for a factor in [0, 1], the default gradient 0.2 included, the source's function equals the clamped one, and each channel is the truncated product |
| `Colors.ConvertColorIdentity` | cascadedexplodingbarcharts.py:222-247 | a factor of 1 returns the input colour in lower case |
| `Colors.ClampCounterexample` | cascadedexplodingbarcharts.py:237-245 | as written, "#808080" times 2 gives "#101010"; clamped it gives "#ffffff" |
| `Colors.ClampFiresCounterexample` | cascadedexplodingbarcharts.py:239-245 | as written, "#ff0000" times 16 gives "#050000"; clamped it gives "#ff0000" |
| `StackChart.InclusiveRangeMembers` | cascadedexplodingbarcharts.py:277-278 | `range(lo, hi + 1)` holds exactly the integers from lo to hi |
| `StackChart.EmphasisBoxesMembers` | cascadedexplodingbarcharts.py:270-278 | `emph_boxes` holds exactly the indices that lie in some entry's inclusive source range |
| `StackChart.EmphasisIff` | cascadedexplodingbarcharts.py:270-293 | box idx gets the emphasis style exactly when the list is non-empty, its first entry is a link, and idx lies in some entry's source range |
| `StackChart.BoxesFromAt` | cascadedexplodingbarcharts.py:288-321 | the box loop draws box j with its bottom at the sum of the values below it |
| `StackChart.StackBoxPlace` | cascadedexplodingbarcharts.py:288-321 | box j of stack k stands at x = k, starts at the sum of the values below it and is as high as its value |
| `StackChart.StackTiles` | cascadedexplodingbarcharts.py:288-327 | one box per value; the boxes stack without gaps from the ground; the last one ends at the stack's total, where the label over the stack sits |
| `StackChart.StackBoxStyle` | cascadedexplodingbarcharts.py:288-319 | per box: the emphasis style as in `EmphasisIff`; its label is kept exactly when labels are on and height times cutoff does not exceed the value, and then shows the box's name at x = k plus the label offset, at the box's centre; the face is its colour; the border is the source's `convert_color` of that colour by the gradient, which for a gradient of at most 1 is the corrected darkened colour |
| `Driver.ScheduleSorted` | cascadedexplodingbarcharts.py:559-575 | the calls never go back: stack 0 first, each wedge of gap k after stack k and before stack k+1, nothing past the last stack |
| `Driver.ScheduleContents` | cascadedexplodingbarcharts.py:562-575 | every stack is drawn once, in order; gap k gets one wedge per non-`None` link of stack k's list, in list order; no other wedges appear |
| `Driver.ScheduleCanPerform` | cascadedexplodingbarcharts.py:562-575 | every scheduled step names an existing stack, or a link that resolves against the two stacks it joins |
| `Driver.DrawableAfterNormalize` | cascadedexplodingbarcharts.py:555-557 | data the driver can draw stays drawable after normalising, because normalising keeps lengths and colours |
| `Driver.Render` | cascadedexplodingbarcharts.py:555-575 | rendering succeeds exactly when normalising does |
| `Driver.RenderFailsIff` | cascadedexplodingbarcharts.py:555-557 | rendering fails exactly when a representation is given and the first bar, or a non-empty bar, sums to zero |
| `Driver.RenderFollowsSchedule` | cascadedexplodingbarcharts.py:555-575 | the a-th thing drawn is the a-th scheduled step carried out on the normalised data |
| `Driver.RelativeBars` | cascadedexplodingbarcharts.py:329-335 | each stack's relative bar stands at the stack's x plus the offset; it is as high as the stack's total (raw), or its total over the first stack's total times the scale; it carries the name of the stack's original top box |
| `Driver.LevelledStacks` | cascadedexplodingbarcharts.py:504-515 | with a representation every non-empty stack is drawn to the same height, the scale: its top box and its label both end there |

## Left out

- Matplotlib calls (`ax.bar`, `ax.text`, `ax.plot`, `Path`, `PathPatch`, `add_patch`): these are I/O. They are replaced by values that record what would be drawn.
- Style dictionaries, widths, line widths and z-orders are not modelled. The configuration record keeps only the on/off switches and numeric offsets (cascadedexplodingbarcharts.py:172-220). The box `width` of 0.5 with `align='edge'` (:174-175, :301-303) puts each box's right edge at k + 0.5, which is where the wedge's x-slots start. `Wedge.XPoints` assumes that width.
- The unused `box_to_redraw` variable (:286): it is never read.
- Text measurement (`get_window_extent` with the renderer, :313-314): this depends on fonts and the screen. It becomes the `textHeight` parameter. The label is kept or removed by the same comparison (:318).
- `run_example` and the `__main__` entry point (:124-167, :578-579): demo data and a window, not layout.
- Floating point: values are exact reals, so rounding is not modelled. `int(x * factor)` is truncation, which for non-negative operands is the floor used here.
- The module-level settings dictionary: it is a global the code reads. Here it is an immutable `Config` argument, with the defaults in `DefaultConfig`.
- In-place mutation of the deep copy (:556-557, :513): the normaliser returns new data instead. For input without shared parts the results agree, and the caller's data is untouched in both.
- Aliased bars and entries are not modelled. `deepcopy` keeps shared sub-lists shared, so a bar or triple that appears twice in the input is divided once per appearance. For example, the same two-box bar listed twice, as percentages, gives `bar_sums` of `[100.0, 5000.0]` in the source. The model's values are lists of values, not references, so it gives `[100, 100]`.
- `Resolver.YTopAndBottom`: inputs that raise `TypeError` by comparing with a `None` lower bound are excluded by a precondition rather than modelled as an error value.
- A link with a `None` side: `explosion_line_y_top_and_bottom` then returns `None`, and unpacking it raises `TypeError` (:389, :392). The `Link` type always has both sides.
- Malformed data that makes Python raise `IndexError`, `ValueError` or `TypeError` is excluded by the preconditions `Driver.Renderable`, `StackChart.Drawable` and `Colors.WellFormedColor`:
  - too few emphasis lists or labels
  - an emphasis entry without bounds
  - non-hex colour digits
- `is` at :352 is modelled as `==`. CPython only guarantees this for small cached integers. Indices here are small.
- `Colors.ConvertColorAsWritten`: negative factors are not modelled (precondition `0 <= factor`). `StackChart.Drawable` carries this over as a non-negative `box_border_gradient`. A negative product would make `hex` print a sign, which the slice would then cut into.
- A `None` emphasis list is accepted by the source only for the last stack. There it is falsy at :271 and gives no emphasis, and the model represents it as the empty list. For any earlier stack, `for emphasis_subset in emphasis[idx]` (:568) raises `TypeError` on `None`. The model has no `None` list, so it does not represent that error.

## Findings

| source | as written | input that shows it | evidently intended | confidence | as-written member | corrected member |
|---|---|---|---|---|---|---|
| cascadedexplodingbarcharts.py:239-240 | `color_changed > hex(0xFF)` compares the hex STRINGS, so a product of 256 or more, such as "0x100", sorts below "0xff" and is not clamped; slicing then keeps "10" | `convert_color("#808080", 2.0)` gives "#101010" | each channel capped at 255: "#ffffff" | not executed | `Colors.ClampCounterexample` | `Colors.ConvertColorChannels` |
| cascadedexplodingbarcharts.py:239-245 | when the clamp does fire it stores the integer 255, and `str(255)[2:4]` is "5", padded to "05" | `convert_color("#ff0000", 16.0)` gives "#050000" | the channel stays "ff": "#ff0000" | not executed | `Colors.ClampFiresCounterexample` | `Colors.ConvertColorChannels` |

The stack layout calls the conversion as the source does
(`Colors.ConvertColorAsWritten`), so borders with a gradient above 1 show both
defects. `StackChart.StackBoxStyle` proves that for gradients of at most 1,
the default 0.2 included, the border equals the corrected colour
(`Colors.DarkenAgrees`).
