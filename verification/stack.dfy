/** The layout part of `create_bar_chart_with_emphasis`: where each box of
    one stack goes, which boxes get the emphasis style, which box labels are
    kept, the border colours, the label over the stack and the relative-size
    bar. */
module StackChart {
  import opened ChartTypes
  import opened PrefixSums
  import opened Colors

  /** One drawn box: left edge, bottom, height, whether it has the emphasis
      style, face and border colour, and its label when it is kept. */
  datatype Box = Box(x: real, bottom: real, height: real, emphasised: bool, face: string, edge: string, caption: Option<Text>)

  /** The thin bar at the stack's left edge showing its relative size. */
  datatype RelativeBar = RelativeBar(x: real, height: real, legend: string)

  datatype StackDraw = StackDraw(boxes: seq<Box>, barLabel: Option<Text>, relative: Option<RelativeBar>)

  /** A link whose source range has both bounds. */
  predicate HasSourceBounds(link: Option<Link>)
  {
    link.Some? && link.value.source.low.Some? && link.value.source.high.Some?
  }

  /** The stack's emphasis list can be read: once its first entry is a link,
      every entry is a link whose source range has both bounds. */
  predicate EmphasisReadable(links: seq<Option<Link>>)
  {
    (|links| > 0 && links[0].Some?) ==> forall j | 0 <= j < |links| :: HasSourceBounds(links[j])
  }

  /** `range(lo, hi + 1)`. */
  function InclusiveRange(lo: int, hi: int): seq<int>
    decreases hi - lo + 1
  {
    if lo > hi then [] else [lo] + InclusiveRange(lo + 1, hi)
  }

  lemma {:induction false} InclusiveRangeMembers(lo: int, hi: int, x: int)
    ensures x in InclusiveRange(lo, hi) <==> lo <= x <= hi
    decreases hi - lo + 1
  {
    if lo <= hi {
      InclusiveRangeMembers(lo + 1, hi, x);
    }
  }

  /** `emph_boxes`: the indices of every source range, entry after entry. */
  function EmphasisBoxes(links: seq<Option<Link>>): seq<int>
    requires forall j | 0 <= j < |links| :: HasSourceBounds(links[j])
  {
    if |links| == 0 then []
    else
      assert HasSourceBounds(links[0]);
      var src := links[0].value.source;
      InclusiveRange(src.low.value, src.high.value) + EmphasisBoxes(links[1..])
  }

  /** Box `idx` lies in the inclusive source range of some entry. */
  predicate InSomeSourceRange(links: seq<Option<Link>>, idx: int)
  {
    exists j | 0 <= j < |links| ::
      HasSourceBounds(links[j]) && links[j].value.source.low.value <= idx <= links[j].value.source.high.value
  }

  /** The list of emphasised boxes is the union of the source ranges. */
  lemma {:induction false} EmphasisBoxesMembers(links: seq<Option<Link>>, idx: int)
    requires forall j | 0 <= j < |links| :: HasSourceBounds(links[j])
    ensures idx in EmphasisBoxes(links) <==> InSomeSourceRange(links, idx)
  {
    if |links| > 0 {
      var src := links[0].value.source;
      InclusiveRangeMembers(src.low.value, src.high.value, idx);
      EmphasisBoxesMembers(links[1..], idx);
      if InSomeSourceRange(links[1..], idx) {
        var j :| 0 <= j < |links[1..]| && HasSourceBounds(links[1..][j])
          && links[1..][j].value.source.low.value <= idx <= links[1..][j].value.source.high.value;
        assert links[j + 1] == links[1..][j];
      }
      if InSomeSourceRange(links, idx) && !(src.low.value <= idx <= src.high.value) {
        var j :| 0 <= j < |links| && HasSourceBounds(links[j])
          && links[j].value.source.low.value <= idx <= links[j].value.source.high.value;
        assert j > 0;
        assert links[1..][j - 1] == links[j];
      }
    }
  }

  /** `emph and idx in emph_boxes`. */
  function IsEmphasised(links: seq<Option<Link>>, idx: int): bool
    requires EmphasisReadable(links)
  {
    |links| > 0 && links[0].Some? && idx in EmphasisBoxes(links)
  }

  /** Box `idx` gets the emphasis style exactly when the list is non-empty,
      its first entry is a link, and `idx` lies in some entry's inclusive
      source range. */
  lemma EmphasisIff(links: seq<Option<Link>>, idx: int)
    requires EmphasisReadable(links)
    ensures IsEmphasised(links, idx) <==> |links| > 0 && links[0].Some? && InSomeSourceRange(links, idx)
  {
    if |links| > 0 && links[0].Some? {
      EmphasisBoxesMembers(links, idx);
    }
  }

  /** Whether the stack can be laid out: its emphasis list is readable,
      every colour has hex digits where the border darkening reads them, the
      darkening factor is not negative, and the relative-size bar (which
      borrows the last box's label) has a box to borrow it from. */
  predicate Drawable(bar: Stack, links: seq<Option<Link>>, cfg: Config)
  {
    && EmphasisReadable(links)
    && (forall j | 0 <= j < |bar| :: WellFormedColor(bar[j].color))
    && 0.0 <= cfg.boxBorderGradient
    && (cfg.relative ==> |bar| > 0)
  }

  /** A box label is kept unless its measured height times the cutoff
      exceeds the box's value. */
  predicate LabelFits(textHeight: real, cutoff: real, value: real)
  {
    !(textHeight * cutoff > value)
  }

  /** The border colour of every box: its face colour run through the
      source's `convert_color` with the configured gradient. */
  function EdgeColors(bar: Stack, gradient: real): (edges: seq<string>)
    requires forall j | 0 <= j < |bar| :: WellFormedColor(bar[j].color)
    requires 0.0 <= gradient
    ensures |edges| == |bar|
  {
    seq(|bar|, j requires 0 <= j < |bar| => ConvertColorAsWritten(bar[j].color, gradient))
  }

  /** Box `j` drawn with its bottom at `pos`: at the stack's x, as high as
      its value, with the emphasis style when selected, its face colour, its
      border colour from `edges`, and its label at the box's centre when the
      label fits. */
  function MakeBox(bar: Stack, links: seq<Option<Link>>, k: int, cfg: Config, textHeight: string -> real,
                   edges: seq<string>, j: nat, pos: real): Box
    requires j < |bar| == |edges|
    requires Drawable(bar, links, cfg)
  {
    var seg := bar[j];
    var caption :=
      if cfg.boxLabel && LabelFits(textHeight(seg.name), cfg.boxSizeTextCutoff, seg.value)
      then Some(Text(k as real + cfg.boxLabelOffset, pos + 0.5 * seg.value, seg.name))
      else None;
    Box(k as real, pos, seg.value, IsEmphasised(links, j), seg.color, edges[j], caption)
  }

  /** The box loop from box `i` on, `pos` being the running bottom. */
  function BoxesFrom(bar: Stack, links: seq<Option<Link>>, k: int, cfg: Config, textHeight: string -> real,
                     edges: seq<string>, i: nat, pos: real): seq<Box>
    requires i <= |bar| == |edges|
    requires Drawable(bar, links, cfg)
    decreases |bar| - i
  {
    if i == |bar| then []
    else [MakeBox(bar, links, k, cfg, textHeight, edges, i, pos)] + BoxesFrom(bar, links, k, cfg, textHeight, edges, i + 1, pos + bar[i].value)
  }

  /** Stack `k`: its boxes, the label over it and its relative-size bar.
      `textHeight` stands for the renderer's measurement of a label. */
  function DrawStack(bar: Stack, links: seq<Option<Link>>, barLabel: Option<string>, barSum: real,
                     k: int, cfg: Config, textHeight: string -> real): StackDraw
    requires Drawable(bar, links, cfg)
  {
    var boxes := BoxesFrom(bar, links, k, cfg, textHeight, EdgeColors(bar, cfg.boxBorderGradient), 0, 0.0);
    var top := Sum(Values(bar));
    var caption :=
      if cfg.barLabel && barLabel.Some? && barLabel.value != ""
      then Some(Text(k as real + cfg.barLabelOffset, top, barLabel.value))
      else None;
    var relative :=
      if cfg.relative then Some(RelativeBar(k as real + cfg.relativeBoxHOffset, barSum, bar[|bar| - 1].name))
      else None;
    StackDraw(boxes, caption, relative)
  }

  lemma {:induction false} BoxesFromLength(bar: Stack, links: seq<Option<Link>>, k: int, cfg: Config, textHeight: string -> real,
                                           edges: seq<string>, i: nat, pos: real)
    requires i <= |bar| == |edges|
    requires Drawable(bar, links, cfg)
    ensures |BoxesFrom(bar, links, k, cfg, textHeight, edges, i, pos)| == |bar| - i
    decreases |bar| - i
  {
    if i < |bar| {
      BoxesFromLength(bar, links, k, cfg, textHeight, edges, i + 1, pos + bar[i].value);
    }
  }

  /** The loop draws box `j` with its bottom at the sum of the values below it. */
  lemma {:induction false} BoxesFromAt(bar: Stack, links: seq<Option<Link>>, k: int, cfg: Config, textHeight: string -> real,
                                       edges: seq<string>, i: nat, pos: real, j: nat)
    requires i <= j < |bar| == |edges|
    requires Drawable(bar, links, cfg)
    requires pos == Sum(Values(bar)[..i])
    ensures |BoxesFrom(bar, links, k, cfg, textHeight, edges, i, pos)| == |bar| - i
    ensures BoxesFrom(bar, links, k, cfg, textHeight, edges, i, pos)[j - i] == MakeBox(bar, links, k, cfg, textHeight, edges, j, Sum(Values(bar)[..j]))
    decreases |bar| - i
  {
    BoxesFromLength(bar, links, k, cfg, textHeight, edges, i, pos);
    if j > i {
      SumPrefixStep(Values(bar), i);
      BoxesFromAt(bar, links, k, cfg, textHeight, edges, i + 1, pos + bar[i].value, j);
    }
  }

  /** The stack's boxes are the box loop run from the ground. */
  lemma DrawStackBoxes(bar: Stack, links: seq<Option<Link>>, barLabel: Option<string>, barSum: real,
                       k: int, cfg: Config, textHeight: string -> real)
    requires Drawable(bar, links, cfg)
    ensures DrawStack(bar, links, barLabel, barSum, k, cfg, textHeight).boxes == BoxesFrom(bar, links, k, cfg, textHeight, EdgeColors(bar, cfg.boxBorderGradient), 0, 0.0)
    ensures |DrawStack(bar, links, barLabel, barSum, k, cfg, textHeight).boxes| == |bar|
  {
    BoxesFromLength(bar, links, k, cfg, textHeight, EdgeColors(bar, cfg.boxBorderGradient), 0, 0.0);
  }

  /** Box `j` stands at the stack's x, starts at the sum of the values below
      it and is as high as its value. */
  lemma StackBoxPlace(bar: Stack, links: seq<Option<Link>>, barLabel: Option<string>, barSum: real,
                      k: int, cfg: Config, textHeight: string -> real, j: nat)
    requires Drawable(bar, links, cfg)
    requires j < |bar|
    ensures |DrawStack(bar, links, barLabel, barSum, k, cfg, textHeight).boxes| == |bar|
    ensures DrawStack(bar, links, barLabel, barSum, k, cfg, textHeight).boxes[j].bottom == Sum(Values(bar)[..j])
    ensures DrawStack(bar, links, barLabel, barSum, k, cfg, textHeight).boxes[j].height == bar[j].value
    ensures DrawStack(bar, links, barLabel, barSum, k, cfg, textHeight).boxes[j].x == k as real
  {
    DrawStackBoxes(bar, links, barLabel, barSum, k, cfg, textHeight);
    BoxesFromAt(bar, links, k, cfg, textHeight, EdgeColors(bar, cfg.boxBorderGradient), 0, 0.0, j);
  }

  /** The boxes of a stack are stacked bottom to top without gaps: each box
      starts where the one below it ends, the first on the ground, and the
      label over the stack sits at the top of the last box, the stack's
      total. */
  lemma StackTiles(bar: Stack, links: seq<Option<Link>>, barLabel: Option<string>, barSum: real,
                   k: int, cfg: Config, textHeight: string -> real)
    requires Drawable(bar, links, cfg)
    ensures var s := DrawStack(bar, links, barLabel, barSum, k, cfg, textHeight);
      && |s.boxes| == |bar|
      && (|bar| > 0 ==> s.boxes[0].bottom == 0.0)
      && (forall j | 0 < j < |bar| :: s.boxes[j].bottom == s.boxes[j - 1].bottom + s.boxes[j - 1].height)
      && (|bar| > 0 ==> s.boxes[|bar| - 1].bottom + s.boxes[|bar| - 1].height == Sum(Values(bar)))
      && (s.barLabel.Some? ==> s.barLabel.value.y == Sum(Values(bar)))
  {
    var s := DrawStack(bar, links, barLabel, barSum, k, cfg, textHeight);
    DrawStackBoxes(bar, links, barLabel, barSum, k, cfg, textHeight);
    forall j | 0 < j < |bar|
      ensures s.boxes[j].bottom == s.boxes[j - 1].bottom + s.boxes[j - 1].height
    {
      StackBoxesAdjacent(bar, links, barLabel, barSum, k, cfg, textHeight, j);
    }
    if |bar| > 0 {
      StackBoxPlace(bar, links, barLabel, barSum, k, cfg, textHeight, 0);
      StackTopBox(bar, links, barLabel, barSum, k, cfg, textHeight);
    }
  }

  /** Box `j` starts where box `j - 1` ends. */
  lemma StackBoxesAdjacent(bar: Stack, links: seq<Option<Link>>, barLabel: Option<string>, barSum: real,
                           k: int, cfg: Config, textHeight: string -> real, j: nat)
    requires Drawable(bar, links, cfg)
    requires 0 < j < |bar|
    ensures |DrawStack(bar, links, barLabel, barSum, k, cfg, textHeight).boxes| == |bar|
    ensures var boxes := DrawStack(bar, links, barLabel, barSum, k, cfg, textHeight).boxes;
      boxes[j].bottom == boxes[j - 1].bottom + boxes[j - 1].height
  {
    StackBoxPlace(bar, links, barLabel, barSum, k, cfg, textHeight, j);
    StackBoxPlace(bar, links, barLabel, barSum, k, cfg, textHeight, j - 1);
    SumPrefixStep(Values(bar), j - 1);
  }

  /** The top box of a non-empty stack ends at the stack's total. */
  lemma StackTopBox(bar: Stack, links: seq<Option<Link>>, barLabel: Option<string>, barSum: real,
                    k: int, cfg: Config, textHeight: string -> real)
    requires Drawable(bar, links, cfg)
    requires |bar| > 0
    ensures |DrawStack(bar, links, barLabel, barSum, k, cfg, textHeight).boxes| == |bar|
    ensures var boxes := DrawStack(bar, links, barLabel, barSum, k, cfg, textHeight).boxes;
      boxes[|bar| - 1].bottom + boxes[|bar| - 1].height == Sum(Values(bar))
  {
    StackBoxPlace(bar, links, barLabel, barSum, k, cfg, textHeight, |bar| - 1);
    SumPrefixStep(Values(bar), |bar| - 1);
    assert Values(bar)[..|bar|] == Values(bar);
  }

  /** Box `j` has the emphasis style exactly when the stack's emphasis list
      is non-empty, starts with a link, and some entry's inclusive source
      range holds `j`; its label is kept exactly when labels are on and the
      measured height times the cutoff does not exceed its value, and then
      shows the box's name at the stack's x plus the label offset, at the
      box's vertical centre; it is filled with its own colour and
      bordered with that colour run through the source's `convert_color`,
      which for a gradient of at most 1 is the colour darkened channel by
      channel. */
  lemma StackBoxStyle(bar: Stack, links: seq<Option<Link>>, barLabel: Option<string>, barSum: real,
                      k: int, cfg: Config, textHeight: string -> real, j: nat)
    requires Drawable(bar, links, cfg)
    requires j < |bar|
    ensures |DrawStack(bar, links, barLabel, barSum, k, cfg, textHeight).boxes| == |bar|
    ensures var b := DrawStack(bar, links, barLabel, barSum, k, cfg, textHeight).boxes[j];
      && (b.emphasised <==> |links| > 0 && links[0].Some? && InSomeSourceRange(links, j))
      && (b.caption.Some? <==> cfg.boxLabel && LabelFits(textHeight(bar[j].name), cfg.boxSizeTextCutoff, bar[j].value))
      && (b.caption.Some? ==> b.caption.value.y == b.bottom + b.height / 2.0)
      && (b.caption.Some? ==> b.caption.value == Text(k as real + cfg.boxLabelOffset, b.bottom + b.height / 2.0, bar[j].name))
      && b.face == bar[j].color
      && b.edge == ConvertColorAsWritten(bar[j].color, cfg.boxBorderGradient)
      && (cfg.boxBorderGradient <= 1.0 ==> b.edge == ConvertColor(bar[j].color, cfg.boxBorderGradient))
  {
    BoxesFromAt(bar, links, k, cfg, textHeight, EdgeColors(bar, cfg.boxBorderGradient), 0, 0.0, j);
    EmphasisIff(links, j);
    var s := DrawStack(bar, links, barLabel, barSum, k, cfg, textHeight);
    assert s.boxes == BoxesFrom(bar, links, k, cfg, textHeight, EdgeColors(bar, cfg.boxBorderGradient), 0, 0.0);
    var b := MakeBox(bar, links, k, cfg, textHeight, EdgeColors(bar, cfg.boxBorderGradient), j, Sum(Values(bar)[..j]));
    assert s.boxes[j] == b;
    assert b.emphasised == IsEmphasised(links, j);
    assert b.caption.Some? <==> cfg.boxLabel && LabelFits(textHeight(bar[j].name), cfg.boxSizeTextCutoff, bar[j].value);
    if cfg.boxBorderGradient <= 1.0 {
      DarkenAgrees(bar[j].color, cfg.boxBorderGradient);
    }
  }

  /** The label over the stack is drawn exactly when labels are on and the
      stack's label is present and not empty, at the stack's x plus the
      offset; the relative-size bar is drawn exactly when it is on, from the
      ground, as high as the given total, carrying the label of the top box
      (the loop's last one). */
  lemma StackOverlays(bar: Stack, links: seq<Option<Link>>, barLabel: Option<string>, barSum: real,
                      k: int, cfg: Config, textHeight: string -> real)
    requires Drawable(bar, links, cfg)
    ensures var s := DrawStack(bar, links, barLabel, barSum, k, cfg, textHeight);
      && (s.barLabel.Some? <==> cfg.barLabel && barLabel.Some? && barLabel.value != "")
      && (s.barLabel.Some? ==> s.barLabel.value == Text(k as real + cfg.barLabelOffset, Sum(Values(bar)), barLabel.value))
      && (s.relative.Some? <==> cfg.relative)
      && (s.relative.Some? ==> s.relative.value == RelativeBar(k as real + cfg.relativeBoxHOffset, barSum, bar[|bar| - 1].name))
  {
  }
}
