/** The numeric part of one explosion wedge between stack k and stack k+1:
    `explosion_line_y_points`, `explosion_line_x_points`, and the caption
    positions and background polygon of `display_explosion`. */
module Wedge {
  import opened ChartTypes
  import opened PrefixSums
  import opened Resolver

  /** One coordinate of a line at its left end and at its right end. */
  datatype Pair = Pair(left: real, right: real)

  /** `(bottom line, top line)`, in the order the source returns them. */
  datatype Lines = Lines(bottom: Pair, top: Pair)

  /** What is drawn for one wedge: two dashed lines of two points each, the
      optional captions and the optional shaded polygon. */
  datatype WedgeDraw = WedgeDraw(
    bottomLine: seq<Point>,
    topLine: seq<Point>,
    leftCaption: Option<Text>,
    rightCaption: Option<Text>,
    background: Option<seq<Point>>)

  /** Both sides of a link resolve without comparing with a `None` bound. */
  predicate LinkResolvable(left: nat, right: nat, link: Option<Link>)
  {
    link.Some? ==> Resolvable(left, link.value.source) && Resolvable(right, link.value.dest)
  }

  /** The y-coordinates of the wedge's two lines: all zero without a link;
      otherwise the left ends come from the source range on the left stack
      and the right ends from the destination range on the right stack. */
  function YPoints(left: seq<real>, right: seq<real>, link: Option<Link>): (ys: Lines)
    requires LinkResolvable(|left|, |right|, link)
    ensures link.None? ==> ys == Lines(Pair(0.0, 0.0), Pair(0.0, 0.0))
    ensures link.Some? ==>
      var (s, d) := (link.value.source, link.value.dest);
      && ys.bottom == Pair(Sum(left[..BottomCount(|left|, s.low, s.high)]), Sum(right[..BottomCount(|right|, d.low, d.high)]))
      && ys.top == Pair(Sum(left[..TopCount(|left|, s.high)]), Sum(right[..TopCount(|right|, d.high)]))
  {
    if link.None? then Lines(Pair(0.0, 0.0), Pair(0.0, 0.0))
    else
      var l := YTopAndBottom(left, link.value.source);
      var r := YTopAndBottom(right, link.value.dest);
      Lines(Pair(l.bottom, r.bottom), Pair(l.top, r.top))
  }

  /** The x-coordinates of both lines for gap `k`: the same two slots,
      k + 0.50 and k + 0.99, strictly inside the gap between the two stacks. */
  function XPoints(k: int): (xs: Lines)
    ensures xs.bottom == xs.top
    ensures xs.bottom == Pair(k as real + 0.50, k as real + 0.99)
    ensures k as real < xs.bottom.left < xs.bottom.right < (k + 1) as real
  {
    var slots := Pair(k as real + 0.50, k as real + 0.99);
    Lines(slots, slots)
  }

  /** The vertical midpoint of the wedge at its left end. */
  function MidLeft(ys: Lines): real
  {
    (ys.top.left + ys.bottom.left) / 2.0
  }

  /** The vertical midpoint of the wedge at its right end. */
  function MidRight(ys: Lines): real
  {
    (ys.top.right + ys.bottom.right) / 2.0
  }

  /** The left caption's y: the left midpoint, corrected by the configured
      magnitude times the offset as a fraction of half a slot times the rise
      of the midline. */
  function LeftCaptionY(ys: Lines, cfg: Config): real
  {
    var midlineDx := MidRight(ys) - MidLeft(ys);
    var fractionAwayFromLeft := cfg.explodeLabelOffsetLeft / 0.50;
    MidLeft(ys) + cfg.explodeLabelVOffsetLeft * fractionAwayFromLeft * midlineDx
  }

  /** The right caption's y: the right midpoint, corrected the other way by
      the distance of the offset from the next stack. */
  function RightCaptionY(ys: Lines, cfg: Config): real
  {
    var midlineDx := MidRight(ys) - MidLeft(ys);
    var fractionAwayFromRight := (1.0 - cfg.explodeLabelOffsetRight) / 0.50;
    MidRight(ys) - cfg.explodeLabelVOffsetRight * fractionAwayFromRight * midlineDx
  }

  /** How far along the midline, from the left midpoint, the left caption sits. */
  function LeftFraction(cfg: Config): real
  {
    2.0 * cfg.explodeLabelVOffsetLeft * cfg.explodeLabelOffsetLeft
  }

  /** How far along the midline, from the right midpoint, the right caption sits. */
  function RightFraction(cfg: Config): real
  {
    2.0 * cfg.explodeLabelVOffsetRight * (1.0 - cfg.explodeLabelOffsetRight)
  }

  /** The slope correction is a linear interpolation between the two
      midpoints: the left caption lies `LeftFraction` of the way from the
      left midpoint to the right one, the right caption `RightFraction` of
      the way back. */
  lemma CaptionsInterpolate(ys: Lines, cfg: Config)
    ensures LeftCaptionY(ys, cfg) == (1.0 - LeftFraction(cfg)) * MidLeft(ys) + LeftFraction(cfg) * MidRight(ys)
    ensures RightCaptionY(ys, cfg) == RightFraction(cfg) * MidLeft(ys) + (1.0 - RightFraction(cfg)) * MidRight(ys)
  {
    var a, b := MidLeft(ys), MidRight(ys);
    var ol, vl := cfg.explodeLabelOffsetLeft, cfg.explodeLabelVOffsetLeft;
    var or, vr := cfg.explodeLabelOffsetRight, cfg.explodeLabelVOffsetRight;
    assert ol / 0.50 == 2.0 * ol;
    assert (1.0 - or) / 0.50 == 2.0 * (1.0 - or);
    assert a + vl * (2.0 * ol) * (b - a) == (1.0 - 2.0 * vl * ol) * a + (2.0 * vl * ol) * b;
    assert b - vr * (2.0 * (1.0 - or)) * (b - a) == (2.0 * vr * (1.0 - or)) * a + (1.0 - 2.0 * vr * (1.0 - or)) * b;
  }

  function Min(a: real, b: real): real { if a <= b then a else b }

  function Max(a: real, b: real): real { if a <= b then b else a }

  /** A point a fraction `t` in [0, 1] of the way from `a` to `b` lies
      between them, and is `a` itself when the two ends agree. */
  lemma BetweenEnds(a: real, b: real, t: real)
    requires 0.0 <= t <= 1.0
    ensures Min(a, b) <= (1.0 - t) * a + t * b <= Max(a, b)
    ensures a == b ==> (1.0 - t) * a + t * b == a
  {
    var d := b - a;
    assert (1.0 - t) * a + t * b == a + t * d;
    if d >= 0.0 {
      NonNegativeProduct(t, d);
      NonNegativeProduct(1.0 - t, d);
      assert d - t * d == (1.0 - t) * d;
    } else {
      NonNegativeProduct(t, 0.0 - d);
      NonNegativeProduct(1.0 - t, 0.0 - d);
      assert t * d - d == (1.0 - t) * (0.0 - d);
    }
  }

  lemma NonNegativeProduct(x: real, y: real)
    requires 0.0 <= x && 0.0 <= y
    ensures 0.0 <= x * y
  {
  }

  /** With both fractions in [0, 1] the captions stay between the two
      midpoints, however steep the wedge; on a level wedge they sit exactly
      at the common midpoint. */
  lemma CaptionsBetweenMidpoints(ys: Lines, cfg: Config)
    requires 0.0 <= LeftFraction(cfg) <= 1.0
    requires 0.0 <= RightFraction(cfg) <= 1.0
    ensures Min(MidLeft(ys), MidRight(ys)) <= LeftCaptionY(ys, cfg) <= Max(MidLeft(ys), MidRight(ys))
    ensures Min(MidLeft(ys), MidRight(ys)) <= RightCaptionY(ys, cfg) <= Max(MidLeft(ys), MidRight(ys))
    ensures MidLeft(ys) == MidRight(ys) ==> LeftCaptionY(ys, cfg) == RightCaptionY(ys, cfg) == MidLeft(ys)
  {
    CaptionsInterpolate(ys, cfg);
    var a, b := MidLeft(ys), MidRight(ys);
    var t, u := LeftFraction(cfg), RightFraction(cfg);
    BetweenEnds(a, b, t);
    BetweenEnds(b, a, u);
    assert RightCaptionY(ys, cfg) == (1.0 - u) * b + u * a;
    assert Min(b, a) == Min(a, b) && Max(b, a) == Max(a, b);
  }

  /** The default typesetting puts the left caption 0.156 and the right
      caption 0.204 of the way along the midline, so it meets the bounds
      under which `CaptionsBetweenMidpoints` keeps both captions between the
      midpoints. */
  lemma DefaultFractions()
    ensures LeftFraction(DefaultConfig) == 0.156
    ensures RightFraction(DefaultConfig) == 0.204
    ensures 0.0 <= LeftFraction(DefaultConfig) <= 1.0
    ensures 0.0 <= RightFraction(DefaultConfig) <= 1.0
  {
  }

  /** The shaded quadrilateral, closed back to its first vertex: bottom-left,
      top-left, top-right, bottom-right. Every vertex moves right by the x
      offset; only the bottom vertices move up, by the y offset times 100 for
      percentages (else times 1). */
  function Background(xs: Lines, ys: Lines, rep: Representation, cfg: Config): (poly: seq<Point>)
    ensures |poly| == 5
    ensures poly[4] == poly[0]
  {
    var xsOffset := cfg.explodeBgXsOffset;
    var ysOffset := Scale(rep) * cfg.explodeBgYsOffset;
    [ Point(xs.bottom.left + xsOffset, ys.bottom.left + ysOffset),
      Point(xs.top.left + xsOffset, ys.top.left),
      Point(xs.top.right + xsOffset, ys.top.right),
      Point(xs.bottom.right + xsOffset, ys.bottom.right + ysOffset),
      Point(xs.bottom.left + xsOffset, ys.bottom.left + ysOffset) ]
  }

  function Shift(p: Point, dx: real, dy: real): Point
  {
    Point(p.x + dx, p.y + dy)
  }

  /** `display_explosion` for gap `k`: nothing without a link; otherwise the
      two lines, the captions the link carries (when captions are on) and the
      background (when it is on). */
  function Explosion(left: seq<real>, right: seq<real>, k: int, link: Option<Link>, rep: Representation, cfg: Config)
    : (w: Option<WedgeDraw>)
    requires LinkResolvable(|left|, |right|, link)
    ensures w.Some? <==> link.Some?
    ensures w.Some? ==>
      && |w.value.bottomLine| == 2
      && |w.value.topLine| == 2
      && w.value.bottomLine == [Point(XPoints(k).bottom.left, YPoints(left, right, link).bottom.left),
                                Point(XPoints(k).bottom.right, YPoints(left, right, link).bottom.right)]
      && w.value.topLine == [Point(XPoints(k).top.left, YPoints(left, right, link).top.left),
                             Point(XPoints(k).top.right, YPoints(left, right, link).top.right)]
      && (w.value.leftCaption.Some? <==> cfg.explodeLabel && link.value.source.caption.Some?)
      && (w.value.rightCaption.Some? <==> cfg.explodeLabel && link.value.dest.caption.Some?)
      && (w.value.background.Some? <==> cfg.explodeBg)
  {
    if link.None? then None
    else
      var ys := YPoints(left, right, link);
      var xs := XPoints(k);
      var bottomLine := [Point(xs.bottom.left, ys.bottom.left), Point(xs.bottom.right, ys.bottom.right)];
      var topLine := [Point(xs.top.left, ys.top.left), Point(xs.top.right, ys.top.right)];
      var src, dst := link.value.source, link.value.dest;
      var leftCaption :=
        if cfg.explodeLabel && src.caption.Some?
        then Some(Text(k as real + cfg.explodeLabelOffsetLeft, LeftCaptionY(ys, cfg), src.caption.value))
        else None;
      var rightCaption :=
        if cfg.explodeLabel && dst.caption.Some?
        then Some(Text(k as real + cfg.explodeLabelOffsetRight, RightCaptionY(ys, cfg), dst.caption.value))
        else None;
      var background := if cfg.explodeBg then Some(Background(xs, ys, rep, cfg)) else None;
      Some(WedgeDraw(bottomLine, topLine, leftCaption, rightCaption, background))
  }

  /** The background is the quadrilateral between the two drawn lines: its
      top vertices are the top line's ends and its bottom vertices the bottom
      line's ends, all shifted right by the x offset and the bottom ones up by
      the y offset (100 times larger for percentages). */
  lemma BackgroundFollowsLines(left: seq<real>, right: seq<real>, k: int, link: Option<Link>, rep: Representation, cfg: Config)
    requires LinkResolvable(|left|, |right|, link)
    requires link.Some? && cfg.explodeBg
    ensures var w := Explosion(left, right, k, link, rep, cfg).value;
      var xo, yo := cfg.explodeBgXsOffset, Scale(rep) * cfg.explodeBgYsOffset;
      && w.background.Some?
      && w.background.value == [ Shift(w.bottomLine[0], xo, yo), Shift(w.topLine[0], xo, 0.0),
                                 Shift(w.topLine[1], xo, 0.0), Shift(w.bottomLine[1], xo, yo),
                                 Shift(w.bottomLine[0], xo, yo) ]
  {
    var w := Explosion(left, right, k, link, rep, cfg).value;
    var xs, ys := XPoints(k), YPoints(left, right, link);
    var xo, yo := cfg.explodeBgXsOffset, Scale(rep) * cfg.explodeBgYsOffset;
    assert w.background == Some(Background(xs, ys, rep, cfg));
    assert w.bottomLine[0] == Point(xs.bottom.left, ys.bottom.left);
    assert w.bottomLine[1] == Point(xs.bottom.right, ys.bottom.right);
    assert w.topLine[0] == Point(xs.top.left, ys.top.left);
    assert w.topLine[1] == Point(xs.top.right, ys.top.right);
    assert Background(xs, ys, rep, cfg)[0] == Shift(w.bottomLine[0], xo, yo);
    assert Background(xs, ys, rep, cfg)[1] == Shift(w.topLine[0], xo, 0.0);
    assert Background(xs, ys, rep, cfg)[2] == Shift(w.topLine[1], xo, 0.0);
    assert Background(xs, ys, rep, cfg)[3] == Shift(w.bottomLine[1], xo, yo);
  }

  /** The captions `display_explosion` draws are the interpolated ones: each
      sits at its x offset within gap `k`, carries its side's caption text,
      and (for fractions in [0, 1]) lies between the two midpoints of the
      lines actually drawn. */
  lemma DrawnCaptionsBetweenMidpoints(left: seq<real>, right: seq<real>, k: int, link: Option<Link>, rep: Representation, cfg: Config)
    requires LinkResolvable(|left|, |right|, link)
    requires link.Some?
    requires 0.0 <= LeftFraction(cfg) <= 1.0
    requires 0.0 <= RightFraction(cfg) <= 1.0
    ensures var w := Explosion(left, right, k, link, rep, cfg).value;
      var ys := YPoints(left, right, link);
      var lo, hi := Min(MidLeft(ys), MidRight(ys)), Max(MidLeft(ys), MidRight(ys));
      && (w.leftCaption.Some? ==>
            && w.leftCaption.value == Text(k as real + cfg.explodeLabelOffsetLeft, LeftCaptionY(ys, cfg), link.value.source.caption.value)
            && lo <= w.leftCaption.value.y <= hi)
      && (w.rightCaption.Some? ==>
            && w.rightCaption.value == Text(k as real + cfg.explodeLabelOffsetRight, RightCaptionY(ys, cfg), link.value.dest.caption.value)
            && lo <= w.rightCaption.value.y <= hi)
  {
    CaptionsBetweenMidpoints(YPoints(left, right, link), cfg);
  }

  /** For concrete ranges on both sides, each end of the wedge spans exactly
      the emphasised boxes: on the left the source range's boxes, on the
      right the destination range's, from the top of the box below the range
      to the top of its last box. */
  lemma WedgeSpansRanges(left: seq<real>, right: seq<real>, k: int,
                         lo: int, hi: int, lo': int, hi': int, c: Option<string>, c': Option<string>,
                         rep: Representation, cfg: Config)
    requires 0 <= lo <= hi < |left|
    requires 0 <= lo' <= hi' < |right|
    ensures var link := Some(Link(Range(Some(lo), Some(hi), c), Range(Some(lo'), Some(hi'), c')));
      var w := Explosion(left, right, k, link, rep, cfg).value;
      && w.bottomLine == [Point(k as real + 0.50, Sum(left[..lo])), Point(k as real + 0.99, Sum(right[..lo']))]
      && w.topLine == [Point(k as real + 0.50, Sum(left[..hi + 1])), Point(k as real + 0.99, Sum(right[..hi' + 1]))]
      && w.topLine[0].y - w.bottomLine[0].y == Sum(left[lo..hi + 1])
      && w.topLine[1].y - w.bottomLine[1].y == Sum(right[lo'..hi' + 1])
  {
    ResolveConcrete(left, lo, hi, c);
    ResolveConcrete(right, lo', hi', c');
  }
}
