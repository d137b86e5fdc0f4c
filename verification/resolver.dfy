/** `explosion_line_y_top_and_bottom`: the heights where one side of a
    wedge meets a stack, found by walking the stack bottom to top.

    The walk adds every value to `top`, stops right after the box whose index
    equals `high`, and only then adds the value to `bottom` when the index is
    below `low`. So `top` is a prefix sum through `high` (or the whole stack
    when `high` matches no index), and `bottom` is a prefix sum over the
    indices below both `low` and `high`. */
module Resolver {
  import opened ChartTypes
  import opened PrefixSums

  /** The source returns the pair in this order: `(top, bottom)`. */
  datatype TopBottom = TopBottom(top: real, bottom: real)

  /** The walk never compares an index with a `None` lower bound: either
      `low` is given, or the stack is empty, or the very first box is the
      top one and the walk stops before the comparison. */
  predicate Resolvable(n: nat, r: Range)
  {
    r.low.Some? || n == 0 || r.high == Some(0)
  }

  /** Whether `high` names a box of a stack of `n` boxes. */
  predicate HighMatches(n: nat, high: Option<int>)
  {
    high.Some? && 0 <= high.value < n
  }

  /** How many boxes the walk adds to `top`. */
  function TopCount(n: nat, high: Option<int>): (c: nat)
    ensures c <= n
  {
    if HighMatches(n, high) then high.value + 1 else n
  }

  /** How many boxes (from the bottom) the walk adds to `bottom`. */
  function BottomCount(n: nat, low: Option<int>, high: Option<int>): (c: nat)
    ensures c <= TopCount(n, high)
    ensures HighMatches(n, high) ==> c <= high.value
  {
    var stop := if HighMatches(n, high) then high.value else n;
    if low.None? || low.value <= 0 then 0
    else if low.value < stop then low.value
    else stop
  }

  /** The loop of the source from index `i` on, with running totals. */
  function Walk(vs: seq<real>, r: Range, i: nat, top: real, bottom: real): TopBottom
    requires i <= |vs|
    requires r.low.Some? || i == |vs| || r.high == Some(i)
    decreases |vs| - i
  {
    if i == |vs| then TopBottom(top, bottom)
    else if r.high == Some(i) then TopBottom(top + vs[i], bottom)
    else Walk(vs, r, i + 1, top + vs[i], if i < r.low.value then bottom + vs[i] else bottom)
  }

  /** How far `bottom` has got after the walk has passed `i` boxes. */
  function BottomSoFar(low: Option<int>, i: nat): nat
  {
    if low.None? || low.value <= 0 then 0
    else if low.value < i then low.value
    else i
  }

  /** The walk from any point keeps `top` and `bottom` equal to the prefix
      sums it has covered, and ends on the counts above. */
  lemma {:induction false} WalkSums(vs: seq<real>, r: Range, i: nat, top: real, bottom: real)
    requires i <= |vs|
    requires r.low.Some? || i == |vs| || r.high == Some(i)
    requires !(r.high.Some? && 0 <= r.high.value < i)
    requires top == Sum(vs[..i])
    requires bottom == Sum(vs[..BottomSoFar(r.low, i)])
    ensures Walk(vs, r, i, top, bottom)
         == TopBottom(Sum(vs[..TopCount(|vs|, r.high)]), Sum(vs[..BottomCount(|vs|, r.low, r.high)]))
    decreases |vs| - i
  {
    if i == |vs| {
      assert vs[..i] == vs;
    } else if r.high == Some(i) {
      SumPrefixStep(vs, i);
    } else {
      SumPrefixStep(vs, i);
      if i < r.low.value {
        assert BottomSoFar(r.low, i) == i;
      }
      WalkSums(vs, r, i + 1, top + vs[i], if i < r.low.value then bottom + vs[i] else bottom);
    }
  }

  /** One side of a wedge: `top` sums the boxes through `high` (all of them
      when `high` names no box), `bottom` the boxes below both `low` and
      `high`. */
  function YTopAndBottom(vs: seq<real>, r: Range): (tb: TopBottom)
    requires Resolvable(|vs|, r)
    ensures tb.top == Sum(vs[..TopCount(|vs|, r.high)])
    ensures tb.bottom == Sum(vs[..BottomCount(|vs|, r.low, r.high)])
  {
    WalkSums(vs, r, 0, 0.0, 0.0);
    Walk(vs, r, 0, 0.0, 0.0)
  }

  /** A concrete range `0 <= low <= high < |vs|`: `top` sums boxes `0..high`
      inclusive, `bottom` boxes `0..low` exclusive, and their difference is
      the total of the emphasised boxes `low..high`. */
  lemma ResolveConcrete(vs: seq<real>, low: int, high: int, caption: Option<string>)
    requires 0 <= low <= high < |vs|
    ensures YTopAndBottom(vs, Range(Some(low), Some(high), caption)) == TopBottom(Sum(vs[..high + 1]), Sum(vs[..low]))
    ensures YTopAndBottom(vs, Range(Some(low), Some(high), caption)).top
          - YTopAndBottom(vs, Range(Some(low), Some(high), caption)).bottom == Sum(vs[low..high + 1])
  {
    SumSplit(vs, low, high + 1);
  }

  /** When `high` names no box (it is `None`, negative or past the end) the
      walk never stops early: `top` is the whole stack's total. */
  lemma ResolveUnmatchedHigh(vs: seq<real>, r: Range)
    requires Resolvable(|vs|, r)
    requires !HighMatches(|vs|, r.high)
    ensures YTopAndBottom(vs, r).top == Sum(vs)
  {
    assert vs[..|vs|] == vs;
  }

  /** With no negative values, the bottom of a wedge side never lies above
      its top, whatever the bounds. */
  lemma ResolveBottomBelowTop(vs: seq<real>, r: Range)
    requires Resolvable(|vs|, r)
    requires NonNegative(vs)
    ensures YTopAndBottom(vs, r).bottom <= YTopAndBottom(vs, r).top
  {
    PrefixMonotone(vs, BottomCount(|vs|, r.low, r.high), TopCount(|vs|, r.high));
  }

  /** A missing lower bound with `high == 0` gives the first box, from 0. */
  lemma ResolveFromBottom(vs: seq<real>, caption: Option<string>)
    requires |vs| > 0
    ensures YTopAndBottom(vs, Range(None, Some(0), caption)) == TopBottom(vs[0], 0.0)
  {
    SumPrefixStep(vs, 0);
  }

  /** The stack [2, 3, 5] with boxes 1..2 emphasised: top 10, bottom 2; and
      with boxes up to 0 from a missing lower bound: top 2, bottom 0. */
  lemma ResolveExamples()
    ensures YTopAndBottom([2.0, 3.0, 5.0], Range(Some(1), Some(2), None)) == TopBottom(10.0, 2.0)
    ensures YTopAndBottom([2.0, 3.0, 5.0], Range(None, Some(0), None)) == TopBottom(2.0, 0.0)
  {
    var vs := [2.0, 3.0, 5.0];
    assert vs[..3] == vs;
    assert vs[..3][..2] == [2.0, 3.0];
    assert [2.0, 3.0][..1] == [2.0];
    assert vs[..1] == [2.0];
    assert [2.0][..0] == [];
    ResolveFromBottom(vs, None);
  }
}
