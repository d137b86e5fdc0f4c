/** `normalize_or_percentage_data`: per-bar totals and, unless the
    representation is `None`, every bar rescaled to a common height.

    The source divides in place on a deep copy the caller made for it; here
    the normaliser returns the new data instead. */
module Normalizer {
  import opened ChartTypes
  import opened PrefixSums

  /** The total height of one bar. */
  function BarSum(bar: Stack): real
  {
    Sum(Values(bar))
  }

  /** The normalised data and, per bar, the height of its relative-size bar. */
  datatype Normalized = Normalized(data: seq<Stack>, sums: seq<real>)

  /** Every value divided by the bar's total and multiplied by `scale`; names
      and colours are untouched, and the bar then sums to `scale`. */
  function ScaleBar(bar: Stack, total: real, scale: real): (r: Stack)
    requires total != 0.0 || |bar| == 0
    ensures |r| == |bar|
    ensures total != 0.0 ==> BarSum(r) == BarSum(bar) / total * scale
  {
    var r := seq(|bar|, i requires 0 <= i < |bar| => bar[i].(value := bar[i].value / total * scale));
    if total != 0.0 then
      assert Values(r) == Scaled(Values(bar), total, scale) by {
        forall i | 0 <= i < |bar|
          ensures Values(r)[i] == Scaled(Values(bar), total, scale)[i]
        {
        }
      }
      SumScaled(Values(bar), total, scale);
      r
    else
      r
  }

  /** Each rescaled box keeps its name and colour, and its value is its
      share of the bar's total times the scale. */
  lemma ScaleBarShares(bar: Stack, total: real, scale: real)
    requires total != 0.0
    ensures forall j | 0 <= j < |bar| ::
      var out := ScaleBar(bar, total, scale)[j];
      && out.name == bar[j].name
      && out.color == bar[j].color
      && out.value * total == bar[j].value * scale
  {
    forall j | 0 <= j < |bar|
      ensures ScaleBar(bar, total, scale)[j].value * total == bar[j].value * scale
    {
      var v := bar[j].value;
      assert v / total * total == v;
    }
  }

  /** A bar normalises without dividing by zero: its own entries are only
      divided when it has any, and its total is always divided by the first
      bar's total. */
  predicate Divisible(bar: Stack, first: real)
  {
    (|bar| == 0 || BarSum(bar) != 0.0) && first != 0.0
  }

  /** One pass of the outer loop: the (possibly rescaled) bar and its entry
      of `bar_sums`. */
  function NormalizeBar(bar: Stack, rep: Representation, first: real): (r: Result<(Stack, real)>)
    ensures r.Success? <==> rep.Raw? || Divisible(bar, first)
  {
    var total := BarSum(bar);
    if rep.Raw? then Success((bar, total))
    else if |bar| > 0 && total == 0.0 then Failure(ZeroDivision)
    else if first == 0.0 then Failure(ZeroDivision)
    else Success((ScaleBar(bar, total, Scale(rep)), total / first * Scale(rep)))
  }

  /** The outer loop from bar `i` on; `first` is the first bar's total. */
  function NormalizeFrom(data: seq<Stack>, rep: Representation, first: real, i: nat): Result<Normalized>
    requires i <= |data|
    decreases |data| - i
  {
    if i == |data| then Success(Normalized([], []))
    else
      match NormalizeBar(data[i], rep, first)
      case Failure(e) => Failure(e)
      case Success(head) =>
        match NormalizeFrom(data, rep, first, i + 1)
        case Failure(e) => Failure(e)
        case Success(rest) => Success(Normalized([head.0] + rest.data, [head.1] + rest.sums))
  }

  function NormalizeData(data: seq<Stack>, rep: Representation): Result<Normalized>
  {
    if |data| == 0 then Success(Normalized([], []))
    else NormalizeFrom(data, rep, BarSum(data[0]), 0)
  }

  /** The loop succeeds exactly when every bar from `i` on does, and then
      holds each bar's own result in order. */
  lemma {:induction false} NormalizeFromSpec(data: seq<Stack>, rep: Representation, first: real, i: nat)
    requires i <= |data|
    ensures NormalizeFrom(data, rep, first, i).Success? <==>
      forall j | i <= j < |data| :: NormalizeBar(data[j], rep, first).Success?
    ensures NormalizeFrom(data, rep, first, i).Success? ==>
      var n := NormalizeFrom(data, rep, first, i).value;
      && |n.data| == |data| - i
      && |n.sums| == |data| - i
      && forall j | i <= j < |data| :: (n.data[j - i], n.sums[j - i]) == NormalizeBar(data[j], rep, first).value
    decreases |data| - i
  {
    if i < |data| {
      NormalizeFromSpec(data, rep, first, i + 1);
      var head := NormalizeBar(data[i], rep, first);
      var rest := NormalizeFrom(data, rep, first, i + 1);
      if head.Success? && rest.Success? {
        var n := NormalizeFrom(data, rep, first, i).value;
        assert n == Normalized([head.value.0] + rest.value.data, [head.value.1] + rest.value.sums);
        forall j | i <= j < |data|
          ensures (n.data[j - i], n.sums[j - i]) == NormalizeBar(data[j], rep, first).value
        {
          if j > i {
            assert n.data[j - i] == rest.value.data[j - (i + 1)];
            assert n.sums[j - i] == rest.value.sums[j - (i + 1)];
          }
        }
      }
    }
  }

  /** Bar `i` of a successful run is that bar's own pass of the loop, run
      with the first bar's total. */
  lemma NormalizeAt(data: seq<Stack>, rep: Representation, i: nat)
    requires NormalizeData(data, rep).Success?
    requires i < |data|
    ensures |NormalizeData(data, rep).value.data| == |data|
    ensures |NormalizeData(data, rep).value.sums| == |data|
    ensures NormalizeBar(data[i], rep, BarSum(data[0])).Success?
    ensures (NormalizeData(data, rep).value.data[i], NormalizeData(data, rep).value.sums[i])
         == NormalizeBar(data[i], rep, BarSum(data[0])).value
  {
    NormalizeFromSpec(data, rep, BarSum(data[0]), 0);
    assert i - 0 == i;
  }

  /** The height of bar `i`'s relative-size bar, from the caller's data: its
      literal total without a representation, otherwise its total as a ratio
      to the first bar's, times the scale. */
  function RelativeSize(data: seq<Stack>, rep: Representation, i: nat): real
    requires i < |data|
    requires rep.Raw? || BarSum(data[0]) != 0.0
  {
    if rep.Raw? then BarSum(data[i]) else BarSum(data[i]) / BarSum(data[0]) * Scale(rep)
  }

  /** Each bar's entry of the totals is its relative size. */
  lemma RelativeSizeAt(data: seq<Stack>, rep: Representation, i: nat)
    requires NormalizeData(data, rep).Success?
    requires i < |data|
    ensures |NormalizeData(data, rep).value.sums| == |data|
    ensures NormalizeData(data, rep).value.sums[i]
         == if rep.Raw? then BarSum(data[i]) else BarSum(data[i]) / BarSum(data[0]) * Scale(rep)
    ensures rep.Raw? || BarSum(data[0]) != 0.0
    ensures NormalizeData(data, rep).value.sums[i] == RelativeSize(data, rep, i)
  {
    NormalizeAt(data, rep, i);
  }

  /** Raw representation: the values are unchanged and each bar's entry is
      its literal total. */
  lemma NormalizeRaw(data: seq<Stack>)
    ensures NormalizeData(data, Raw).Success?
    ensures NormalizeData(data, Raw).value.data == data
    ensures |NormalizeData(data, Raw).value.sums| == |data|
    ensures forall i | 0 <= i < |data| :: NormalizeData(data, Raw).value.sums[i] == BarSum(data[i])
  {
    if |data| > 0 {
      NormalizeFromSpec(data, Raw, BarSum(data[0]), 0);
      var n := NormalizeData(data, Raw).value;
      assert n.data == data by {
        forall j | 0 <= j < |data|
          ensures n.data[j] == data[j]
        {
          assert (n.data[j - 0], n.sums[j - 0]) == NormalizeBar(data[j], Raw, BarSum(data[0])).value;
        }
      }
      forall j | 0 <= j < |data|
        ensures n.sums[j] == BarSum(data[j])
      {
        assert (n.data[j - 0], n.sums[j - 0]) == NormalizeBar(data[j], Raw, BarSum(data[0])).value;
      }
    }
  }

  /** Normalisation fails exactly on a division by a zero total: the first
      bar sums to zero, or some non-empty bar does. */
  lemma NormalizeFailsIff(data: seq<Stack>, rep: Representation)
    ensures NormalizeData(data, rep).Failure? <==>
      && rep.Named?
      && |data| > 0
      && (BarSum(data[0]) == 0.0 || exists i | 0 <= i < |data| :: |data[i]| > 0 && BarSum(data[i]) == 0.0)
  {
    if |data| > 0 {
      NormalizeFromSpec(data, rep, BarSum(data[0]), 0);
      if rep.Named? && NormalizeData(data, rep).Success? {
        assert NormalizeBar(data[0], rep, BarSum(data[0])).Success?;
        forall i | 0 <= i < |data| && |data[i]| > 0
          ensures BarSum(data[i]) != 0.0
        {
          assert NormalizeBar(data[i], rep, BarSum(data[0])).Success?;
        }
      }
    }
  }

  /** Any other representation succeeds only on non-zero totals: the first
      bar's, and every non-empty bar's. */
  lemma NormalizeScaledTotals(data: seq<Stack>, rep: Representation)
    requires rep.Named?
    requires NormalizeData(data, rep).Success?
    ensures |data| > 0 ==> BarSum(data[0]) != 0.0
    ensures forall i | 0 <= i < |data| && |data[i]| > 0 :: BarSum(data[i]) != 0.0
    ensures |NormalizeData(data, rep).value.data| == |data|
    ensures |NormalizeData(data, rep).value.sums| == |data|
  {
    NormalizeFailsIff(data, rep);
    if |data| > 0 {
      NormalizeAt(data, rep, 0);
    }
  }

  /** Any other representation: every bar becomes its values as shares of
      its own total times the scale (100 for "percentage", else 1), so each
      non-empty bar sums to the scale. */
  lemma NormalizeScaledBars(data: seq<Stack>, rep: Representation)
    requires rep.Named?
    requires NormalizeData(data, rep).Success?
    ensures |NormalizeData(data, rep).value.data| == |data|
    ensures forall i | 0 <= i < |data| ::
      (|data[i]| > 0 ==> BarSum(data[i]) != 0.0) &&
      NormalizeData(data, rep).value.data[i] == ScaleBar(data[i], BarSum(data[i]), Scale(rep))
    ensures forall i | 0 <= i < |data| && |data[i]| > 0 :: BarSum(NormalizeData(data, rep).value.data[i]) == Scale(rep)
  {
    NormalizeScaledTotals(data, rep);
    var n := NormalizeData(data, rep).value;
    forall i | 0 <= i < |data|
      ensures n.data[i] == ScaleBar(data[i], BarSum(data[i]), Scale(rep))
      ensures |data[i]| > 0 ==> BarSum(n.data[i]) == Scale(rep)
    {
      NormalizeAt(data, rep, i);
      if |data[i]| > 0 {
        var t := BarSum(data[i]);
        assert t != 0.0;
        assert t / t == 1.0;
      }
    }
  }

  /** Any other representation: the relative-size entries are the totals as
      ratios to the first bar's total, times the scale, so the first is the
      scale itself. */
  lemma NormalizeScaledSums(data: seq<Stack>, rep: Representation)
    requires rep.Named?
    requires NormalizeData(data, rep).Success?
    ensures |NormalizeData(data, rep).value.sums| == |data|
    ensures |data| > 0 ==> BarSum(data[0]) != 0.0
    ensures forall i | 0 <= i < |data| ::
      NormalizeData(data, rep).value.sums[i] == BarSum(data[i]) / BarSum(data[0]) * Scale(rep)
    ensures |data| > 0 ==> NormalizeData(data, rep).value.sums[0] == Scale(rep)
  {
    NormalizeScaledTotals(data, rep);
    var n := NormalizeData(data, rep).value;
    forall i | 0 <= i < |data|
      ensures n.sums[i] == BarSum(data[i]) / BarSum(data[0]) * Scale(rep)
    {
      NormalizeAt(data, rep, i);
    }
  }

  /** Normalisation changes values only: every bar keeps its length and
      every box its name and colour, and there is one relative-size entry
      per bar. */
  lemma NormalizeKeepsLabels(data: seq<Stack>, rep: Representation)
    requires NormalizeData(data, rep).Success?
    ensures |NormalizeData(data, rep).value.data| == |data|
    ensures |NormalizeData(data, rep).value.sums| == |data|
    ensures forall i | 0 <= i < |data| :: |NormalizeData(data, rep).value.data[i]| == |data[i]|
    ensures forall i, j | 0 <= i < |data| && 0 <= j < |data[i]| ::
      && NormalizeData(data, rep).value.data[i][j].name == data[i][j].name
      && NormalizeData(data, rep).value.data[i][j].color == data[i][j].color
  {
    if rep.Raw? {
      NormalizeRaw(data);
    } else {
      NormalizeScaledBars(data, rep);
      NormalizeScaledSums(data, rep);
      forall i | 0 <= i < |data| && |data[i]| > 0
        ensures forall j | 0 <= j < |data[i]| ::
          && ScaleBar(data[i], BarSum(data[i]), Scale(rep))[j].name == data[i][j].name
          && ScaleBar(data[i], BarSum(data[i]), Scale(rep))[j].color == data[i][j].color
      {
        ScaleBarShares(data[i], BarSum(data[i]), Scale(rep));
      }
    }
  }

  /** Two bars of two unit boxes each, as percentages: every box is 50 and
      both relative-size entries are 100. */
  lemma TwoEvenBarsArePercentHalves(a: string, b: string, ca: string, cb: string)
    ensures NormalizeData([[Segment(1.0, a, ca), Segment(1.0, b, cb)], [Segment(1.0, a, ca), Segment(1.0, b, cb)]],
                          Named("percentage"))
         == Success(Normalized([[Segment(50.0, a, ca), Segment(50.0, b, cb)], [Segment(50.0, a, ca), Segment(50.0, b, cb)]],
                               [100.0, 100.0]))
  {
    var bar := [Segment(1.0, a, ca), Segment(1.0, b, cb)];
    var data := [bar, bar];
    var half := [Segment(50.0, a, ca), Segment(50.0, b, cb)];
    assert BarSum(bar) == 2.0 by {
      assert Values(bar) == [1.0, 1.0];
      assert [1.0, 1.0][..1] == [1.0];
      assert [1.0][..0] == [];
      assert Sum([1.0]) == 1.0;
    }
    NormalizeFailsIff(data, Named("percentage"));
    NormalizeScaledBars(data, Named("percentage"));
    NormalizeScaledSums(data, Named("percentage"));
    var n := NormalizeData(data, Named("percentage")).value;
    assert ScaleBar(bar, 2.0, 100.0) == half;
    assert n.data == [half, half];
    assert n.sums == [100.0, 100.0];
  }
}
