/** `cascaded_exploding_barcharts`: normalise a copy of the data, draw stack
    0, then for every gap k draw the wedges of stack k's links and stack k+1.

    The order of the drawing calls depends only on the number of stacks and
    on which links are present, so it is modelled as a `Schedule` of steps;
    carrying out each step gives the trace of what is drawn. */
module Driver {
  import opened ChartTypes
  import opened Normalizer
  import opened Wedge
  import opened StackChart
  import opened Colors

  /** The arguments: the stacks, per stack its list of links (entry k holds
      the wedges from stack k to stack k+1, whose source ranges also select
      stack k's emphasised boxes), per stack its optional label, and the
      representation. */
  datatype Chart = Chart(
    data: seq<Stack>,
    emphasis: seq<seq<Option<Link>>>,
    barLabels: seq<Option<string>>,
    rep: Representation)

  /** One drawing call: stack `index`, or the wedge of `link` in gap `gap`. */
  datatype Step = StackStep(index: nat) | WedgeStep(gap: nat, link: Link)

  /** What one drawing call draws. */
  datatype Event = StackDrawn(index: nat, stack: StackDraw) | WedgeDrawn(gap: nat, wedge: WedgeDraw)

  // ---------------------------------------------------------------------
  // The order of the calls

  /** The inner loop over gap `k`'s links: a `None` link draws nothing. */
  function GapSteps(k: nat, links: seq<Option<Link>>): seq<Step>
  {
    if |links| == 0 then []
    else (if links[0].Some? then [WedgeStep(k, links[0].value)] else []) + GapSteps(k, links[1..])
  }

  /** The outer loop from gap `k` on: the wedges of gap k, then stack k + 1. */
  function ScheduleFrom(emphasis: seq<seq<Option<Link>>>, count: nat, k: nat): seq<Step>
    requires k < count <= |emphasis|
    decreases count - k
  {
    if k == count - 1 then []
    else GapSteps(k, emphasis[k]) + [StackStep(k + 1)] + ScheduleFrom(emphasis, count, k + 1)
  }

  /** Stack 0, then every gap of `count` stacks. */
  function Schedule(emphasis: seq<seq<Option<Link>>>, count: nat): seq<Step>
    requires 0 < count <= |emphasis|
  {
    [StackStep(0)] + ScheduleFrom(emphasis, count, 0)
  }

  /** Stack i comes at rank 2i and the wedges of gap k at rank 2k + 1. */
  function Rank(step: Step): nat
  {
    match step
    case StackStep(i) => 2 * i
    case WedgeStep(k, _) => 2 * k + 1
  }

  predicate Sorted(t: seq<Step>)
  {
    forall a, b | 0 <= a <= b < |t| :: Rank(t[a]) <= Rank(t[b])
  }

  predicate RanksWithin(t: seq<Step>, lo: nat, hi: nat)
  {
    forall a | 0 <= a < |t| :: lo <= Rank(t[a]) <= hi
  }

  lemma SortedAppend(s: seq<Step>, t: seq<Step>, lo: nat, mid: nat, hi: nat)
    requires lo <= mid <= hi
    requires Sorted(s) && RanksWithin(s, lo, mid)
    requires Sorted(t) && RanksWithin(t, mid, hi)
    ensures Sorted(s + t) && RanksWithin(s + t, lo, hi)
  {
    forall a, b | 0 <= a <= b < |s + t|
      ensures Rank((s + t)[a]) <= Rank((s + t)[b])
    {
      if b < |s| {
        assert (s + t)[a] == s[a] && (s + t)[b] == s[b];
      } else if a < |s| {
        assert (s + t)[a] == s[a] && (s + t)[b] == t[b - |s|];
      } else {
        assert (s + t)[a] == t[a - |s|] && (s + t)[b] == t[b - |s|];
      }
    }
    forall a | 0 <= a < |s + t|
      ensures lo <= Rank((s + t)[a]) <= hi
    {
      if a < |s| {
        assert (s + t)[a] == s[a];
      } else {
        assert (s + t)[a] == t[a - |s|];
      }
    }
  }

  /** Every step of gap k's inner loop is a wedge of gap k for a link that
      is present in the list. */
  lemma {:induction false} GapStepsFromList(k: nat, links: seq<Option<Link>>)
    ensures forall a | 0 <= a < |GapSteps(k, links)| ::
      && GapSteps(k, links)[a].WedgeStep?
      && GapSteps(k, links)[a].gap == k
      && Some(GapSteps(k, links)[a].link) in links
  {
    if |links| > 0 {
      GapStepsFromList(k, links[1..]);
      var here := if links[0].Some? then [WedgeStep(k, links[0].value)] else [];
      forall a | 0 <= a < |GapSteps(k, links)|
        ensures Some(GapSteps(k, links)[a].link) in links
      {
        if a >= |here| {
          assert GapSteps(k, links)[a] == GapSteps(k, links[1..])[a - |here|];
        }
      }
    }
  }

  /** From gap k on, the schedule is sorted and its ranks run from 2k + 1
      to the last stack's. */
  lemma {:induction false} ScheduleFromSorted(emphasis: seq<seq<Option<Link>>>, count: nat, k: nat)
    requires k < count <= |emphasis|
    ensures Sorted(ScheduleFrom(emphasis, count, k))
    ensures RanksWithin(ScheduleFrom(emphasis, count, k), 2 * k + 1, 2 * (count - 1))
    decreases count - k
  {
    if k < count - 1 {
      var w := GapSteps(k, emphasis[k]);
      var s := [StackStep(k + 1)];
      GapStepsFromList(k, emphasis[k]);
      ScheduleFromSorted(emphasis, count, k + 1);
      SortedAppend(w, s, 2 * k + 1, 2 * k + 1, 2 * k + 2);
      SortedAppend(w + s, ScheduleFrom(emphasis, count, k + 1), 2 * k + 1, 2 * k + 2, 2 * (count - 1));
    }
  }

  /** The drawing order: the calls never go back, so every wedge of gap k is
      drawn after stack k and before stack k + 1, and everything lies between
      stack 0 and the last stack. */
  lemma ScheduleSorted(emphasis: seq<seq<Option<Link>>>, count: nat)
    requires 0 < count <= |emphasis|
    ensures Sorted(Schedule(emphasis, count))
    ensures RanksWithin(Schedule(emphasis, count), 0, 2 * (count - 1))
  {
    ScheduleFromSorted(emphasis, count, 0);
    SortedAppend([StackStep(0)], ScheduleFrom(emphasis, count, 0), 0, 0, 2 * (count - 1));
  }

  /** The stack steps of a schedule, in order. */
  function Stacks(t: seq<Step>): seq<Step>
  {
    if |t| == 0 then [] else (if t[0].StackStep? then [t[0]] else []) + Stacks(t[1..])
  }

  /** The wedge steps of gap k in a schedule, in order. */
  function WedgesOf(t: seq<Step>, k: nat): seq<Step>
  {
    if |t| == 0 then [] else (if t[0].WedgeStep? && t[0].gap == k then [t[0]] else []) + WedgesOf(t[1..], k)
  }

  lemma {:induction false} StacksAppend(s: seq<Step>, t: seq<Step>)
    ensures Stacks(s + t) == Stacks(s) + Stacks(t)
  {
    if |s| > 0 {
      assert (s + t)[1..] == s[1..] + t;
      StacksAppend(s[1..], t);
    } else {
      assert s + t == t;
    }
  }

  lemma {:induction false} WedgesOfAppend(s: seq<Step>, t: seq<Step>, k: nat)
    ensures WedgesOf(s + t, k) == WedgesOf(s, k) + WedgesOf(t, k)
  {
    if |s| > 0 {
      assert (s + t)[1..] == s[1..] + t;
      WedgesOfAppend(s[1..], t, k);
    } else {
      assert s + t == t;
    }
  }

  /** The inner loop of gap k draws no stack, and its wedges are the wedges
      of gap k and of no other gap. */
  lemma {:induction false} GapStepsFilters(k: nat, links: seq<Option<Link>>, g: nat)
    ensures Stacks(GapSteps(k, links)) == []
    ensures WedgesOf(GapSteps(k, links), g) == if g == k then GapSteps(k, links) else []
  {
    if |links| > 0 {
      var here := if links[0].Some? then [WedgeStep(k, links[0].value)] else [];
      GapStepsFilters(k, links[1..], g);
      StacksAppend(here, GapSteps(k, links[1..]));
      WedgesOfAppend(here, GapSteps(k, links[1..]), g);
      if |here| == 1 {
        assert here[1..] == [];
      }
    }
  }

  /** The number of links of a list that are not `None`. */
  function LinkCount(links: seq<Option<Link>>): nat
  {
    if |links| == 0 then 0 else (if links[0].Some? then 1 else 0) + LinkCount(links[1..])
  }

  /** The inner loop draws one wedge per link present, in list order. */
  lemma {:induction false} GapStepsCount(k: nat, links: seq<Option<Link>>)
    ensures |GapSteps(k, links)| == LinkCount(links)
    ensures |links| > 0 && links[0].Some? ==> GapSteps(k, links)[0] == WedgeStep(k, links[0].value)
  {
    if |links| > 0 {
      GapStepsCount(k, links[1..]);
    }
  }

  /** Stacks `from` to `count - 1`, in order. */
  function StackRun(from: nat, count: nat): seq<Step>
    decreases count - from
  {
    if from >= count then [] else [StackStep(from)] + StackRun(from + 1, count)
  }

  /** From gap k on, the stacks drawn are k + 1 onwards, one each, in order. */
  lemma {:induction false} ScheduleFromStacks(emphasis: seq<seq<Option<Link>>>, count: nat, k: nat)
    requires k < count <= |emphasis|
    ensures Stacks(ScheduleFrom(emphasis, count, k)) == StackRun(k + 1, count)
    decreases count - k
  {
    if k < count - 1 {
      var w, s, rest := GapSteps(k, emphasis[k]), [StackStep(k + 1)], ScheduleFrom(emphasis, count, k + 1);
      assert ScheduleFrom(emphasis, count, k) == w + (s + rest);
      ScheduleFromStacks(emphasis, count, k + 1);
      GapStepsFilters(k, emphasis[k], k);
      StacksAppend(w, s + rest);
      StacksAppend(s, rest);
      assert s[1..] == [];
    }
  }

  /** From gap k on, a gap g >= k has exactly the wedges of its own inner
      loop and an earlier gap has none. */
  lemma {:induction false} ScheduleFromWedges(emphasis: seq<seq<Option<Link>>>, count: nat, k: nat, g: nat)
    requires k < count <= |emphasis|
    ensures WedgesOf(ScheduleFrom(emphasis, count, k), g)
         == if k <= g < count - 1 then GapSteps(g, emphasis[g]) else []
    decreases count - k
  {
    if k < count - 1 {
      var w, s, rest := GapSteps(k, emphasis[k]), [StackStep(k + 1)], ScheduleFrom(emphasis, count, k + 1);
      assert ScheduleFrom(emphasis, count, k) == w + (s + rest);
      ScheduleFromWedges(emphasis, count, k + 1, g);
      GapStepsFilters(k, emphasis[k], g);
      WedgesOfAppend(w, s + rest, g);
      WedgesOfAppend(s, rest, g);
      assert s[1..] == [];
    }
  }

  /** Every stack is drawn exactly once and in order, and gap k gets one
      wedge per link in stack k's list that is not `None`, in list order; no
      wedge lies past the last stack. */
  lemma ScheduleContents(emphasis: seq<seq<Option<Link>>>, count: nat, k: nat)
    requires 0 < count <= |emphasis|
    ensures Stacks(Schedule(emphasis, count)) == StackRun(0, count)
    ensures WedgesOf(Schedule(emphasis, count), k) == if k < count - 1 then GapSteps(k, emphasis[k]) else []
    ensures k < count - 1 ==> |WedgesOf(Schedule(emphasis, count), k)| == LinkCount(emphasis[k])
  {
    var first := [StackStep(0)];
    ScheduleFromStacks(emphasis, count, 0);
    ScheduleFromWedges(emphasis, count, 0, k);
    StacksAppend(first, ScheduleFrom(emphasis, count, 0));
    WedgesOfAppend(first, ScheduleFrom(emphasis, count, 0), k);
    assert first[1..] == [];
    if k < count - 1 {
      GapStepsCount(k, emphasis[k]);
    }
  }

  /** `StackRun` lists exactly the stacks `from..count - 1`. */
  lemma {:induction false} StackRunIndices(from: nat, count: nat)
    ensures |StackRun(from, count)| == if from >= count then 0 else count - from
    ensures forall a | 0 <= a < |StackRun(from, count)| :: StackRun(from, count)[a] == StackStep(from + a)
    decreases count - from
  {
    if from < count {
      StackRunIndices(from + 1, count);
    }
  }

  // ---------------------------------------------------------------------
  // What each call draws

  /** What the data must look like for the driver not to index past a list
      or hit a `None` it reads: at least one stack, an emphasis list and a
      label for every stack (the loop reads entry k + 1 for the last gap),
      every stack drawable with its own list, and every link of a gap
      resolvable against the two stacks it joins. Normalisation changes
      values only, so these are checked on the caller's data. */
  predicate Renderable(c: Chart, cfg: Config)
  {
    && |c.data| >= 1
    && |c.emphasis| >= |c.data|
    && |c.barLabels| >= |c.data|
    && (forall i | 0 <= i < |c.data| :: Drawable(c.data[i], c.emphasis[i], cfg))
    && (forall k, j | 0 <= k < |c.data| - 1 && 0 <= j < |c.emphasis[k]| ::
          LinkResolvable(|c.data[k]|, |c.data[k + 1]|, c.emphasis[k][j]))
  }

  /** The same conditions on the normalised data `n`. */
  predicate Fits(c: Chart, n: Normalized, cfg: Config)
  {
    && |c.data| >= 1
    && |n.data| == |c.data|
    && |n.sums| == |c.data|
    && |c.emphasis| >= |c.data|
    && |c.barLabels| >= |c.data|
    && (forall i | 0 <= i < |c.data| :: Drawable(n.data[i], c.emphasis[i], cfg))
    && (forall k, j | 0 <= k < |c.data| - 1 && 0 <= j < |c.emphasis[k]| ::
          LinkResolvable(|n.data[k]|, |n.data[k + 1]|, c.emphasis[k][j]))
  }

  /** A step the chart can carry out: an existing stack, or a link of an
      existing gap that resolves against the two stacks it joins. */
  predicate CanPerform(c: Chart, n: Normalized, step: Step)
    requires |n.data| == |c.data|
  {
    match step
    case StackStep(i) => i < |c.data|
    case WedgeStep(k, link) => k < |c.data| - 1 && LinkResolvable(|n.data[k]|, |n.data[k + 1]|, Some(link))
  }

  /** Drawing stack i from the normalised bar i with its own list, label and
      relative size; or the explosion of a link between stacks k and k + 1. */
  function Perform(c: Chart, n: Normalized, cfg: Config, textHeight: string -> real, step: Step): Event
    requires Fits(c, n, cfg)
    requires CanPerform(c, n, step)
  {
    match step
    case StackStep(i) =>
      StackDrawn(i, DrawStack(n.data[i], c.emphasis[i], c.barLabels[i], n.sums[i], i, cfg, textHeight))
    case WedgeStep(k, link) =>
      WedgeDrawn(k, Explosion(Values(n.data[k]), Values(n.data[k + 1]), k, Some(link), c.rep, cfg).value)
  }

  /** A wedge step of gap k appears among the schedule's wedges of gap k. */
  lemma {:induction false} WedgeStepListed(t: seq<Step>, a: nat, k: nat)
    requires a < |t| && t[a].WedgeStep? && t[a].gap == k
    ensures exists b | 0 <= b < |WedgesOf(t, k)| :: WedgesOf(t, k)[b] == t[a]
  {
    var here := if t[0].WedgeStep? && t[0].gap == k then [t[0]] else [];
    if a == 0 {
      assert WedgesOf(t, k)[0] == t[0];
    } else {
      WedgeStepListed(t[1..], a - 1, k);
      var b :| 0 <= b < |WedgesOf(t[1..], k)| && WedgesOf(t[1..], k)[b] == t[1..][a - 1];
      assert WedgesOf(t, k)[|here| + b] == t[a];
    }
  }

  /** Every step of the schedule can be carried out. */
  lemma ScheduleCanPerform(c: Chart, n: Normalized, cfg: Config)
    requires Fits(c, n, cfg)
    ensures forall a | 0 <= a < |Schedule(c.emphasis, |c.data|)| :: CanPerform(c, n, Schedule(c.emphasis, |c.data|)[a])
  {
    var count := |c.data|;
    var t := Schedule(c.emphasis, count);
    ScheduleSorted(c.emphasis, count);
    forall a | 0 <= a < |t|
      ensures CanPerform(c, n, t[a])
    {
      if t[a].WedgeStep? {
        var k := t[a].gap;
        assert 2 * k + 1 <= 2 * (count - 1);
        ScheduleContents(c.emphasis, count, k);
        WedgeStepListed(t, a, k);
        GapStepsFromList(k, c.emphasis[k]);
        var j :| 0 <= j < |c.emphasis[k]| && c.emphasis[k][j] == Some(t[a].link);
      }
    }
  }

  /** The calls carried out on the normalised data, in schedule order. */
  function Trace(c: Chart, n: Normalized, cfg: Config, textHeight: string -> real): (t: seq<Event>)
    requires Fits(c, n, cfg)
    ensures |t| == |Schedule(c.emphasis, |c.data|)|
  {
    ScheduleCanPerform(c, n, cfg);
    var steps := Schedule(c.emphasis, |c.data|);
    seq(|steps|, a requires 0 <= a < |steps| => Perform(c, n, cfg, textHeight, steps[a]))
  }

  /** A stack drawable with its list stays drawable once its values change,
      as long as its length and colours do not. */
  lemma DrawableAfterNormalize(c: Chart, cfg: Config)
    requires Renderable(c, cfg)
    requires NormalizeData(c.data, c.rep).Success?
    ensures Fits(c, NormalizeData(c.data, c.rep).value, cfg)
  {
    var n := NormalizeData(c.data, c.rep).value;
    NormalizeKeepsLabels(c.data, c.rep);
    forall i | 0 <= i < |c.data|
      ensures Drawable(n.data[i], c.emphasis[i], cfg)
    {
      assert Drawable(c.data[i], c.emphasis[i], cfg);
      forall j | 0 <= j < |n.data[i]|
        ensures WellFormedColor(n.data[i][j].color)
      {
        assert n.data[i][j].color == c.data[i][j].color;
      }
    }
  }

  /** The whole chart: normalise, then draw, or the division error. */
  function Render(c: Chart, cfg: Config, textHeight: string -> real): (r: Result<seq<Event>>)
    requires Renderable(c, cfg)
    ensures r.Success? <==> NormalizeData(c.data, c.rep).Success?
  {
    match NormalizeData(c.data, c.rep)
    case Failure(e) => Failure(e)
    case Success(n) =>
      DrawableAfterNormalize(c, cfg);
      Success(Trace(c, n, cfg, textHeight))
  }

  /** Drawing fails exactly when normalising divides by zero: a
      representation is given and the first bar, or some non-empty bar, sums
      to zero. */
  lemma RenderFailsIff(c: Chart, cfg: Config, textHeight: string -> real)
    requires Renderable(c, cfg)
    ensures Render(c, cfg, textHeight).Failure? <==>
      && c.rep.Named?
      && (BarSum(c.data[0]) == 0.0 || exists i | 0 <= i < |c.data| :: |c.data[i]| > 0 && BarSum(c.data[i]) == 0.0)
  {
    NormalizeFailsIff(c.data, c.rep);
  }

  /** A successful render carries out the schedule in order: its a-th event
      is the a-th step performed on the normalised data. */
  lemma RenderFollowsSchedule(c: Chart, cfg: Config, textHeight: string -> real, a: nat)
    requires Renderable(c, cfg)
    requires Render(c, cfg, textHeight).Success?
    requires a < |Schedule(c.emphasis, |c.data|)|
    ensures NormalizeData(c.data, c.rep).Success?
    ensures var n := NormalizeData(c.data, c.rep).value;
      var t := Render(c, cfg, textHeight).value;
      var step := Schedule(c.emphasis, |c.data|)[a];
      && |t| == |Schedule(c.emphasis, |c.data|)|
      && Fits(c, n, cfg)
      && CanPerform(c, n, step)
      && t[a] == Perform(c, n, cfg, textHeight, step)
  {
    var n := NormalizeData(c.data, c.rep).value;
    DrawableAfterNormalize(c, cfg);
    ScheduleCanPerform(c, n, cfg);
  }

  // ---------------------------------------------------------------------
  // Heights after normalisation

  /** Each stack's relative-size bar stands at the stack's x plus the
      offset, is as high as the stack's total relative to the first stack's
      (its literal total without a representation), and carries the label of
      the stack's top box, which normalisation leaves as it was. */
  lemma RelativeBars(c: Chart, n: Normalized, cfg: Config, textHeight: string -> real, i: nat)
    requires NormalizeData(c.data, c.rep) == Success(n)
    requires Fits(c, n, cfg)
    requires cfg.relative
    requires i < |c.data| && |c.data[i]| > 0
    ensures c.rep.Raw? || BarSum(c.data[0]) != 0.0
    ensures var e := Perform(c, n, cfg, textHeight, StackStep(i));
      && e.StackDrawn?
      && e.stack.relative
         == Some(RelativeBar(i as real + cfg.relativeBoxHOffset, RelativeSize(c.data, c.rep, i), c.data[i][|c.data[i]| - 1].name))
  {
    var last := |c.data[i]| - 1;
    var s := DrawStack(n.data[i], c.emphasis[i], c.barLabels[i], n.sums[i], i, cfg, textHeight);
    assert Perform(c, n, cfg, textHeight, StackStep(i)) == StackDrawn(i, s);
    assert |n.data[i]| == |c.data[i]| && n.data[i][last].name == c.data[i][last].name by {
      NormalizeKeepsLabels(c.data, c.rep);
    }
    assert s.relative == Some(RelativeBar(i as real + cfg.relativeBoxHOffset, n.sums[i], n.data[i][last].name)) by {
      StackOverlays(n.data[i], c.emphasis[i], c.barLabels[i], n.sums[i], i, cfg, textHeight);
    }
    RelativeSizeAt(c.data, c.rep, i);
  }

  /** With a representation, every non-empty stack is drawn to the same
      height, the scale: its top box ends there and its label sits there. */
  lemma LevelledStacks(c: Chart, n: Normalized, cfg: Config, textHeight: string -> real, i: nat)
    requires NormalizeData(c.data, c.rep) == Success(n)
    requires Fits(c, n, cfg)
    requires c.rep.Named?
    requires i < |c.data| && |c.data[i]| > 0
    ensures var e := Perform(c, n, cfg, textHeight, StackStep(i));
      && e.StackDrawn?
      && |e.stack.boxes| == |c.data[i]|
      && e.stack.boxes[|e.stack.boxes| - 1].bottom + e.stack.boxes[|e.stack.boxes| - 1].height == Scale(c.rep)
      && (e.stack.barLabel.Some? ==> e.stack.barLabel.value.y == Scale(c.rep))
  {
    var s := DrawStack(n.data[i], c.emphasis[i], c.barLabels[i], n.sums[i], i, cfg, textHeight);
    assert Perform(c, n, cfg, textHeight, StackStep(i)) == StackDrawn(i, s);
    assert |n.data[i]| == |c.data[i]| && BarSum(n.data[i]) == Scale(c.rep) by {
      NormalizeKeepsLabels(c.data, c.rep);
      NormalizeScaledBars(c.data, c.rep);
    }
    StackTiles(n.data[i], c.emphasis[i], c.barLabels[i], n.sums[i], i, cfg, textHeight);
  }
}
