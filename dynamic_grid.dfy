/**
 * The adaptive grid of the 2D plot (class DynamicGrid in
 * web_client/js/main.js): the spacing of grid lines chosen from the visible
 * extent, the padding around the view, the rounding of line positions, and
 * the grid lines and tick labels produced on each update.
 */
module DynamicGrid {
  import opened Options
  import opened Viewport

  /** 10 to the integer power `e`. */
  function Pow10(e: int): (p: real)
    ensures p > 0.0
    decreases if e >= 0 then e else -e
  {
    if e == 0 then 1.0
    else if e > 0 then 10.0 * Pow10(e - 1)
    else Pow10(e + 1) / 10.0
  }

  /** Each step of the exponent multiplies the power by ten. */
  lemma {:induction false} Pow10Step(e: int)
    ensures Pow10(e + 1) == 10.0 * Pow10(e)
    decreases if e >= 0 then e else -e
  {
    if e < -1 {
      Pow10Step(e + 1);
    }
  }

  /** `Math.floor(Math.log10(x))` for a positive `x`: the exponent of its leading digit. */
  function FloorLog10(x: real): (e: int)
    requires x > 0.0
    ensures Pow10(e) <= x < Pow10(e + 1)
  {
    if x >= 10.0 then FloorLog10Above(x) else if x < 1.0 then FloorLog10Below(x) else 0
  }

  function FloorLog10Above(x: real): (e: int)
    requires x >= 1.0
    ensures e >= 0 && Pow10(e) <= x < Pow10(e + 1)
    decreases x.Floor
  {
    if x < 10.0 then 0
    else
      var e := FloorLog10Above(x / 10.0);
      Pow10Step(e);
      Pow10Step(e + 1);
      e + 1
  }

  function FloorLog10Below(x: real): (e: int)
    requires 0.0 < x < 10.0
    ensures e <= 0 && Pow10(e) <= x < Pow10(e + 1)
    decreases (1.0 / x).Floor
  {
    if x >= 1.0 then 0
    else
      ReciprocalShrinks(x);
      var e := FloorLog10Below(x * 10.0);
      Pow10Step(e - 1);
      e - 1
  }

  /** The measure of `FloorLog10Below` drops when `x` below 1 is multiplied by ten. */
  lemma ReciprocalShrinks(x: real)
    requires 0.0 < x < 1.0
    ensures 0 <= (1.0 / (x * 10.0)).Floor < (1.0 / x).Floor
  {
    var a := 1.0 / x;
    assert a * x == 1.0;
    assert a > 1.0;
    assert 1.0 / (x * 10.0) == a / 10.0;
    assert a / 10.0 < a - 0.9;
  }

  /**
   * `calculateNiceInterval(range)`: the grid spacing. For a positive extent
   * it is 0.2, 0.5 or 1 times the power of ten below the extent, chosen so
   * that between 4 and 10 spacings fit into it. An extent of 0 yields 0
   * (log10 gives -Infinity, the power of ten 0, the ratio NaN, so the last
   * branch multiplies 0 by 1); a negative extent yields NaN.
   */
  function NiceInterval(range: real): (r: Num)
    ensures range > 0.0 ==> r.Finite? && r.value > 0.0 && 4.0 * r.value <= range < 10.0 * r.value
    ensures range == 0.0 ==> r == Finite(0.0)
    ensures range < 0.0 ==> r == NaN
  {
    if range == 0.0 then Finite(0.0)
    else if range < 0.0 then NaN
    else
      var exponent := FloorLog10(range);
      var powerOfTen := Pow10(exponent);
      Pow10Step(exponent);
      var relativeRange := range / powerOfTen;
      RatioCompare(range, powerOfTen, 2.0);
      RatioCompare(range, powerOfTen, 5.0);
      if relativeRange < 2.0 then Finite(powerOfTen * 0.2)
      else if relativeRange < 5.0 then Finite(powerOfTen * 0.5)
      else Finite(powerOfTen * 1.0)
  }

  /** Comparing the ratio `range / p` with `c` is comparing `range` with `c * p`. */
  lemma RatioCompare(range: real, p: real, c: real)
    requires p > 0.0
    ensures range / p < c <==> range < c * p
  {
    var q := range / p;
    assert q * p == range;
    if q < c {
      MulStrict(q, c, p);
    } else {
      MulMonotone(c, q, p);
    }
  }

  lemma MulStrict(a: real, b: real, d: real)
    requires d > 0.0 && a < b
    ensures a * d < b * d
  {
    assert b * d - a * d == (b - a) * d;
  }

  /**
   * The nice spacing is 0.2, 0.5 or 1 times `p`, the power of ten at or below
   * the extent: 0.2p below 2p, 0.5p from 2p to below 5p, and p from 5p on.
   * So it is 1, 2 or 5 times a power of ten.
   */
  lemma NiceIntervalDigits(range: real)
    requires range > 0.0
    ensures var p := Pow10(FloorLog10(range));
      && (range < 2.0 * p ==> NiceInterval(range).value == 0.2 * p)
      && (2.0 * p <= range < 5.0 * p ==> NiceInterval(range).value == 0.5 * p)
      && (5.0 * p <= range ==> NiceInterval(range).value == p)
    ensures exists e: int :: (NiceInterval(range).value == Pow10(e)
      || NiceInterval(range).value == 2.0 * Pow10(e) || NiceInterval(range).value == 5.0 * Pow10(e))
  {
    var exponent := FloorLog10(range);
    var p := Pow10(exponent);
    Pow10Step(exponent);
    Pow10Step(exponent - 1);
    RatioCompare(range, p, 2.0);
    RatioCompare(range, p, 5.0);
    var i := NiceInterval(range).value;
    if range < 2.0 * p {
      assert i == p * 0.2 == 2.0 * Pow10(exponent - 1);
    } else if range < 5.0 * p {
      assert i == p * 0.5 == 5.0 * Pow10(exponent - 1);
    } else {
      assert i == p * 1.0 == Pow10(exponent);
    }
  }

  /**
   * `calculateDynamicPadding(viewWidth, viewHeight)`: the fraction of the
   * view added on every side of the grid, larger when zoomed in.
   */
  function DynamicPadding(viewWidth: real, viewHeight: real): (r: real)
    ensures r == 0.5 <==> Max(Abs(viewWidth), Abs(viewHeight)) < 1.0
    ensures r == 0.2 <==> 1.0 <= Max(Abs(viewWidth), Abs(viewHeight)) < 10.0
    ensures r == 0.1 <==> 10.0 <= Max(Abs(viewWidth), Abs(viewHeight))
  {
    var maxDimension := Max(Abs(viewWidth), Abs(viewHeight));
    if maxDimension < 1.0 then 0.5
    else if maxDimension < 10.0 then 0.2
    else 0.1
  }

  /** A larger view never gets more padding than a smaller one. */
  lemma DynamicPaddingShrinks(w1: real, h1: real, w2: real, h2: real)
    requires Max(Abs(w1), Abs(h1)) <= Max(Abs(w2), Abs(h2))
    ensures DynamicPadding(w2, h2) <= DynamicPadding(w1, h1)
  {
  }

  /** `Math.round(v)`: the nearest integer, halves rounded up. */
  function Round(v: real): (n: int)
    ensures v - 0.5 < n as real <= v + 0.5
  {
    (v + 0.5).Floor
  }

  /**
   * `roundToPrecision(value, precision)`: `value` rounded to `precision`
   * decimal places.
   */
  function RoundToPrecision(value: real, precision: nat): (r: real)
    ensures -0.5 / Pow10(precision) < r - value <= 0.5 / Pow10(precision)
  {
    RoundToMultiple(value, Pow10(precision))
  }

  /**
   * `value` rounded to the nearest multiple of `1 / factor`: the result is
   * within half a step of `value`.
   */
  function RoundToMultiple(value: real, factor: real): (r: real)
    requires factor > 0.0
    ensures -0.5 / factor < r - value <= 0.5 / factor
  {
    var n := Round(value * factor);
    RoundingError(value, factor, n);
    n as real / factor
  }

  lemma RoundingError(value: real, factor: real, n: int)
    requires factor > 0.0
    requires value * factor - 0.5 < n as real <= value * factor + 0.5
    ensures -0.5 / factor < n as real / factor - value <= 0.5 / factor
  {
    var d := n as real - value * factor;
    assert n as real / factor - value == d / factor;
  }

  /** Rounding an already rounded value changes nothing. */
  lemma RoundToPrecisionIdempotent(value: real, precision: nat)
    ensures RoundToPrecision(RoundToPrecision(value, precision), precision) == RoundToPrecision(value, precision)
  {
    var factor := Pow10(precision);
    var n := Round(value * factor);
    var r := RoundToMultiple(value, factor);
    assert r == n as real / factor;
    assert r * factor == n as real;
    ExactMultiple(r, factor, n);
  }

  /** A multiple of `1 / factor` is its own rounding. */
  lemma ExactMultiple(r: real, factor: real, n: int)
    requires factor > 0.0 && r * factor == n as real
    ensures RoundToMultiple(r, factor) == r
  {
    assert Round(r * factor) == n;
    assert n as real / factor == r;
  }

  /** `Math.ceil(x)`. */
  function Ceil(x: real): (n: int)
    ensures x <= n as real < x + 1.0
  {
    -((-x).Floor)
  }

  /** Index of the first grid line: `Math.floor(extendedLow / interval)`. */
  function FirstIndex(extLow: real, interval: real): int
    requires interval > 0.0
  {
    (extLow / interval).Floor
  }

  /** Index of the last grid line: `Math.ceil(extendedHigh / interval)`. */
  function LastIndex(extHigh: real, interval: real): int
    requires interval > 0.0
  {
    Ceil(extHigh / interval)
  }

  /** How many times the grid loop runs. */
  function LineCount(extLow: real, extHigh: real, interval: real): nat
    requires interval > 0.0
  {
    var n := LastIndex(extHigh, interval) - FirstIndex(extLow, interval) + 1;
    if n < 0 then 0 else n
  }

  /** The `m`-th multiple of the spacing. */
  function Multiple(m: int, interval: real): real
  {
    m as real * interval
  }

  /** The loop variable on its `k`-th pass, before rounding. */
  function GridPoint(extLow: real, interval: real, k: int): real
    requires interval > 0.0
  {
    Multiple(FirstIndex(extLow, interval) + k, interval)
  }

  /** The positions of the grid lines along one axis, each rounded to 8 decimals. */
  function AxisLines(extLow: real, extHigh: real, interval: real): (lines: seq<real>)
    requires interval > 0.0
    ensures |lines| == LineCount(extLow, extHigh, interval)
    ensures forall k :: 0 <= k < |lines| ==> lines[k] == RoundToPrecision(GridPoint(extLow, interval, k), 8)
  {
    seq(LineCount(extLow, extHigh, interval), k requires 0 <= k => RoundToPrecision(GridPoint(extLow, interval, k), 8))
  }

  /**
   * The grid lines start at or below the low end of the padded range and
   * end at or above its high end, and every multiple of the spacing in that
   * range is one of them: the grid covers the padded view.
   */
  lemma GridCoversRange(extLow: real, extHigh: real, interval: real)
    requires interval > 0.0 && extLow <= extHigh
    ensures LineCount(extLow, extHigh, interval) >= 1
    ensures GridPoint(extLow, interval, 0) <= extLow
    ensures extHigh <= GridPoint(extLow, interval, LineCount(extLow, extHigh, interval) - 1)
    ensures forall m: int :: extLow <= Multiple(m, interval) <= extHigh ==>
      0 <= m - FirstIndex(extLow, interval) < LineCount(extLow, extHigh, interval)
      && GridPoint(extLow, interval, m - FirstIndex(extLow, interval)) == Multiple(m, interval)
  {
    var f := FirstIndex(extLow, interval);
    var c := LastIndex(extHigh, interval);
    IndexBounds(extLow, interval);
    IndexBounds(extHigh, interval);
    DivMonotone(extLow, extHigh, interval);
    assert f <= c;
    assert LineCount(extLow, extHigh, interval) == c - f + 1;
    forall m: int | extLow <= Multiple(m, interval) <= extHigh
      ensures f <= m <= c
    {
      MultipleIndex(m, extLow, extHigh, interval);
    }
  }

  /** The grid indices bracket `v / interval`, so their multiples bracket `v`. */
  lemma IndexBounds(v: real, interval: real)
    requires interval > 0.0
    ensures Multiple(FirstIndex(v, interval), interval) <= v <= Multiple(LastIndex(v, interval), interval)
  {
    var q := v / interval;
    MulBack(q, interval);
    MulMonotone(FirstIndex(v, interval) as real, q, interval);
    MulMonotone(q, LastIndex(v, interval) as real, interval);
  }

  /** A multiple of the spacing inside the padded range has an index between the first and the last. */
  lemma MultipleIndex(m: int, extLow: real, extHigh: real, interval: real)
    requires interval > 0.0 && extLow <= Multiple(m, interval) <= extHigh
    ensures FirstIndex(extLow, interval) <= m <= LastIndex(extHigh, interval)
  {
    MulBack(m as real, interval);
    DivMonotone(extLow, Multiple(m, interval), interval);
    DivMonotone(Multiple(m, interval), extHigh, interval);
  }

  lemma DivMonotone(a: real, b: real, d: real)
    requires d > 0.0 && a <= b
    ensures a / d <= b / d
  {
    assert b / d - a / d == (b - a) / d;
  }

  lemma MulMonotone(a: real, b: real, d: real)
    requires d > 0.0 && a <= b
    ensures a * d <= b * d
  {
    assert b * d - a * d == (b - a) * d;
    assert (b - a) * d >= 0.0;
  }

  lemma MulBack(a: real, d: real)
    requires d > 0.0
    ensures (a / d) * d == a && (a * d) / d == a
  {
  }

  /** The next multiple is one spacing further. */
  lemma MultipleStep(m: int, interval: real)
    ensures Multiple(m, interval) + interval == Multiple(m + 1, interval)
  {
    assert (m + 1) as real * interval == m as real * interval + 1.0 * interval;
  }

  /** Multiplying by the positive spacing keeps the order of grid indices. */
  lemma MultipleOrder(i: int, j: int, d: real)
    requires d > 0.0
    ensures Multiple(i, d) <= Multiple(j, d) <==> i <= j
  {
    if i <= j {
      MulMonotone(i as real, j as real, d);
    } else {
      MulMonotone(j as real + 1.0, i as real, d);
      MultipleStep(j, d);
    }
  }

  /** A tick label: the world value it shows and its pixel offset along the axis. */
  datatype Label = Label(value: real, position: real)

  /** Whether a grid line at `v` gets a label on the x axis (`isY` false) or the y axis. */
  predicate Visible(isY: bool, b: Rect, v: real)
  {
    if isY then b.bottom <= v <= b.top else b.left <= v <= b.right
  }

  /**
   * The label of a grid line: the x axis places it at the pixel column of
   * `(v, bottom)`, the y axis at the pixel row of `(left, v)`. A visible
   * line's label lies on the canvas.
   */
  function LabelAt(isY: bool, b: Rect, canvas: Canvas, v: real): (l: Label)
    requires canvas.width > 0.0 && canvas.height > 0.0 && NonDegenerate(b)
    ensures l.value == v
    ensures Visible(isY, b, v) ==> 0.0 <= l.position <= (if isY then canvas.height else canvas.width)
  {
    if isY then Label(v, WorldToPixel(Point(b.left, v), b, canvas).y)
    else Label(v, WorldToPixel(Point(v, b.bottom), b, canvas).x)
  }

  /** The labels of the visible grid lines among `lines`, in line order. */
  function AxisLabels(isY: bool, b: Rect, canvas: Canvas, lines: seq<real>): seq<Label>
    requires canvas.width > 0.0 && canvas.height > 0.0 && NonDegenerate(b)
  {
    if |lines| == 0 then []
    else
      var last := lines[|lines| - 1];
      AxisLabels(isY, b, canvas, lines[..|lines| - 1]) + (if Visible(isY, b, last) then [LabelAt(isY, b, canvas, last)] else [])
  }

  /**
   * A label shows value `v` exactly when `v` is a grid line inside the
   * visible range, and every label lies on the canvas.
   */
  lemma {:induction false} AxisLabelsExact(isY: bool, b: Rect, canvas: Canvas, lines: seq<real>)
    requires canvas.width > 0.0 && canvas.height > 0.0 && NonDegenerate(b)
    ensures forall l :: l in AxisLabels(isY, b, canvas, lines) ==>
      l.value in lines && Visible(isY, b, l.value)
      && 0.0 <= l.position <= (if isY then canvas.height else canvas.width)
    ensures forall v :: v in lines && Visible(isY, b, v) ==> LabelAt(isY, b, canvas, v) in AxisLabels(isY, b, canvas, lines)
  {
    if |lines| > 0 {
      var init := lines[..|lines| - 1];
      var last := lines[|lines| - 1];
      AxisLabelsExact(isY, b, canvas, init);
      assert lines == init + [last];
      var labels := AxisLabels(isY, b, canvas, lines);
      var extra := if Visible(isY, b, last) then [LabelAt(isY, b, canvas, last)] else [];
      assert labels == AxisLabels(isY, b, canvas, init) + extra;
      forall v | v in lines && Visible(isY, b, v)
        ensures LabelAt(isY, b, canvas, v) in labels
      {
        if v != last {
          assert v in init;
        }
      }
    }
  }

  /** The result of one grid update: the padded range, the lines of both axes and their labels. */
  datatype GridFrame = GridFrame(extended: Rect, xLines: seq<real>, yLines: seq<real>, xLabels: seq<Label>, yLabels: seq<Label>)

  /** The range the grid lines span: the view widened by the padding fraction on every side. */
  function Extended(b: Rect): (ext: Rect)
    requires NonDegenerate(b)
    ensures ext.left < b.left && b.right < ext.right && ext.bottom < b.bottom && b.top < ext.top
  {
    var pad := DynamicPadding(b.Width(), b.Height());
    PadPositive(b.Width(), pad);
    PadPositive(b.Height(), pad);
    Rect(b.left - b.Width() * pad, b.right + b.Width() * pad, b.bottom - b.Height() * pad, b.top + b.Height() * pad)
  }

  lemma PadPositive(w: real, pad: real)
    requires w > 0.0 && pad > 0.0
    ensures w * pad > 0.0
  {
  }

  /** What `update()` computes for a visible rectangle and canvas. */
  function FrameOf(b: Rect, canvas: Canvas): GridFrame
    requires canvas.width > 0.0 && canvas.height > 0.0 && NonDegenerate(b)
  {
    var ext := Extended(b);
    var xs := AxisLines(ext.left, ext.right, NiceInterval(b.Width()).value);
    var ys := AxisLines(ext.bottom, ext.top, NiceInterval(b.Height()).value);
    GridFrame(ext, xs, ys, AxisLabels(false, b, canvas, xs), AxisLabels(true, b, canvas, ys))
  }

  /** What `update()` computes for a camera, pan target and canvas. */
  function Frame(camera: CameraView, target: Target, canvas: Canvas): GridFrame
    requires canvas.width > 0.0 && canvas.height > 0.0
  {
    FrameOf(WorldBounds(camera, target), canvas)
  }

  /** Half a unit in the eighth decimal place: how far rounding a line position to 8 decimals can move it. */
  const RoundingSlack: real := 0.000000005

  /** A view span from which even the least padding, a tenth of it, exceeds the rounding slack. */
  const MinSpan: real := 0.00000005

  lemma Pow10Eight()
    ensures Pow10(8) == 100000000.0
  {
    assert Pow10(2) == 100.0;
    assert Pow10(4) == 10000.0;
    assert Pow10(6) == 1000000.0;
  }

  /** The first line of an axis is at most the rounding slack above the low end, the last at most that below the high end. */
  lemma AxisEnds(extLow: real, extHigh: real, interval: real)
    requires interval > 0.0 && extLow <= extHigh
    ensures var lines := AxisLines(extLow, extHigh, interval);
      && |lines| >= 1
      && lines[0] <= extLow + RoundingSlack
      && extHigh - RoundingSlack <= lines[|lines| - 1]
  {
    GridCoversRange(extLow, extHigh, interval);
    Pow10Eight();
  }

  /**
   * The lines of a span widened by `margin` on both sides reach within the
   * rounding slack of the widened ends, and past the span's own ends once the
   * margin is at least the slack.
   */
  lemma PaddedAxisCovers(low: real, high: real, margin: real, interval: real)
    requires interval > 0.0 && low < high && margin > 0.0
    ensures var lines := AxisLines(low - margin, high + margin, interval);
      && |lines| >= 1
      && lines[0] <= low - margin + RoundingSlack && high + margin - RoundingSlack <= lines[|lines| - 1]
      && (margin >= RoundingSlack ==> lines[0] <= low && high <= lines[|lines| - 1])
  {
    AxisEnds(low - margin, high + margin, interval);
  }

  /**
   * The lines over `[extLow, extHigh]`, a span of length `span` widened on
   * both sides by `pad` times that length for one of the three padding
   * fractions, reach within the rounding slack of the widened ends, and past
   * the span's own ends on a span of at least `MinSpan`.
   */
  lemma PaddedLinesCover(low: real, high: real, span: real, pad: real, extLow: real, extHigh: real, interval: real)
    requires low < high && span == high - low && interval > 0.0 && (pad == 0.5 || pad == 0.2 || pad == 0.1)
    requires extLow == low - span * pad && extHigh == high + span * pad
    ensures var lines := AxisLines(extLow, extHigh, interval);
      && |lines| >= 1
      && lines[0] <= extLow + RoundingSlack && extHigh - RoundingSlack <= lines[|lines| - 1]
      && (span >= MinSpan ==> lines[0] <= low && high <= lines[|lines| - 1])
  {
    var m := span * pad;
    PadPositive(span, pad);
    PaddedAxisCovers(low, high, m, interval);
    if span >= MinSpan {
      assert m >= RoundingSlack;
    }
  }

  /** The grid lines of an update reach the padded view, and past the view's edges on a span of at least `MinSpan`. */
  lemma FrameOfCovers(b: Rect, canvas: Canvas)
    requires canvas.width > 0.0 && canvas.height > 0.0 && NonDegenerate(b)
    ensures var g := FrameOf(b, canvas);
      && |g.xLines| >= 1 && |g.yLines| >= 1
      && g.xLines[0] <= g.extended.left + RoundingSlack && g.extended.right - RoundingSlack <= g.xLines[|g.xLines| - 1]
      && g.yLines[0] <= g.extended.bottom + RoundingSlack && g.extended.top - RoundingSlack <= g.yLines[|g.yLines| - 1]
      && (b.Width() >= MinSpan ==> g.xLines[0] <= b.left && b.right <= g.xLines[|g.xLines| - 1])
      && (b.Height() >= MinSpan ==> g.yLines[0] <= b.bottom && b.top <= g.yLines[|g.yLines| - 1])
  {
    var pad := DynamicPadding(b.Width(), b.Height());
    var ext := Extended(b);
    assert ext == Rect(b.left - b.Width() * pad, b.right + b.Width() * pad, b.bottom - b.Height() * pad, b.top + b.Height() * pad);
    PaddedLinesCover(b.left, b.right, b.Width(), pad, ext.left, ext.right, NiceInterval(b.Width()).value);
    PaddedLinesCover(b.bottom, b.top, b.Height(), pad, ext.bottom, ext.top, NiceInterval(b.Height()).value);
  }

  /**
   * An update for a visible rectangle `b` covers the padded view with grid
   * lines on both axes, up to the rounding of line positions, so that on a
   * view at least `MinSpan` across the first and last lines lie beyond its
   * edges; and it labels exactly the lines inside `b`, on the canvas.
   */
  lemma FrameOfShows(b: Rect, canvas: Canvas)
    requires canvas.width > 0.0 && canvas.height > 0.0 && NonDegenerate(b)
    ensures var g := FrameOf(b, canvas);
      && |g.xLines| >= 1 && |g.yLines| >= 1
      && g.extended.left < b.left && b.right < g.extended.right
      && g.extended.bottom < b.bottom && b.top < g.extended.top
      && g.xLines[0] <= g.extended.left + RoundingSlack && g.extended.right - RoundingSlack <= g.xLines[|g.xLines| - 1]
      && g.yLines[0] <= g.extended.bottom + RoundingSlack && g.extended.top - RoundingSlack <= g.yLines[|g.yLines| - 1]
      && (b.Width() >= MinSpan ==> g.xLines[0] <= b.left && b.right <= g.xLines[|g.xLines| - 1])
      && (b.Height() >= MinSpan ==> g.yLines[0] <= b.bottom && b.top <= g.yLines[|g.yLines| - 1])
      && (forall l :: l in g.xLabels ==> l.value in g.xLines && b.left <= l.value <= b.right && 0.0 <= l.position <= canvas.width)
      && (forall l :: l in g.yLabels ==> l.value in g.yLines && b.bottom <= l.value <= b.top && 0.0 <= l.position <= canvas.height)
  {
    FrameOfCovers(b, canvas);
    var g := FrameOf(b, canvas);
    AxisLabelsExact(false, b, canvas, g.xLines);
    AxisLabelsExact(true, b, canvas, g.yLines);
  }

  /** `FrameOfShows` for the rectangle a camera and pan target show. */
  lemma FrameCoversView(camera: CameraView, target: Target, canvas: Canvas)
    requires canvas.width > 0.0 && canvas.height > 0.0
    ensures var b := WorldBounds(camera, target);
      var g := Frame(camera, target, canvas);
      && |g.xLines| >= 1 && |g.yLines| >= 1
      && g.extended.left < b.left && b.right < g.extended.right
      && g.extended.bottom < b.bottom && b.top < g.extended.top
      && g.xLines[0] <= g.extended.left + RoundingSlack && g.extended.right - RoundingSlack <= g.xLines[|g.xLines| - 1]
      && g.yLines[0] <= g.extended.bottom + RoundingSlack && g.extended.top - RoundingSlack <= g.yLines[|g.yLines| - 1]
      && (b.Width() >= MinSpan ==> g.xLines[0] <= b.left && b.right <= g.xLines[|g.xLines| - 1])
      && (b.Height() >= MinSpan ==> g.yLines[0] <= b.bottom && b.top <= g.yLines[|g.yLines| - 1])
      && (forall l :: l in g.xLabels ==> l.value in g.xLines && b.left <= l.value <= b.right && 0.0 <= l.position <= canvas.width)
      && (forall l :: l in g.yLabels ==> l.value in g.yLines && b.bottom <= l.value <= b.top && 0.0 <= l.position <= canvas.height)
  {
    var b := WorldBounds(camera, target);
    assert Frame(camera, target, canvas) == FrameOf(b, canvas);
    FrameOfShows(b, canvas);
  }

  /**
   * The grid of a 2D plotter: the camera and coordinate system it follows
   * and what its last update drew.
   */
  class Grid {
    const camera: OrthographicCamera
    const coords: CoordinateSystem
    var visible: bool
    var extended: Rect
    var xLines: seq<real>
    var yLines: seq<real>
    var xLabels: seq<Label>
    var yLabels: seq<Label>

    constructor(camera: OrthographicCamera, coords: CoordinateSystem)
      ensures this.camera == camera && this.coords == coords
      ensures visible && xLines == [] && yLines == [] && xLabels == [] && yLabels == []
    {
      this.camera := camera;
      this.coords := coords;
      visible := true;
      extended := DefaultBounds;
      xLines := [];
      yLines := [];
      xLabels := [];
      yLabels := [];
    }

    function Current(): GridFrame
      reads this
    {
      GridFrame(extended, xLines, yLines, xLabels, yLabels)
    }

    /**
     * `update()`: recompute the lines and labels from the camera's visible
     * rectangle. `target` is the pan target of the plot's controls.
     */
    method Update(target: Target)
      requires coords.Valid()
      modifies this
      ensures Current() == Frame(camera.View(), target, coords.Size())
      ensures visible == old(visible)
    {
      var canvas := coords.Size();
      var view := camera.View();
      var g := Recompute(WorldBounds(view, target), canvas);
      extended, xLines, yLines, xLabels, yLabels := g.extended, g.xLines, g.yLines, g.xLabels, g.yLabels;
      assert camera.View() == view && coords.Size() == canvas;
    }
  }

  /** The body of `update()` once the visible rectangle is known: both axis loops. */
  method Recompute(b: Rect, canvas: Canvas) returns (g: GridFrame)
    requires canvas.width > 0.0 && canvas.height > 0.0 && NonDegenerate(b)
    ensures g == FrameOf(b, canvas)
  {
    var ext := Extended(b);
    var xInterval := NiceInterval(b.Width()).value;
    var yInterval := NiceInterval(b.Height()).value;
    var xs, xl := ScanAxis(false, b, canvas, ext.left, ext.right, xInterval);
    var ys, yl := ScanAxis(true, b, canvas, ext.bottom, ext.top, yInterval);
    g := GridFrame(ext, xs, ys, xl, yl);
  }

  /**
   * One axis loop of `update()`: walk from the first to the last grid index
   * in steps of the spacing, record each rounded position as a grid line and
   * label the ones inside the visible rectangle.
   */
  method ScanAxis(isY: bool, b: Rect, canvas: Canvas, extLow: real, extHigh: real, interval: real)
    returns (lines: seq<real>, labels: seq<Label>)
    requires interval > 0.0 && canvas.width > 0.0 && canvas.height > 0.0 && NonDegenerate(b)
    ensures lines == AxisLines(extLow, extHigh, interval)
    ensures labels == AxisLabels(isY, b, canvas, lines)
  {
    var first := FirstIndex(extLow, interval);
    var last := LastIndex(extHigh, interval);
    var end := Multiple(last, interval);
    ghost var all := AxisLines(extLow, extHigh, interval);
    lines, labels := [], [];
    var x := Multiple(first, interval);
    ghost var k := 0;
    while x <= end
      invariant 0 <= k <= |all|
      invariant x == GridPoint(extLow, interval, k)
      invariant lines == all[..k]
      invariant labels == AxisLabels(isY, b, canvas, lines)
      decreases last - first - k
    {
      MultipleOrder(first + k, last, interval);
      var precise := RoundToPrecision(x, 8);
      assert all[..k + 1] == all[..k] + [precise];
      lines := lines + [precise];
      assert lines[..|lines| - 1] == all[..k];
      if Visible(isY, b, precise) {
        labels := labels + [LabelAt(isY, b, canvas, precise)];
      }
      MultipleStep(first + k, interval);
      x := x + interval;
      k := k + 1;
    }
    MultipleOrder(first + k, last, interval);
    assert all[..k] == all;
  }
}
