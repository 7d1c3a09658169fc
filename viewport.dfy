/**
 * The web client's coordinate system (class CoordinateSystem in
 * web_client/js/main.js): the visible world rectangle of an orthographic
 * camera, the two linear maps between canvas pixels and world coordinates,
 * and the fit of a viewport around a data rectangle.
 *
 * Numbers are exact reals. A JavaScript number is a `Num`, so that the
 * source's `isFinite` tests and its `x || d` defaults keep their meaning.
 */
module Viewport {
  import opened Options

  /** A JavaScript number: finite, one of the two infinities, or NaN. */
  datatype Num = Finite(value: real) | PosInf | NegInf | NaN

  /** `x || d` on a number: 0 and NaN are falsy and are replaced by `d`. */
  function OrElse(n: Num, d: real): Num
  {
    match n
    case Finite(v) => if v == 0.0 then Finite(d) else n
    case NaN => Finite(d)
    case _ => n
  }

  /** `precisionThreshold` of the coordinate system: 1e-10. */
  const PrecisionThreshold: real := 0.0000000001
  /** `maxRange` of the coordinate system: 1e6. */
  const MaxRange: real := 1000000.0

  function Abs(x: real): real { if x < 0.0 then -x else x }
  function Min(a: real, b: real): real { if a <= b then a else b }
  function Max(a: real, b: real): real { if a >= b then a else b }

  /** A world-space rectangle. */
  datatype Rect = Rect(left: real, right: real, bottom: real, top: real) {
    function Width(): real { right - left }
    function Height(): real { top - bottom }
  }

  /** `getDefaultBounds`: the square [-10,10] x [-10,10]. */
  const DefaultBounds: Rect := Rect(-10.0, 10.0, -10.0, 10.0)

  /** The fields of an orthographic camera that the bounds computation reads. */
  datatype CameraView = CameraView(left: Num, right: Num, bottom: Num, top: Num, zoom: Num)

  /** A pan target `controls.target`; `None` when there are no controls or no target. */
  type Target = Option<(Num, Num)>

  /** A point in world or screen coordinates. */
  datatype Point = Point(x: real, y: real)

  /** Pixel size of the canvas. */
  datatype Canvas = Canvas(width: real, height: real)

  /** A rectangle that the bounds computation accepts as a visible area. */
  predicate NonDegenerate(r: Rect)
  {
    r.Width() > PrecisionThreshold && r.Height() > PrecisionThreshold
  }

  /** Every coordinate of `r` lies in [-maxRange, maxRange]. */
  predicate InRange(r: Rect)
  {
    && -MaxRange <= r.left <= MaxRange && -MaxRange <= r.right <= MaxRange
    && -MaxRange <= r.bottom <= MaxRange && -MaxRange <= r.top <= MaxRange
  }

  /** `clampValue(value, min, max)`, i.e. `Math.max(min, Math.min(max, value))`. */
  function ClampValue(value: real, min: real, max: real): (r: real)
    ensures min <= max ==> min <= r <= max
    ensures min <= value <= max ==> r == value
    ensures value < min ==> r == min
    ensures min <= max < value ==> r == max
  {
    Max(min, Min(max, value))
  }

  /**
   * `applyPrecision(value)`: values closer to 0 than the threshold become 0,
   * the rest are clamped to [-maxRange, maxRange]. NaN stays NaN (both
   * comparisons with NaN are false and Math.min/Math.max propagate it); an
   * infinity is clamped to the nearer end of the range.
   */
  function ApplyPrecision(n: Num): (r: Num)
    ensures n != NaN ==> r.Finite? && -MaxRange <= r.value <= MaxRange
    ensures n == NaN ==> r == NaN
    ensures n.Finite? && Abs(n.value) < PrecisionThreshold ==> r == Finite(0.0)
    ensures n.Finite? && PrecisionThreshold <= Abs(n.value) <= MaxRange ==> r == n
  {
    match n
    case Finite(v) =>
      if Abs(v) < PrecisionThreshold then Finite(0.0) else Finite(ClampValue(v, -MaxRange, MaxRange))
    case PosInf => Finite(MaxRange)
    case NegInf => Finite(-MaxRange)
    case NaN => NaN
  }

  /** `applyPrecision` never brings a value of at least the threshold in magnitude closer to 0 than the range allows. */
  lemma ApplyPrecisionKeepsMagnitude(n: Num)
    requires n.Finite? && PrecisionThreshold <= Abs(n.value)
    ensures ApplyPrecision(n).Finite? && Abs(ApplyPrecision(n).value) >= Min(Abs(n.value), MaxRange)
  {
  }

  /** `applyPrecision` on a value known to be finite. */
  function Precise(v: real): (r: real)
    ensures -MaxRange <= r <= MaxRange
  {
    ApplyPrecision(Finite(v)).value
  }

  /** `areValidCameraBounds(camera)`. */
  predicate AreValidCameraBounds(c: CameraView)
  {
    && c.left.Finite? && c.right.Finite? && c.bottom.Finite? && c.top.Finite?
    && Abs(c.right.value - c.left.value) > PrecisionThreshold
    && Abs(c.top.value - c.bottom.value) > PrecisionThreshold
  }

  /**
   * `applyTargetOffset(bounds, controls)`: shift by the pan target, each
   * target coordinate defaulting to 0 when falsy, every result passed
   * through `applyPrecision`.
   */
  function ApplyTargetOffset(b: Rect, target: Target): (r: Rect)
    ensures target.None? ==> r == b
    ensures target.Some? ==> InRange(r)
    ensures target.Some? && (target.value.0 == NaN || target.value.0 == Finite(0.0)) && Representable(b.left) ==> r.left == b.left
    ensures target.Some? && (target.value.0 == NaN || target.value.0 == Finite(0.0)) && Representable(b.right) ==> r.right == b.right
    ensures target.Some? && (target.value.1 == NaN || target.value.1 == Finite(0.0)) && Representable(b.bottom) ==> r.bottom == b.bottom
    ensures target.Some? && (target.value.1 == NaN || target.value.1 == Finite(0.0)) && Representable(b.top) ==> r.top == b.top
  {
    match target
    case None => b
    case Some((tx, ty)) =>
      var x := ApplyPrecision(OrElse(tx, 0.0)).value;
      var y := ApplyPrecision(OrElse(ty, 0.0)).value;
      Rect(Precise(b.left + x), Precise(b.right + x), Precise(b.bottom + y), Precise(b.top + y))
  }

  /**
   * `validateAndFixBounds(bounds)`. Over reals every coordinate is finite,
   * so only the two width tests can fail.
   */
  function ValidateAndFixBounds(b: Rect): (r: Rect)
    ensures NonDegenerate(r)
    ensures r == b || r == DefaultBounds
    ensures NonDegenerate(b) ==> r == b
  {
    if b.right - b.left <= PrecisionThreshold || b.top - b.bottom <= PrecisionThreshold then DefaultBounds
    else b
  }

  /** The zoom test of `getWorldBounds`, after `camera.zoom || 1`. */
  predicate ZoomAccepted(zoom: Num)
  {
    var z := OrElse(zoom, 1.0);
    z.Finite? && 0.0 < z.value <= 1000.0
  }

  /**
   * `getWorldBounds(camera, controls)`: the visible world rectangle. A zoom
   * that is negative, infinite or above 1000 gives the default square (a
   * zoom of 0 or NaN is first replaced by 1); so do non-finite or collapsed
   * camera bounds and a result that is not wide and tall enough. Otherwise
   * each camera bound is divided by the zoom, rounded by `applyPrecision`
   * and shifted by the pan target.
   */
  function WorldBounds(camera: CameraView, target: Target): (r: Rect)
    ensures NonDegenerate(r)
    ensures !ZoomAccepted(camera.zoom) ==> r == DefaultBounds
    ensures !AreValidCameraBounds(camera) ==> r == DefaultBounds
    ensures r == DefaultBounds || InRange(r)
  {
    var zoom := OrElse(camera.zoom, 1.0);
    if !ZoomAccepted(camera.zoom) then DefaultBounds
    else
      var zoomFactor := ZoomFactor(zoom.value);
      if !AreValidCameraBounds(camera) then DefaultBounds
      else
        ValidateAndFixBounds(ApplyTargetOffset(
          ScaledBounds(camera.left.value, camera.right.value, camera.bottom.value, camera.top.value, zoomFactor), target))
  }

  /**
   * `1 / clampValue(zoom, 0.001, 1000)`: the reciprocal of the zoom, with
   * zooms below 0.001 treated as 0.001 and above 1000 as 1000.
   */
  function ZoomFactor(zoom: real): (f: real)
    ensures f > 0.0
    ensures zoom < 0.001 ==> f == 1000.0
    ensures zoom > 1000.0 ==> f == 0.001
  {
    1.0 / ClampValue(zoom, 0.001, 1000.0)
  }

  /** `baseBounds`: the four camera bounds multiplied by the zoom factor, each through `applyPrecision`. */
  function ScaledBounds(left: real, right: real, bottom: real, top: real, factor: real): (r: Rect)
    ensures InRange(r)
  {
    Rect(Precise(left * factor), Precise(right * factor), Precise(bottom * factor), Precise(top * factor))
  }

  /** A coordinate that `applyPrecision` leaves unchanged. */
  predicate Representable(v: real)
  {
    v == 0.0 || PrecisionThreshold <= Abs(v) <= MaxRange
  }

  /** `applyPrecision` leaves every value of `s` unchanged. */
  predicate AllRepresentable(s: seq<real>)
  {
    forall i :: 0 <= i < |s| ==> Representable(s[i])
  }

  /** `applyPrecision` leaves four representable values unchanged. */
  lemma PreciseKeepsAll(a: real, b: real, d: real, e: real)
    requires AllRepresentable([a, b, d, e])
    ensures Precise(a) == a && Precise(b) == b && Precise(d) == d && Precise(e) == e
  {
    assert [a, b, d, e][0] == a && [a, b, d, e][1] == b && [a, b, d, e][2] == d && [a, b, d, e][3] == e;
    PreciseKeepsRepresentable(a);
    PreciseKeepsRepresentable(b);
    PreciseKeepsRepresentable(d);
    PreciseKeepsRepresentable(e);
  }

  /**
   * A pan target whose coordinates, and the shifted bounds, `applyPrecision`
   * leaves unchanged shifts the bounds exactly by the target.
   */
  lemma TargetOffsetExact(b: Rect, x: real, y: real)
    requires AllRepresentable([x, y])
    requires AllRepresentable([b.left + x, b.right + x, b.bottom + y, b.top + y])
    ensures ApplyTargetOffset(b, Some((Finite(x), Finite(y)))) == Rect(b.left + x, b.right + x, b.bottom + y, b.top + y)
  {
    assert [x, y][0] == x && [x, y][1] == y;
    PreciseKeepsRepresentable(x);
    PreciseKeepsRepresentable(y);
    PreciseKeepsAll(b.left + x, b.right + x, b.bottom + y, b.top + y);
  }

  /** Multiplying by the reciprocal is dividing. */
  lemma MulReciprocal(a: real, z: real)
    requires z != 0.0
    ensures a * (1.0 / z) == a / z
  {
  }

  /** `applyPrecision` keeps scaled bounds whose four products are representable. */
  lemma ScaledExact(l: real, r: real, b: real, t: real, f: real, s: Rect)
    requires s == Rect(l * f, r * f, b * f, t * f)
    requires AllRepresentable([s.left, s.right, s.bottom, s.top])
    ensures ScaledBounds(l, r, b, t, f) == s
  {
    PreciseKeepsAll(s.left, s.right, s.bottom, s.top);
  }

  /** The accepted-zoom branch of `getWorldBounds`. */
  lemma WorldBoundsAccepted(c: CameraView, target: Target)
    requires AreValidCameraBounds(c) && c.zoom.Finite? && 0.0 < c.zoom.value <= 1000.0
    ensures WorldBounds(c, target)
         == ValidateAndFixBounds(ApplyTargetOffset(
              ScaledBounds(c.left.value, c.right.value, c.bottom.value, c.top.value, ZoomFactor(c.zoom.value)), target))
  {
  }

  /**
   * With an accepted zoom, scaled bounds `s` that are wide and tall enough
   * and a pan target (x, y) that, with the shifted bounds, `applyPrecision`
   * leaves unchanged, the visible rectangle is `s` shifted by the target.
   */
  lemma WorldBoundsShifted(c: CameraView, s: Rect, x: real, y: real)
    requires AreValidCameraBounds(c) && c.zoom.Finite? && 0.0 < c.zoom.value <= 1000.0
    requires ScaledBounds(c.left.value, c.right.value, c.bottom.value, c.top.value, ZoomFactor(c.zoom.value)) == s
    requires NonDegenerate(s)
    requires AllRepresentable([x, y])
    requires AllRepresentable([s.left + x, s.right + x, s.bottom + y, s.top + y])
    ensures WorldBounds(c, Some((Finite(x), Finite(y)))) == Rect(s.left + x, s.right + x, s.bottom + y, s.top + y)
  {
    WorldBoundsAccepted(c, Some((Finite(x), Finite(y))));
    TargetOffsetExact(s, x, y);
  }

  /**
   * With an accepted zoom and zoom factor `f`, and a pan target (x, y): when
   * the camera's bounds times `f`, the target and the shifted bounds are all
   * values `applyPrecision` leaves unchanged and the scaled bounds are wide
   * and tall enough, the visible rectangle is the camera's bounds times the
   * zoom factor (divided by the zoom, lemma FactorDivides), shifted by the
   * target.
   */
  lemma WorldBoundsZoomed(c: CameraView, f: real, s: Rect, x: real, y: real)
    requires AreValidCameraBounds(c) && c.zoom.Finite? && 0.0 < c.zoom.value <= 1000.0
    requires f == ZoomFactor(c.zoom.value)
    requires s == Rect(c.left.value * f, c.right.value * f, c.bottom.value * f, c.top.value * f)
    requires AllRepresentable([s.left, s.right, s.bottom, s.top]) && NonDegenerate(s)
    requires AllRepresentable([x, y])
    requires AllRepresentable([s.left + x, s.right + x, s.bottom + y, s.top + y])
    ensures WorldBounds(c, Some((Finite(x), Finite(y)))) == Rect(s.left + x, s.right + x, s.bottom + y, s.top + y)
  {
    ScaledExact(c.left.value, c.right.value, c.bottom.value, c.top.value, f, s);
    WorldBoundsShifted(c, s, x, y);
  }

  /** Within [0.001, 1000], multiplying by the zoom factor divides by the zoom. */
  lemma FactorDivides(v: real, z: real)
    requires 0.001 <= z <= 1000.0
    ensures v * ZoomFactor(z) == v / z
  {
    assert ClampValue(z, 0.001, 1000.0) == z;
    MulReciprocal(v, z);
  }

  /**
   * A camera at zoom 1 without pan target, whose bounds are finite,
   * representable and wide enough, shows exactly its own bounds: this is
   * the state `fitToData` leaves the camera in.
   */
  lemma WorldBoundsOfPlainCamera(l: real, r: real, b: real, t: real)
    requires Representable(l) && Representable(r) && Representable(b) && Representable(t)
    requires r - l > PrecisionThreshold && t - b > PrecisionThreshold
    ensures WorldBounds(CameraView(Finite(l), Finite(r), Finite(b), Finite(t), Finite(1.0)), None) == Rect(l, r, b, t)
  {
    var c := CameraView(Finite(l), Finite(r), Finite(b), Finite(t), Finite(1.0));
    assert ZoomAccepted(c.zoom);
    assert ZoomFactor(1.0) == 1.0;
    PreciseKeepsRepresentable(l);
    PreciseKeepsRepresentable(r);
    PreciseKeepsRepresentable(b);
    PreciseKeepsRepresentable(t);
    assert ScaledBounds(l, r, b, t, 1.0) == Rect(l, r, b, t);
  }

  /** `applyPrecision` leaves a representable value unchanged. */
  lemma PreciseKeepsRepresentable(v: real)
    requires Representable(v)
    ensures Precise(v) == v && Precise(v * 1.0) == v
  {
  }

  /**
   * The linear map of `screenToWorld` onto a given visible rectangle: pixel
   * columns run from `left` to `right`, pixel rows from `top` down to
   * `bottom`. The canvas corners go to the rectangle's corners, and every
   * pixel of the canvas to a point inside it.
   */
  function PixelToWorld(s: Point, b: Rect, canvas: Canvas): (w: Point)
    requires canvas.width > 0.0 && canvas.height > 0.0 && NonDegenerate(b)
    ensures s == Point(0.0, 0.0) ==> w == Point(b.left, b.top)
    ensures s == Point(canvas.width, canvas.height) ==> w == Point(b.right, b.bottom)
    ensures 0.0 <= s.x <= canvas.width ==> b.left <= w.x <= b.right
    ensures 0.0 <= s.y <= canvas.height ==> b.bottom <= w.y <= b.top
  {
    ScaleWithin(s.x, canvas.width, b.Width());
    ScaleWithin(s.y, canvas.height, b.Height());
    Point(b.left + (s.x / canvas.width) * b.Width(), b.top - (s.y / canvas.height) * b.Height())
  }

  /**
   * The linear map of `worldToScreen` from a given visible rectangle: a
   * point of the rectangle lands on the canvas, its top-left corner on the
   * origin pixel.
   */
  function WorldToPixel(w: Point, b: Rect, canvas: Canvas): (s: Point)
    requires canvas.width > 0.0 && canvas.height > 0.0 && NonDegenerate(b)
    ensures w == Point(b.left, b.top) ==> s == Point(0.0, 0.0)
    ensures b.left <= w.x <= b.right ==> 0.0 <= s.x <= canvas.width
    ensures b.bottom <= w.y <= b.top ==> 0.0 <= s.y <= canvas.height
  {
    FractionWithin(w.x - b.left, b.Width(), canvas.width);
    FlippedFractionWithin(w.y - b.bottom, b.Height(), canvas.height);
    DivSelf(b.Height());
    Point(((w.x - b.left) / b.Width()) * canvas.width, (1.0 - (w.y - b.bottom) / b.Height()) * canvas.height)
  }

  /** `screenToWorld(screenX, screenY, camera, controls)`: a canvas pixel to world coordinates. */
  function ScreenToWorld(s: Point, camera: CameraView, target: Target, canvas: Canvas): (w: Point)
    requires canvas.width > 0.0 && canvas.height > 0.0
    ensures var b := WorldBounds(camera, target);
      && (0.0 <= s.x <= canvas.width ==> b.left <= w.x <= b.right)
      && (0.0 <= s.y <= canvas.height ==> b.bottom <= w.y <= b.top)
  {
    PixelToWorld(s, WorldBounds(camera, target), canvas)
  }

  /** `worldToScreen(worldX, worldY, camera, controls)`: world coordinates to a canvas pixel. */
  function WorldToScreen(w: Point, camera: CameraView, target: Target, canvas: Canvas): (s: Point)
    requires canvas.width > 0.0 && canvas.height > 0.0
    ensures var b := WorldBounds(camera, target);
      && (b.left <= w.x <= b.right ==> 0.0 <= s.x <= canvas.width)
      && (b.bottom <= w.y <= b.top ==> 0.0 <= s.y <= canvas.height)
  {
    WorldToPixel(w, WorldBounds(camera, target), canvas)
  }

  /** For 0 <= v <= n, the value (v / n) * d lies between 0 and d. */
  lemma ScaleWithin(v: real, n: real, d: real)
    requires n > 0.0 && d > 0.0
    ensures 0.0 <= v <= n ==> 0.0 <= (v / n) * d <= d
    ensures v == 0.0 ==> (v / n) * d == 0.0
    ensures v == n ==> (v / n) * d == d
  {
    if 0.0 <= v <= n {
      assert 0.0 <= v / n <= 1.0;
    }
  }

  /** For 0 <= v <= d, the value (v / d) * n lies between 0 and n. */
  lemma FractionWithin(v: real, d: real, n: real)
    requires n > 0.0 && d > 0.0
    ensures 0.0 <= v <= d ==> 0.0 <= (v / d) * n <= n
  {
    if 0.0 <= v <= d {
      assert 0.0 <= v / d <= 1.0;
    }
  }

  /** For 0 <= v <= d, the value (1 - v / d) * n lies between 0 and n. */
  lemma FlippedFractionWithin(v: real, d: real, n: real)
    requires n > 0.0 && d > 0.0
    ensures 0.0 <= v <= d ==> 0.0 <= (1.0 - v / d) * n <= n
  {
    if 0.0 <= v <= d {
      assert 0.0 <= v / d <= 1.0;
    }
  }

  /** A non-zero number divided by itself is one. */
  lemma DivSelf(d: real)
    requires d != 0.0
    ensures d / d == 1.0
  {
  }

  /** Dividing by a non-zero number undoes multiplying by it, and back. */
  lemma Cancel(a: real, d: real)
    requires d != 0.0
    ensures (a / d) * d == a
    ensures (a * d) / d == a
  {
  }

  /** The horizontal half of the pixel round trip: scaling out and back in returns the pixel. */
  lemma ScaleRoundTrip(a: real, size: real, extent: real)
    requires size > 0.0 && extent != 0.0
    ensures (((a / size) * extent) / extent) * size == a
  {
    Cancel(a / size, extent);
    Cancel(a, size);
  }

  /** The vertical half: the flipped fraction of the flipped offset is the original fraction. */
  lemma FlipRoundTrip(a: real, size: real, bottom: real, top: real)
    requires size > 0.0 && top - bottom != 0.0
    ensures (1.0 - ((top - (a / size) * (top - bottom)) - bottom) / (top - bottom)) * size == a
  {
    var f := a / size;
    var h := top - bottom;
    assert (top - f * h) - bottom == (1.0 - f) * h;
    Cancel(1.0 - f, h);
    Cancel(a, size);
  }

  /** `WorldToPixel` undoes `PixelToWorld` on the same rectangle and canvas. */
  lemma WorldToPixelAfterPixelToWorld(s: Point, b: Rect, canvas: Canvas)
    requires canvas.width > 0.0 && canvas.height > 0.0 && NonDegenerate(b)
    ensures WorldToPixel(PixelToWorld(s, b, canvas), b, canvas) == s
  {
    var w := PixelToWorld(s, b, canvas);
    assert w.x == b.left + (s.x / canvas.width) * b.Width();
    assert w.y == b.top - (s.y / canvas.height) * b.Height();
    BackToPixel(s, w, b, canvas);
  }

  /** The pixel a world point computed from `s` maps back to is `s`. */
  lemma BackToPixel(s: Point, w: Point, b: Rect, canvas: Canvas)
    requires canvas.width > 0.0 && canvas.height > 0.0 && NonDegenerate(b)
    requires w.x == b.left + (s.x / canvas.width) * b.Width()
    requires w.y == b.top - (s.y / canvas.height) * b.Height()
    ensures WorldToPixel(w, b, canvas) == s
  {
    assert w.x - b.left == (s.x / canvas.width) * b.Width();
    ScaleRoundTrip(s.x, canvas.width, b.Width());
    FlipRoundTrip(s.y, canvas.height, b.bottom, b.top);
  }

  /** The vertical half of the world round trip. */
  lemma FlipBack(y: real, bottom: real, top: real, size: real)
    requires size > 0.0 && top - bottom != 0.0
    ensures top - (((1.0 - (y - bottom) / (top - bottom)) * size) / size) * (top - bottom) == y
  {
    var h := top - bottom;
    var g := (y - bottom) / h;
    Cancel(1.0 - g, size);
    Cancel(y - bottom, h);
    assert (1.0 - g) * h == h - (y - bottom);
  }

  /** `PixelToWorld` undoes `WorldToPixel` on the same rectangle and canvas. */
  lemma PixelToWorldAfterWorldToPixel(w: Point, b: Rect, canvas: Canvas)
    requires canvas.width > 0.0 && canvas.height > 0.0 && NonDegenerate(b)
    ensures PixelToWorld(WorldToPixel(w, b, canvas), b, canvas) == w
  {
    var s := WorldToPixel(w, b, canvas);
    var a := w.x - b.left;
    assert s.x == (a / b.Width()) * canvas.width;
    assert s.y == (1.0 - (w.y - b.bottom) / (b.top - b.bottom)) * canvas.height;
    BackToWorld(w, s, b, canvas);
  }

  /** The world point a pixel computed from `w` maps back to is `w`. */
  lemma BackToWorld(w: Point, s: Point, b: Rect, canvas: Canvas)
    requires canvas.width > 0.0 && canvas.height > 0.0 && NonDegenerate(b)
    requires s.x == ((w.x - b.left) / b.Width()) * canvas.width
    requires s.y == (1.0 - (w.y - b.bottom) / (b.top - b.bottom)) * canvas.height
    ensures PixelToWorld(s, b, canvas) == w
  {
    ScaleRoundTrip(w.x - b.left, b.Width(), canvas.width);
    FlipBack(w.y, b.bottom, b.top, canvas.height);
  }

  /** `worldToScreen` undoes `screenToWorld` for the same camera and canvas. */
  lemma WorldToScreenAfterScreenToWorld(s: Point, camera: CameraView, target: Target, canvas: Canvas)
    requires canvas.width > 0.0 && canvas.height > 0.0
    ensures WorldToScreen(ScreenToWorld(s, camera, target, canvas), camera, target, canvas) == s
  {
    WorldToPixelAfterPixelToWorld(s, WorldBounds(camera, target), canvas);
  }

  /** `screenToWorld` undoes `worldToScreen` for the same camera and canvas. */
  lemma ScreenToWorldAfterWorldToScreen(w: Point, camera: CameraView, target: Target, canvas: Canvas)
    requires canvas.width > 0.0 && canvas.height > 0.0
    ensures ScreenToWorld(WorldToScreen(w, camera, target, canvas), camera, target, canvas) == w
  {
    PixelToWorldAfterWorldToPixel(w, WorldBounds(camera, target), canvas);
  }

  /** The viewport chosen by `fitToData`: its centre and its size. */
  datatype Fit = Fit(centerX: real, centerY: real, viewWidth: real, viewHeight: real) {
    /** The camera bounds `center -/+ view / 2` that `fitToData` writes. */
    function Bounds(): Rect
    {
      Rect(centerX - viewWidth / 2.0, centerX + viewWidth / 2.0, centerY - viewHeight / 2.0, centerY + viewHeight / 2.0)
    }
  }

  /**
   * The viewport of `fitToData(dataBounds, camera, padding)` on a canvas of
   * aspect ratio `aspect`: centred on the data, each data extent raised to
   * at least 0.1 and grown by the padding fraction, then the shorter axis
   * widened to the canvas aspect ratio. Nothing is cropped, the aspect ratio
   * is the canvas's, and one of the two padded extents is kept exactly.
   */
  function FitViewport(data: Rect, aspect: real, padding: real): (f: Fit)
    requires aspect > 0.0 && padding > -1.0
    ensures f.centerX == (data.left + data.right) / 2.0 && f.centerY == (data.bottom + data.top) / 2.0
    ensures f.viewHeight > 0.0 && f.viewWidth == f.viewHeight * aspect && f.viewWidth / f.viewHeight == aspect
    ensures f.viewWidth >= PaddedExtent(data.Width(), padding)
    ensures f.viewHeight >= PaddedExtent(data.Height(), padding)
    ensures f.viewWidth == PaddedExtent(data.Width(), padding) || f.viewHeight == PaddedExtent(data.Height(), padding)
    ensures data.left <= data.right && data.bottom <= data.top && padding >= 0.0 ==>
      var b := f.Bounds();
      && b.left <= data.left - data.Width() * padding / 2.0 && data.right + data.Width() * padding / 2.0 <= b.right
      && b.bottom <= data.bottom - data.Height() * padding / 2.0 && data.top + data.Height() * padding / 2.0 <= b.top
  {
    var paddedWidth := PaddedExtent(data.Width(), padding);
    var paddedHeight := PaddedExtent(data.Height(), padding);
    var centerX := (data.left + data.right) / 2.0;
    var centerY := (data.bottom + data.top) / 2.0;
    var size := ViewSize(paddedWidth, paddedHeight, aspect);
    Fit(centerX, centerY, size.0, size.1)
  }

  /**
   * The aspect correction of `fitToData`: when the canvas is wider than the
   * padded data, the width is widened to the canvas aspect ratio, otherwise
   * the height is. The result has the canvas aspect ratio, covers both
   * padded extents and keeps one of them exactly.
   */
  function ViewSize(paddedWidth: real, paddedHeight: real, aspect: real): (v: (real, real))
    requires paddedWidth > 0.0 && paddedHeight > 0.0 && aspect > 0.0
    ensures v.1 > 0.0 && v.0 == v.1 * aspect && v.0 / v.1 == aspect
    ensures v.0 >= paddedWidth && v.1 >= paddedHeight
    ensures v.0 == paddedWidth || v.1 == paddedHeight
  {
    if aspect > paddedWidth / paddedHeight then
      WiderThanRatio(paddedWidth, paddedHeight, aspect);
      (paddedHeight * aspect, paddedHeight)
    else
      NarrowerThanRatio(paddedWidth, paddedHeight, aspect);
      (paddedWidth, paddedWidth / aspect)
  }

  /**
   * One side of the fitted viewport before the aspect correction: the data
   * extent, at least 0.1, grown by the padding fraction. It is positive and,
   * for a non-negative padding, covers the padded data extent.
   */
  function PaddedExtent(extent: real, padding: real): (r: real)
    requires padding > -1.0
    ensures r > 0.0
    ensures extent >= 0.0 && padding >= 0.0 ==> r >= extent + extent * padding
  {
    var safe := Max(extent, 0.1);
    ScalePositive(safe, extent, 1.0 + padding);
    safe * (1.0 + padding)
  }

  /** Scaling by a positive factor keeps signs and order. */
  lemma ScalePositive(a: real, b: real, k: real)
    requires a > 0.0 && k > 0.0 && a >= b
    ensures a * k > 0.0 && a * k >= b * k
  {
  }

  /** A canvas wider than the padded extents: the view keeps the height and widens to the aspect ratio. */
  lemma WiderThanRatio(w: real, h: real, aspect: real)
    requires w > 0.0 && h > 0.0 && aspect > w / h
    ensures h * aspect >= w && (h * aspect) / h == aspect
  {
    assert (w / h) * h == w;
    assert aspect * h > (w / h) * h;
    RatioOfScaled(h, aspect, h * aspect);
  }

  /** A canvas no wider than the padded extents: the view keeps the width and grows to the aspect ratio. */
  lemma NarrowerThanRatio(w: real, h: real, aspect: real)
    requires w > 0.0 && h > 0.0 && aspect > 0.0 && aspect <= w / h
    ensures w / aspect >= h && w / aspect > 0.0 && (w / aspect) * aspect == w && w / (w / aspect) == aspect
  {
    assert (w / h) * h == w;
    assert aspect * h <= w;
    assert (w / aspect) * aspect == w;
    RatioOfScaled(w / aspect, aspect, w);
  }

  /** A width that is the height scaled by `aspect` has aspect ratio `aspect`. */
  lemma RatioOfScaled(h: real, aspect: real, width: real)
    requires h > 0.0 && width == h * aspect
    ensures width / h == aspect
  {
    Cancel(aspect, h);
  }

  /**
   * A THREE.OrthographicCamera: the four bounds and the zoom, which the
   * pan/zoom controls and `fitToData` assign.
   */
  class OrthographicCamera {
    var left: Num
    var right: Num
    var bottom: Num
    var top: Num
    var zoom: Num

    /** `new THREE.OrthographicCamera(left, right, top, bottom, ...)` with zoom 1. */
    constructor(left: real, right: real, top: real, bottom: real)
      ensures View() == CameraView(Finite(left), Finite(right), Finite(bottom), Finite(top), Finite(1.0))
    {
      this.left := Finite(left);
      this.right := Finite(right);
      this.bottom := Finite(bottom);
      this.top := Finite(top);
      this.zoom := Finite(1.0);
    }

    /** The fields `getWorldBounds` reads. */
    function View(): CameraView
      reads this
    {
      CameraView(left, right, bottom, top, zoom)
    }
  }

  /**
   * A CoordinateSystem: the cached pixel size and aspect ratio of the canvas.
   * The size comes from the page layout and is passed in.
   */
  class CoordinateSystem {
    var canvasWidth: real
    var canvasHeight: real
    var canvasAspect: real

    ghost predicate Valid()
      reads this
    {
      canvasWidth > 0.0 && canvasHeight > 0.0 && canvasAspect == canvasWidth / canvasHeight
    }

    function Size(): Canvas
      reads this
    {
      Canvas(canvasWidth, canvasHeight)
    }

    constructor(width: real, height: real)
      requires width > 0.0 && height > 0.0
      ensures Valid() && Size() == Canvas(width, height)
    {
      canvasWidth := width;
      canvasHeight := height;
      canvasAspect := width / height;
    }

    /** `updateCanvasSize()`: re-read the canvas size and recompute the aspect ratio. */
    method UpdateCanvasSize(width: real, height: real)
      requires width > 0.0 && height > 0.0
      modifies this
      ensures Valid() && Size() == Canvas(width, height)
    {
      canvasWidth := width;
      canvasHeight := height;
      canvasAspect := width / height;
    }

    /**
     * `fitToData(dataBounds, camera, padding)`: set the camera to the fitted
     * viewport at zoom 1 and return it. Afterwards, whenever the bounds are
     * representable, the camera shows exactly the fitted rectangle
     * (lemma WorldBoundsOfPlainCamera).
     */
    method FitToData(data: Rect, camera: OrthographicCamera, padding: real) returns (fit: Fit)
      requires Valid() && padding > -1.0
      modifies camera
      ensures fit == FitViewport(data, canvasAspect, padding)
      ensures var b := fit.Bounds();
        camera.View() == CameraView(Finite(b.left), Finite(b.right), Finite(b.bottom), Finite(b.top), Finite(1.0))
    {
      assert canvasAspect > 0.0;
      fit := FitViewport(data, canvasAspect, padding);
      camera.left := Finite(fit.centerX - fit.viewWidth / 2.0);
      camera.right := Finite(fit.centerX + fit.viewWidth / 2.0);
      camera.bottom := Finite(fit.centerY - fit.viewHeight / 2.0);
      camera.top := Finite(fit.centerY + fit.viewHeight / 2.0);
      camera.zoom := Finite(1.0);
    }
  }
}
