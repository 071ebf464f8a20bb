/**
 * The aspect-preserving fit of a decoded image into the 800x800 working area
 * (`changeImage` of the main canvas): `Fit` on exact reals, and `FitPixels`,
 * what an image element stores once each written size has been cut to whole
 * pixels (`width` and `height` of an image element are unsigned integers).
 *
 * The ratio is height/width of the image as decoded. Whether the image is
 * vertical is decided once, from that ratio, before either clamp is tested:
 * a wide or square image can only have its width clamped, a vertical image
 * only its height.
 */
module ImageFit {

  /** Bounds of the working area, in pixels. */
  const MaxCanvasWidth: real := 800.0
  const MaxCanvasHeight: real := 800.0

  datatype Dims = Dims(width: real, height: real)

  /** Metadata of the image as it was before the fit; `Unknown` is the record built from a failed load. */
  datatype OriginalImage =
    | Original(src: string, width: real, height: real, ratio: real)
    | Unknown

  /** Dimensions of a decoded image for which the ratio height/width is defined. */
  predicate Decoded(d: Dims) {
    d.width > 0.0 && d.height >= 0.0
  }

  function Ratio(d: Dims): (r: real)
    requires d.width > 0.0
    ensures d.height >= 0.0 ==> r >= 0.0
  {
    d.height / d.width
  }

  /** Taller than wide; a square image is not vertical. */
  predicate IsVertical(ratio: real) {
    ratio > 1.0
  }

  predicate ClampsWidth(d: Dims, ratio: real) {
    d.width > MaxCanvasWidth && !IsVertical(ratio)
  }

  predicate ClampsHeight(d: Dims, ratio: real) {
    d.height > MaxCanvasHeight && IsVertical(ratio)
  }

  /** First test of the fit: pin the width to the bound, derive the height from the ratio. */
  function ClampWidth(d: Dims, ratio: real): Dims {
    if ClampsWidth(d, ratio) then Dims(MaxCanvasWidth, ratio * MaxCanvasWidth) else d
  }

  /** Second test, applied to the result of the first: pin the height, derive the width. */
  function ClampHeight(d: Dims, ratio: real): Dims {
    if ClampsHeight(d, ratio) then Dims(MaxCanvasHeight / ratio, MaxCanvasHeight) else d
  }

  /** The working dimensions of a decoded image: always inside the box, never degenerate. */
  function Fit(d: Dims): (r: Dims)
    requires Decoded(d)
    ensures Decoded(r)
    ensures r.width <= MaxCanvasWidth && r.height <= MaxCanvasHeight
  {
    var ratio := Ratio(d);
    FitBounds(d);
    ClampHeight(ClampWidth(d, ratio), ratio)
  }

  lemma FitBounds(d: Dims)
    requires Decoded(d)
    ensures var r := ClampHeight(ClampWidth(d, Ratio(d)), Ratio(d));
      Decoded(r) && r.width <= MaxCanvasWidth && r.height <= MaxCanvasHeight
  {
    var ratio := Ratio(d);
    assert d.height == ratio * d.width;
    if IsVertical(ratio) {
      assert d.width < d.height;
      if d.height > MaxCanvasHeight {
        assert MaxCanvasHeight / ratio * ratio == MaxCanvasHeight;
      }
    } else {
      if d.height > d.width {
        assert (d.height - d.width) / d.width > 0.0;
      }
    }
  }

  /** Only one clamp can fire: once the width clamp fired, the height test fails on its result. */
  lemma ClampsExclusive(d: Dims)
    requires Decoded(d)
    ensures ClampsWidth(d, Ratio(d)) ==> !ClampsHeight(ClampWidth(d, Ratio(d)), Ratio(d))
    ensures ClampsHeight(d, Ratio(d)) ==> !ClampsWidth(d, Ratio(d))
  {
  }

  /** The three outcomes of the fit, one per branch of `changeImage`. */
  lemma FitCases(d: Dims)
    requires Decoded(d)
    ensures Ratio(d) <= 1.0 && d.width > MaxCanvasWidth ==>
      Fit(d) == Dims(MaxCanvasWidth, Ratio(d) * MaxCanvasWidth)
    ensures Ratio(d) > 1.0 && d.height > MaxCanvasHeight ==>
      Fit(d) == Dims(MaxCanvasHeight / Ratio(d), MaxCanvasHeight)
    ensures !ClampsWidth(d, Ratio(d)) && !ClampsHeight(d, Ratio(d)) ==> Fit(d) == d
    ensures d.width <= MaxCanvasWidth && d.height <= MaxCanvasHeight ==> Fit(d) == d
  {
  }

  /** The fit keeps the aspect ratio of the decoded image. */
  lemma FitKeepsRatio(d: Dims)
    requires Decoded(d)
    ensures Ratio(Fit(d)) == Ratio(d)
  {
    var ratio := Ratio(d);
    var r := Fit(d);
    if ClampsWidth(d, ratio) {
      assert r == Dims(MaxCanvasWidth, ratio * MaxCanvasWidth);
      assert r.height / r.width == ratio;
    } else if ClampsHeight(d, ratio) {
      assert r == Dims(MaxCanvasHeight / ratio, MaxCanvasHeight);
      assert MaxCanvasHeight / ratio * ratio == MaxCanvasHeight;
    }
  }

  /** Fitting an image that was already fitted changes nothing. */
  lemma FitIdempotent(d: Dims)
    requires Decoded(d)
    ensures Fit(Fit(d)) == Fit(d)
  {
  }

  /** Both sizes are whole numbers of pixels. */
  predicate Whole(d: Dims) {
    d.width == d.width.Floor as real && d.height == d.height.Floor as real
  }

  /** A non-negative number written to an unsigned integer attribute keeps its whole part. */
  function Truncate(x: real): real
    requires x >= 0.0
  {
    x.Floor as real
  }

  /** The first test as the element stores it: the derived height is cut to whole pixels. */
  function ClampWidthPixels(d: Dims, ratio: real): Dims
    requires ratio >= 0.0
  {
    if ClampsWidth(d, ratio) then Dims(MaxCanvasWidth, Truncate(ratio * MaxCanvasWidth)) else d
  }

  /** The second test as the element stores it: the derived width is cut to whole pixels. */
  function ClampHeightPixels(d: Dims, ratio: real): Dims
  {
    if ClampsHeight(d, ratio) then
      assert MaxCanvasHeight / ratio >= 0.0;
      Dims(Truncate(MaxCanvasHeight / ratio), MaxCanvasHeight)
    else d
  }

  /**
   * The sizes the image element holds after `changeImage`: each size the fit
   * writes is the exact one cut to whole pixels, and a size it does not write
   * is the decoded one. So each is at most one pixel short of the exact fit,
   * and inside the box; a decoded image in whole pixels stays in whole pixels.
   */
  function FitPixels(d: Dims): (r: Dims)
    requires Decoded(d)
    ensures r.width <= Fit(d).width < r.width + 1.0
    ensures r.height <= Fit(d).height < r.height + 1.0
    ensures 0.0 <= r.width <= MaxCanvasWidth && 0.0 <= r.height <= MaxCanvasHeight
    ensures Whole(d) ==> Whole(r)
  {
    var ratio := Ratio(d);
    FitPixelsNearFit(d);
    ClampHeightPixels(ClampWidthPixels(d, ratio), ratio)
  }

  lemma FitPixelsNearFit(d: Dims)
    requires Decoded(d)
    ensures var r := ClampHeightPixels(ClampWidthPixels(d, Ratio(d)), Ratio(d));
      && r.width <= Fit(d).width < r.width + 1.0
      && r.height <= Fit(d).height < r.height + 1.0
      && (Whole(d) ==> Whole(r))
  {
    var ratio := Ratio(d);
    var exact := ClampWidth(d, ratio);
    var stored := ClampWidthPixels(d, ratio);
    if ClampsWidth(d, ratio) {
      assert ratio * MaxCanvasWidth <= MaxCanvasWidth;
      assert !ClampsHeight(exact, ratio) && !ClampsHeight(stored, ratio);
    } else {
      assert stored == exact;
    }
  }

  /** For a decoded image in whole pixels, the stored sizes are the exact fit rounded down. */
  lemma FitPixelsIsFloor(d: Dims)
    requires Decoded(d) && Whole(d)
    ensures FitPixels(d) == Dims(Fit(d).width.Floor as real, Fit(d).height.Floor as real)
  {
    var r := FitPixels(d);
    FloorOfBracket(r.width, Fit(d).width);
    FloorOfBracket(r.height, Fit(d).height);
  }

  /** A whole number at most one below `x` and not above it is the floor of `x`. */
  lemma FloorOfBracket(w: real, x: real)
    requires w == w.Floor as real && w <= x < w + 1.0
    ensures w == x.Floor as real
  {
    var k := w.Floor;
    var n := x.Floor;
    assert n as real <= x < n as real + 1.0;
    assert n < k + 1 && k < n + 1;
  }

  /** A 1000x1333 image is stored as 600x800: the exact width 600.15... loses its fraction. */
  lemma PortraitExample()
    ensures Fit(Dims(1000.0, 1333.0)).width > 600.0
    ensures FitPixels(Dims(1000.0, 1333.0)) == Dims(600.0, 800.0)
  {
    var ratio := Ratio(Dims(1000.0, 1333.0));
    assert 800.0 / ratio == 800000.0 / 1333.0;
  }

  /** A 1x1000 image is stored with width 0: the exact width 0.8 is cut to nothing. */
  lemma ThinExample()
    ensures Fit(Dims(1.0, 1000.0)) == Dims(0.8, 800.0)
    ensures FitPixels(Dims(1.0, 1000.0)) == Dims(0.0, 800.0)
  {
  }

  /** A 1600x900 image becomes 800x450. */
  lemma WideExample()
    ensures Fit(Dims(1600.0, 900.0)) == Dims(800.0, 450.0)
  {
  }

  /** A 400x1000 image becomes 320x800. */
  lemma TallExample()
    ensures Fit(Dims(400.0, 1000.0)) == Dims(320.0, 800.0)
  {
  }
}
