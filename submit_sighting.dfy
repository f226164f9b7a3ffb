/**
 * src/app/_components/map/submit-sighting.tsx: the downscale arithmetic of
 * `compressAndConvertToWebP` and the coordinates `handleSubmit` sends.
 */
module SubmitSighting {
  import opened Wrappers
  import opened UserPosition
  import AuroraRouter

  /** The `maxWidth` a caller gets when it passes none. */
  const DefaultMaxWidth: nat := 1920

  /** `Math.round`: the nearest integer, halves rounded up. */
  function Round(x: real): int
  {
    (x + 0.5).Floor
  }

  lemma ScaleReal(a: real, b: real, c: real)
    requires a <= b && c > 0.0
    ensures a * c <= b * c
  {
  }

  lemma ScaleRealStrict(a: real, b: real, c: real)
    requires a < b && c > 0.0
    ensures a * c < b * c
  {
  }

  lemma Distribute(a: real, b: real, c: real)
    ensures (a + b) * c == a * c + b * c
  {
  }

  /** Math.round(p / w), scaled back by w, lies within half of w around p. */
  lemma RoundTimes(p: real, w: real)
    requires w > 0.0
    ensures Round(p / w) as real * w <= p + 0.5 * w
    ensures p + 0.5 * w < Round(p / w) as real * w + w
  {
    var x := p / w;
    var r := Round(x) as real;
    assert r <= x + 0.5 < r + 1.0;
    assert x * w == p;
    ScaleReal(r, x + 0.5, w);
    ScaleRealStrict(x + 0.5, r + 1.0, w);
    Distribute(x, 0.5, w);
    Distribute(r, 1.0, w);
    assert (x + 0.5) * w < (r + 1.0) * w;
    assert x * w + 0.5 * w < r * w + 1.0 * w;
    assert 1.0 * w == w;
    assert p + 0.5 * w < r * w + w;
  }

  lemma ProductAsReal(a: int, b: int)
    ensures (a * b) as real == a as real * b as real
  {
  }

  lemma ScaleInt(a: int, b: int, c: nat)
    requires a <= b
    ensures a * c <= b * c
  {
  }

  /** Rounding p / width, scaled back by width, lands within half a width of p. */
  lemma RoundedQuotient(p: nat, width: nat, h: int)
    requires width > 0 && h == Round(p as real / width as real)
    ensures (h * width) as real <= p as real + 0.5 * width as real
    ensures p as real + 0.5 * width as real < (h * width) as real + width as real
  {
    RoundTimes(p as real, width as real);
    ProductAsReal(h, width);
  }

  /** A whole number whose multiple by width lies within half a width of height * maxWidth is at most height. */
  lemma NearestIsAtMostHeight(h: int, height: nat, maxWidth: nat, width: nat)
    requires width > maxWidth
    requires 2 * (h * width) <= 2 * (height * maxWidth) + width
    ensures h <= height
  {
    ScaleInt(maxWidth, width - 1, height);
    if h > height {
      ScaleInt(height + 1, h, width);
    }
  }

  /** ... and it is not negative. */
  lemma NearestIsNatural(h: int, product: nat, width: nat)
    requires width > 0
    requires 2 * product + width < 2 * (h * width) + 2 * width
    ensures h >= 0
  {
    if h < 0 {
      ScaleInt(h, -1, width);
    }
  }

  /**
   * The rounded height is the nearest whole number to height * maxWidth / width
   * (halves rounded up), and it never exceeds the original height.
   */
  lemma RoundedScale(width: nat, height: nat, maxWidth: nat)
    requires width > maxWidth
    ensures var h := Round(height as real * maxWidth as real / width as real);
      && -(width as int) < 2 * (h * width - height * maxWidth) <= width
      && 0 <= h <= height
  {
    var product := height * maxWidth;
    ProductAsReal(height, maxWidth);
    var h := Round(product as real / width as real);
    RoundedQuotient(product, width, h);
    NearestIsAtMostHeight(h, height, maxWidth, width);
    NearestIsNatural(h, product, width);
  }

  /**
   * The size the image is drawn at: unchanged up to `maxWidth`, otherwise
   * `maxWidth` wide with the height scaled to match and rounded.
   */
  method Downscale(width: nat, height: nat, maxWidth: nat := DefaultMaxWidth) returns (w: nat, h: nat)
    ensures w <= maxWidth
    ensures width <= maxWidth ==> w == width && h == height
    ensures width > maxWidth ==>
      && w == maxWidth
      && h == Round(height as real * maxWidth as real / width as real)
      && h <= height
      && -(width as int) < 2 * (h * width - height * maxWidth) <= width
  {
    w, h := width, height;
    if w > maxWidth {
      RoundedScale(width, height, maxWidth);
      h := Round(height as real * maxWidth as real / width as real);
      w := maxWidth;
    }
  }

  /** `position?.coords.latitude ?? 0` and the same for the longitude. */
  function SubmissionInput(position: Option<Position>, location: Option<string>, imageId: Option<string>): (input: AuroraRouter.SubmitInput)
    ensures position.None? ==> input.latitude == 0.0 && input.longitude == 0.0
    ensures position.Some? ==> input.latitude == position.value.latitude && input.longitude == position.value.longitude
    ensures input.location == location && input.imageId == imageId
  {
    match position
    case None => AuroraRouter.SubmitInput(0.0, 0.0, location, imageId)
    case Some(p) => AuroraRouter.SubmitInput(p.latitude, p.longitude, location, imageId)
  }

  /**
   * Without a position the fallback coordinates (0, 0) always pass the
   * router's range checks, so only the location and image id decide.
   */
  lemma FallbackPassesRangeChecks(location: Option<string>, imageId: Option<string>)
    ensures var input := SubmissionInput(None, location, imageId);
      AuroraRouter.Accepts(input) <==> location.Some? && 1 <= |location.value| <= 100 && imageId.Some?
  {
  }
}
