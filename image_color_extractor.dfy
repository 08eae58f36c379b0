/**
 * Dominant-colour extraction: the averaging pass over an RGBA8 buffer, the
 * WCAG relative luminance, the black-or-white contrast choice, brightness-only
 * darkening in HSB space, and the state rule of `ImageColorLoader`.
 */
module ImageColorExtractor {
  import opened Wrappers
  import opened Graphics

  /** The colour bytes of a pixel: 0 red, 1 green, 2 blue. Byte 3 (alpha) is never read. */
  type ChannelIndex = c: nat | c < 3

  const BytesPerPixel: nat := 4

  /** Byte `ch` of pixel `i`, that is `pixels[i * 4 + ch]`. */
  function Sample(pixels: seq<Byte>, i: nat, ch: ChannelIndex): Byte
    requires BytesPerPixel * (i + 1) <= |pixels|
  {
    pixels[i * BytesPerPixel + ch]
  }

  /** The sum of channel `ch` over the first `n` pixels, never negative. */
  function ChannelSum(pixels: seq<Byte>, n: nat, ch: ChannelIndex): (s: int)
    requires BytesPerPixel * n <= |pixels|
    ensures 0 <= s
  {
    if n == 0 then 0 else ChannelSum(pixels, n - 1, ch) + Sample(pixels, n - 1, ch)
  }

  /** Adding pixel n to a sum over the first n pixels: bytes n·4 + ch are read. */
  lemma ChannelSumStep(pixels: seq<Byte>, n: nat, ch: ChannelIndex)
    requires BytesPerPixel * (n + 1) <= |pixels|
    ensures ChannelSum(pixels, n + 1, ch) == ChannelSum(pixels, n, ch) + pixels[n * BytesPerPixel + ch]
  {
  }

  /** Each byte is at most 255, so a sum over n pixels lies in [0, 255·n]. */
  lemma {:induction false} ChannelSumBounds(pixels: seq<Byte>, n: nat, ch: ChannelIndex)
    requires BytesPerPixel * n <= |pixels|
    ensures ChannelSum(pixels, n, ch) <= 255 * n
  {
    if n > 0 {
      ChannelSumBounds(pixels, n - 1, ch);
    }
  }

  /** Over pixels that all carry the value v in channel ch, the sum is n·v. */
  lemma {:induction false} UniformChannelSum(pixels: seq<Byte>, n: nat, ch: ChannelIndex, v: Byte)
    requires BytesPerPixel * n <= |pixels|
    requires forall i :: 0 <= i < n ==> Sample(pixels, i, ch) == v
    ensures ChannelSum(pixels, n, ch) == n * v
  {
    if n > 0 {
      UniformChannelSum(pixels, n - 1, ch, v);
    }
  }

  /** Sums depend on the colour bytes only: buffers that differ only in alpha bytes sum alike. */
  lemma {:induction false} ChannelSumIgnoresAlpha(a: seq<Byte>, b: seq<Byte>, n: nat, ch: ChannelIndex)
    requires BytesPerPixel * n <= |a| && BytesPerPixel * n <= |b|
    requires forall k :: 0 <= k < BytesPerPixel * n && k % 4 != 3 ==> a[k] == b[k]
    ensures ChannelSum(a, n, ch) == ChannelSum(b, n, ch)
  {
    if n > 0 {
      ChannelSumIgnoresAlpha(a, b, n - 1, ch);
      var k := (n - 1) * BytesPerPixel + ch;
      assert k % 4 == ch;
      assert a[k] == b[k];
    }
  }

  /** `CGFloat(total) / CGFloat(pixelCount) / 255.0`: a mean byte, normalised to [0, 1]. */
  function MeanChannel(pixels: seq<Byte>, n: nat, ch: ChannelIndex): (m: real)
    requires 0 < n && BytesPerPixel * n <= |pixels|
    ensures 0.0 <= m <= 1.0
  {
    ChannelSumBounds(pixels, n, ch);
    var s := ChannelSum(pixels, n, ch) as real;
    assert s / n as real <= 255.0 by {
      assert s <= 255.0 * n as real;
    }
    s / n as real / 255.0
  }

  /** A buffer of `width` × `height` RGBA8 pixels, row-major, as the bitmap context lays it out. */
  predicate IsPixelBuffer(pixels: seq<Byte>, width: nat, height: nat)
  {
    width > 0 && height > 0 && |pixels| == width * height * BytesPerPixel
  }

  /** The average colour of the buffer, opaque. */
  function AverageOf(pixels: seq<Byte>, width: nat, height: nat): (c: Rgba)
    requires IsPixelBuffer(pixels, width, height)
    ensures InUnitRange(c) && c.alpha == 1.0
  {
    var n := width * height;
    Rgba(MeanChannel(pixels, n, 0), MeanChannel(pixels, n, 1), MeanChannel(pixels, n, 2), 1.0)
  }

  /** Pixel (x, y) of a width × height image is one of its first width·height pixels. */
  lemma PixelIndexInRange(x: nat, y: nat, width: nat, height: nat)
    requires x < width && y < height
    ensures y * width + x + 1 <= width * height
  {
    calc {
      y * width + x + 1;
    <= y * width + width;
    == (y + 1) * width;
    <= { assert y + 1 <= height; } height * width;
    }
  }

  /**
   * The averaging pass of `UIImage.dominantColor()`: rows `y`, then columns
   * `x`, summing bytes `offset`, `offset + 1` and `offset + 2` of each pixel
   * and dividing by the number of pixels visited.
   */
  method AverageColor(pixels: seq<Byte>, width: nat, height: nat) returns (c: Rgba)
    requires IsPixelBuffer(pixels, width, height)
    ensures c == AverageOf(pixels, width, height)
  {
    var totalRed: int := 0;
    var totalGreen: int := 0;
    var totalBlue: int := 0;
    var pixelCount: nat := 0;

    for y := 0 to height
      invariant pixelCount == y * width <= width * height
      invariant totalRed == ChannelSum(pixels, pixelCount, 0)
      invariant totalGreen == ChannelSum(pixels, pixelCount, 1)
      invariant totalBlue == ChannelSum(pixels, pixelCount, 2)
    {
      for x := 0 to width
        invariant pixelCount == y * width + x <= width * height
        invariant totalRed == ChannelSum(pixels, pixelCount, 0)
        invariant totalGreen == ChannelSum(pixels, pixelCount, 1)
        invariant totalBlue == ChannelSum(pixels, pixelCount, 2)
      {
        PixelIndexInRange(x, y, width, height);
        var offset := (y * width + x) * BytesPerPixel;
        assert offset == pixelCount * BytesPerPixel;
        var red := pixels[offset];
        var green := pixels[offset + 1];
        var blue := pixels[offset + 2];
        ChannelSumStep(pixels, pixelCount, 0);
        ChannelSumStep(pixels, pixelCount, 1);
        ChannelSumStep(pixels, pixelCount, 2);

        totalRed := totalRed + red;
        totalGreen := totalGreen + green;
        totalBlue := totalBlue + blue;
        pixelCount := pixelCount + 1;
      }
      assert y * width + width == (y + 1) * width;
    }
    assert pixelCount == width * height;

    var avgRed := totalRed as real / pixelCount as real / 255.0;
    var avgGreen := totalGreen as real / pixelCount as real / 255.0;
    var avgBlue := totalBlue as real / pixelCount as real / 255.0;
    c := Rgba(avgRed, avgGreen, avgBlue, 1.0);
  }

  /** Over pixels that all carry v in channel ch, the normalised mean is exactly v / 255. */
  lemma UniformChannelMean(pixels: seq<Byte>, n: nat, ch: ChannelIndex, v: Byte)
    requires 0 < n && BytesPerPixel * n <= |pixels|
    requires forall i :: 0 <= i < n ==> Sample(pixels, i, ch) == v
    ensures MeanChannel(pixels, n, ch) == v as real / 255.0
  {
    UniformChannelSum(pixels, n, ch, v);
    var total := ChannelSum(pixels, n, ch) as real;
    assert total == n as real * v as real;
    assert total / n as real == v as real;
  }

  /** A solid-colour buffer (r, g, b) averages to exactly (r/255, g/255, b/255), opaque. */
  lemma SolidColorAverage(pixels: seq<Byte>, width: nat, height: nat, r: Byte, g: Byte, b: Byte)
    requires IsPixelBuffer(pixels, width, height)
    requires forall i :: 0 <= i < width * height ==>
      Sample(pixels, i, 0) == r && Sample(pixels, i, 1) == g && Sample(pixels, i, 2) == b
    ensures AverageOf(pixels, width, height) == Rgba(r as real / 255.0, g as real / 255.0, b as real / 255.0, 1.0)
  {
    var n := width * height;
    UniformChannelMean(pixels, n, 0, r);
    UniformChannelMean(pixels, n, 1, g);
    UniformChannelMean(pixels, n, 2, b);
  }

  /** The alpha byte of each pixel has no influence on the average. */
  lemma AverageIgnoresAlpha(a: seq<Byte>, b: seq<Byte>, width: nat, height: nat)
    requires IsPixelBuffer(a, width, height) && IsPixelBuffer(b, width, height)
    requires forall k :: 0 <= k < |a| && k % 4 != 3 ==> a[k] == b[k]
    ensures AverageOf(a, width, height) == AverageOf(b, width, height)
  {
    var n := width * height;
    ChannelSumIgnoresAlpha(a, b, n, 0);
    ChannelSumIgnoresAlpha(a, b, n, 1);
    ChannelSumIgnoresAlpha(a, b, n, 2);
  }

  /**
   * The outcome of the toolkit steps before the averaging pass: the image has
   * no `cgImage`, the 50 × 50 resize yields no image, `CGContext` creation
   * fails, or the resized image is drawn into a buffer of `width` × `height`
   * pixels (device scale, so 100 × 100 or 150 × 150 as well as 50 × 50).
   */
  datatype Rendering =
    | NoCgImage
    | ResizeFailed
    | ContextFailed
    | Rendered(width: nat, height: nat, pixels: seq<Byte>)
  {
    predicate Valid()
    {
      Rendered? ==> IsPixelBuffer(pixels, width, height)
    }
  }

  /** The result of `dominantColor()`: nil on any toolkit failure, else the average colour. */
  function DominantColorOf(r: Rendering): (c: Option<Rgba>)
    requires r.Valid()
    ensures c.Some? <==> r.Rendered?
    ensures c.Some? ==> InUnitRange(c.value) && c.value.alpha == 1.0
  {
    match r
    case Rendered(width, height, pixels) => Some(AverageOf(pixels, width, height))
    case _ => None
  }

  /** `UIImage.dominantColor()` on a rendering. */
  method DominantColor(r: Rendering) returns (c: Option<Rgba>)
    requires r.Valid()
    ensures c == DominantColorOf(r)
    ensures c.Some? <==> r.Rendered?
    ensures c.Some? ==> InUnitRange(c.value) && c.value.alpha == 1.0
  {
    match r
    case NoCgImage => c := None;
    case ResizeFailed => c := None;
    case ContextFailed => c := None;
    case Rendered(width, height, pixels) =>
      var average := AverageColor(pixels, width, height);
      c := Some(average);
  }

  // Luminance and contrast

  /** The WCAG transfer of one channel: linear up to 0.03928, a power curve above it. */
  function Adjust(component: real, pow: (real, real) -> real): (a: real)
    ensures 0.0 <= component <= 0.03928 ==> 0.0 <= a <= component
    ensures 0.0 <= component <= 1.0 && PowKeepsUnit(pow) ==> 0.0 <= a <= 1.0
  {
    if component <= 0.03928 then component / 12.92 else pow((component + 0.055) / 1.055, 2.4)
  }

  /** `pow(x, 2.4)` stays in [0, 1] for x in [0, 1], as the real power function does. */
  ghost predicate PowKeepsUnit(pow: (real, real) -> real)
  {
    forall x :: 0.0 <= x <= 1.0 ==> 0.0 <= pow(x, 2.4) <= 1.0
  }

  /** The components read by `luminance`: the toolkit's, or [0, 0, 0, 1] when it has none. */
  function LuminanceComponents(c: Rgba, tk: Toolkit): Rgba
  {
    tk.components(c).GetOr(Rgba(0.0, 0.0, 0.0, 1.0))
  }

  /** `Color.luminance`: 0.2126 R + 0.7152 G + 0.0722 B over adjusted components. */
  function Luminance(c: Rgba, tk: Toolkit): (l: real)
    ensures InUnitRange(LuminanceComponents(c, tk)) && PowKeepsUnit(tk.pow) ==> 0.0 <= l <= 1.0
    ensures var k := LuminanceComponents(c, tk);
      k.red == k.green == k.blue ==> l == Adjust(k.red, tk.pow)
  {
    var comps := LuminanceComponents(c, tk);
    0.2126 * Adjust(comps.red, tk.pow) + 0.7152 * Adjust(comps.green, tk.pow) + 0.0722 * Adjust(comps.blue, tk.pow)
  }

  /** Components at or below 0.03928 take the linear branch c / 12.92, which keeps them in [0, 1]. */
  lemma LinearBranch(component: real, pow: (real, real) -> real)
    requires 0.0 <= component <= 0.03928
    ensures Adjust(component, pow) == component / 12.92
    ensures 0.0 <= Adjust(component, pow) <= component
  {
  }

  /** A component in [0, 1] adjusts to a value in [0, 1]. */
  lemma AdjustInUnit(component: real, pow: (real, real) -> real)
    requires 0.0 <= component <= 1.0
    requires PowKeepsUnit(pow)
    ensures 0.0 <= Adjust(component, pow) <= 1.0
  {
  }

  /** The weights sum to 1, so components in [0, 1] give a luminance in [0, 1]. */
  lemma LuminanceInUnit(c: Rgba, tk: Toolkit)
    requires InUnitRange(LuminanceComponents(c, tk))
    requires PowKeepsUnit(tk.pow)
    ensures 0.0 <= Luminance(c, tk) <= 1.0
  {
  }

  /** For a grey (v, v, v) the luminance is the adjusted v itself: the weights sum to 1. */
  lemma GreyLuminance(c: Rgba, tk: Toolkit, v: real)
    requires var comps := LuminanceComponents(c, tk); comps.red == v && comps.green == v && comps.blue == v
    ensures Luminance(c, tk) == Adjust(v, tk.pow)
  {
  }

  /** `contrastingTextColor`: black text over a light colour, white text otherwise. */
  function ContrastingTextColor(c: Rgba, tk: Toolkit): (text: Rgba)
    ensures text == Black <==> Luminance(c, tk) > 0.5
    ensures text == White <==> Luminance(c, tk) <= 0.5
  {
    if Luminance(c, tk) > 0.5 then Black else White
  }

  /** A luminance of exactly one half is not "light": it gets white text. */
  lemma HalfLuminanceGetsWhite(c: Rgba, tk: Toolkit)
    requires Luminance(c, tk) == 0.5
    ensures ContrastingTextColor(c, tk) == White
  {
  }

  /** Pure white has luminance 1 and gets black text. */
  lemma WhiteGetsBlackText(c: Rgba, tk: Toolkit)
    requires tk.components(c) == Some(White)
    requires tk.pow(1.0, 2.4) == 1.0
    ensures Luminance(c, tk) == 1.0
    ensures ContrastingTextColor(c, tk) == Black
  {
  }

  /** Pure black, or a colour without components, has luminance 0 and gets white text. */
  lemma BlackGetsWhiteText(c: Rgba, tk: Toolkit)
    requires tk.components(c) == Some(Black) || tk.components(c) == None
    ensures Luminance(c, tk) == 0.0
    ensures ContrastingTextColor(c, tk) == White
  {
  }

  // Darkening

  /** `darkened(by:)` on the HSB triple: brightness scaled by 1 − percentage, default 0.3. */
  function DarkenedHsb(h: Hsb, percentage: real := 0.3): (r: Hsb)
    ensures r.hue == h.hue && r.saturation == h.saturation
  {
    Hsb(h.hue, h.saturation, h.brightness * (1.0 - percentage))
  }

  /** `darkened(by:)` on a colour: through `getHue`, then back with `Color(hue:saturation:brightness:)`. */
  function Darkened(c: Rgba, tk: Toolkit, percentage: real := 0.3): (r: Rgba)
    ensures percentage == 0.0 && tk.fromHsb(tk.toHsb(c)) == c ==> r == c
    ensures percentage == 1.0 && (forall h: Hsb :: h.brightness == 0.0 ==> tk.fromHsb(h) == Black) ==> r == Black
  {
    tk.fromHsb(DarkenedHsb(tk.toHsb(c), percentage))
  }

  /** Darkening by 0 changes nothing; by 1 drives brightness to 0. */
  lemma DarkenedExtremes(h: Hsb)
    ensures DarkenedHsb(h, 0.0) == h
    ensures DarkenedHsb(h, 1.0).brightness == 0.0
  {
  }

  /** Darkening by a percentage in [0, 1] keeps a non-negative brightness between 0 and its old value. */
  lemma DarkenedBrightnessBounds(h: Hsb, percentage: real)
    requires 0.0 <= percentage <= 1.0 && 0.0 <= h.brightness
    ensures 0.0 <= DarkenedHsb(h, percentage).brightness <= h.brightness
  {
    assert h.brightness * (1.0 - percentage) <= h.brightness * 1.0;
  }

  /** Darkening twice is darkening once by the combined percentage 1 − (1 − p)(1 − q). */
  lemma DarkenedTwice(h: Hsb, p: real, q: real)
    ensures DarkenedHsb(DarkenedHsb(h, p), q) == DarkenedHsb(h, 1.0 - (1.0 - p) * (1.0 - q))
  {
  }

  /** Where the HSB conversions round-trip, darkening by 0 keeps the colour and its luminance. */
  lemma ZeroDarkeningKeepsColor(c: Rgba, tk: Toolkit)
    requires tk.fromHsb(tk.toHsb(c)) == c
    ensures Darkened(c, tk, 0.0) == c
    ensures Luminance(Darkened(c, tk, 0.0), tk) == Luminance(c, tk)
  {
  }

  /** Where zero brightness converts to black, darkening by 1 yields black whatever the hue. */
  lemma FullDarkeningIsBlack(c: Rgba, tk: Toolkit)
    requires forall h: Hsb :: h.brightness == 0.0 ==> tk.fromHsb(h) == Black
    ensures Darkened(c, tk, 1.0) == Black
  {
  }

  // Loading

  /** The share by which `ImageColorLoader` darkens the dominant colour. */
  const LoaderDarkening: real := 0.2

  /**
   * What `loadColor(from:)` obtains before any state changes: the address does
   * not parse as a URL, the fetch throws, or the bytes were fetched and
   * `UIImage(data:)` either fails (None) or yields an image whose rendering is given.
   */
  datatype Download =
    | InvalidUrl
    | FetchFailed
    | Fetched(image: Option<Rendering>)
  {
    predicate Valid()
    {
      Fetched? && image.Some? ==> image.value.Valid()
    }
  }

  /** The dominant colour extracted from a download, or None on any failure. */
  function ExtractedColor(d: Download): (c: Option<Rgba>)
    requires d.Valid()
    ensures c.Some? <==> d.Fetched? && d.image.Some? && d.image.value.Rendered?
  {
    match d
    case Fetched(Some(r)) => DominantColorOf(r)
    case _ => None
  }

  /** `ImageColorLoader`: the published dominant colour and text colour. */
  class ImageColorLoader {
    var dominantColor: Option<Rgba>
    var textColor: Rgba

    /** The published defaults: no dominant colour, white text. */
    constructor ()
      ensures dominantColor == None && textColor == White
    {
      dominantColor := None;
      textColor := White;
    }

    /**
     * `loadColor(from:)`: on any failure both fields keep their values; on
     * success the dominant colour darkened by 0.2 is published together with
     * its contrasting text colour.
     */
    method LoadColor(download: Download, tk: Toolkit)
      requires download.Valid()
      modifies this
      ensures ExtractedColor(download).None? ==>
        dominantColor == old(dominantColor) && textColor == old(textColor)
      ensures ExtractedColor(download).Some? ==>
        var color := Darkened(ExtractedColor(download).value, tk, LoaderDarkening);
        dominantColor == Some(color) && textColor == ContrastingTextColor(color, tk)
    {
      match download
      case InvalidUrl =>
        return;
      case FetchFailed =>
        return;
      case Fetched(image) =>
        if image.None? {
          return;
        }
        var dominantUIColor := DominantColor(image.value);
        if dominantUIColor.None? {
          return;
        }
        var color := Darkened(dominantUIColor.value, tk, LoaderDarkening);
        dominantColor := Some(color);
        textColor := ContrastingTextColor(color, tk);
    }
  }

  /**
   * A fresh loader after one `loadColor`: on failure it still shows the
   * defaults (no colour, white text); on success the darkened colour and its contrasting text colour,
   * which is black or white.
   */
  method LoadOnce(download: Download, tk: Toolkit) returns (dominant: Option<Rgba>, text: Rgba)
    requires download.Valid()
    ensures ExtractedColor(download).None? ==> dominant == None && text == White
    ensures ExtractedColor(download).Some? ==>
      dominant == Some(Darkened(ExtractedColor(download).value, tk, LoaderDarkening)) &&
      text == ContrastingTextColor(dominant.value, tk)
    ensures text == Black || text == White
  {
    var loader := new ImageColorLoader();
    loader.LoadColor(download, tk);
    dominant, text := loader.dominantColor, loader.textColor;
  }
}
