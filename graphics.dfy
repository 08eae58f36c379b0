/**
 * Colour values and the toolkit operations on them that the app calls but does
 * not implement. Colour channels are exact reals: floating-point rounding of
 * `CGFloat` and `Double` is not modelled.
 */
module Graphics {
  import opened Wrappers

  /** An 8-bit value: a `UInt8` of a pixel buffer or one channel of a hex literal. */
  type Byte = x: nat | x < 256

  /** An RGBA colour with channels normally in [0, 1] (a `UIColor` or a SwiftUI `Color`). */
  datatype Rgba = Rgba(red: real, green: real, blue: real, alpha: real)

  /** A colour as hue, saturation and brightness (the outputs of `UIColor.getHue`). */
  datatype Hsb = Hsb(hue: real, saturation: real, brightness: real)

  /**
   * The library code the colour routines call, kept uninterpreted:
   * - `pow(x, y)`, the floating-point power function;
   * - `components(c)`, `UIColor(c).cgColor.components` (nil for some colours);
   * - `toHsb(c)`, `UIColor.getHue(_:saturation:brightness:alpha:)`;
   * - `fromHsb(h)`, `Color(hue:saturation:brightness:)`.
   */
  datatype Toolkit = Toolkit(
    pow: (real, real) -> real,
    components: Rgba -> Option<Rgba>,
    toHsb: Rgba -> Hsb,
    fromHsb: Hsb -> Rgba)

  /** Every channel, alpha included, lies in [0, 1]. */
  predicate InUnitRange(c: Rgba)
  {
    0.0 <= c.red <= 1.0 && 0.0 <= c.green <= 1.0 && 0.0 <= c.blue <= 1.0 && 0.0 <= c.alpha <= 1.0
  }

  const White: Rgba := Rgba(1.0, 1.0, 1.0, 1.0)
  const Black: Rgba := Rgba(0.0, 0.0, 0.0, 1.0)
}
