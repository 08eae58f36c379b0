/**
 * The design system's constants and the hexadecimal colour initialiser
 * `Color(hex:alpha:)`.
 *
 * `hex` is a Swift `UInt` (64 bits on the app's platforms). For an unsigned
 * value, `hex >> k` is `hex / 2^k` and `v & 0xFF` is `v % 256`; the decoder is
 * written with those two operations.
 */
module DesignTokens {
  import opened Graphics

  /** Swift's `UInt` on a 64-bit platform. */
  type UInt = x: nat | x < 0x1_0000_0000_0000_0000

  /** The three 8-bit channels decoded from a hex literal, before normalising. */
  datatype Rgb8 = Rgb8(red: Byte, green: Byte, blue: Byte)

  /** a & 0xFF for an unsigned a. */
  function LowByte(a: nat): (b: Byte)
  {
    a % 0x100
  }

  /**
   * `(hex >> 16) & 0xFF`, `(hex >> 8) & 0xFF` and `hex & 0xFF`: the three
   * channels are exactly the low 24 bits of `hex`, red highest.
   */
  function DecodeHex(hex: UInt): (c: Rgb8)
    ensures EncodeHex(c) == hex % 0x100_0000
  {
    LowBytes(hex);
    Rgb8(LowByte(hex / 0x1_0000), LowByte(hex / 0x100), LowByte(hex))
  }

  /** The bytes 2, 1 and 0 of a number, put back together, are the number modulo 2^24. */
  lemma LowBytes(a: nat)
    ensures (a / 0x1_0000 % 0x100) * 0x1_0000 + (a / 0x100 % 0x100) * 0x100 + a % 0x100 == a % 0x100_0000
  {
    var q1, b0 := a / 0x100, a % 0x100;
    var q2, b1 := q1 / 0x100, q1 % 0x100;
    var q3, b2 := q2 / 0x100, q2 % 0x100;
    assert a / 0x1_0000 == q2;
    var low := b2 * 0x1_0000 + b1 * 0x100 + b0;
    assert a == q3 * 0x100_0000 + low;
  }

  /** The 24-bit literal whose channels are `c`: the inverse of DecodeHex on 0 ..< 2^24. */
  function EncodeHex(c: Rgb8): (hex: UInt)
    ensures hex < 0x100_0000
  {
    c.red * 0x1_0000 + c.green * 0x100 + c.blue
  }

  /** `Color(hex:alpha:)`: each channel divided by 255, opacity `alpha` (default 1). */
  function ColorFromHex(hex: UInt, alpha: real := 1.0): (c: Rgba)
    ensures 0.0 <= c.red <= 1.0 && 0.0 <= c.green <= 1.0 && 0.0 <= c.blue <= 1.0
    ensures c.alpha == alpha
    ensures var d := DecodeHex(hex);
      c.red * 255.0 == d.red as real && c.green * 255.0 == d.green as real && c.blue * 255.0 == d.blue as real
  {
    var d := DecodeHex(hex);
    Rgba(d.red as real / 255.0, d.green as real / 255.0, d.blue as real / 255.0, alpha)
  }

  /** For a literal below 2^24 the decoded channels recompose the literal. */
  lemma DecodeThenEncode(hex: UInt)
    requires hex < 0x100_0000
    ensures EncodeHex(DecodeHex(hex)) == hex
  {
    assert hex % 0x100_0000 == hex;
  }

  /** Encoding three channels and decoding them gives the channels back. */
  lemma {:induction false} EncodeThenDecode(c: Rgb8)
    ensures DecodeHex(EncodeHex(c)) == c
  {
    var hex := EncodeHex(c);
    assert hex == (c.red * 0x100 + c.green) * 0x100 + c.blue;
    assert hex / 0x100 == c.red * 0x100 + c.green;
    assert hex / 0x1_0000 == (hex / 0x100) / 0x100;
    assert (c.red * 0x100 + c.green) / 0x100 == c.red;
  }

  /** Bits above bit 23 do not reach any channel: `hex` and `hex & 0xFFFFFF` decode alike. */
  lemma {:induction false} HighBitsIgnored(hex: UInt)
    ensures DecodeHex(hex) == DecodeHex(hex % 0x100_0000)
  {
    var low := hex % 0x100_0000;
    var top := hex / 0x100_0000;
    assert hex == top * 0x100_0000 + low;
    assert hex / 0x100 == top * 0x1_0000 + low / 0x100;
    assert hex / 0x1_0000 == top * 0x100 + low / 0x1_0000;
    assert (top * 0x100 + low / 0x1_0000) % 0x100 == (low / 0x1_0000) % 0x100;
    assert (top * 0x1_0000 + low / 0x100) % 0x100 == (low / 0x100) % 0x100;
  }

  /** Omitting `alpha` gives an opaque colour. */
  lemma DefaultAlphaIsOpaque(hex: UInt)
    ensures ColorFromHex(hex).alpha == 1.0
  {
  }

  // Colors

  const GraphiteBaseHex: UInt := 0x0E0F10
  const GraphiteElevatedHex: UInt := 0x131416
  const GraphiteOverlayHex: UInt := 0x1A1B1C
  const TextPrimaryDarkHex: UInt := 0xEDEFF1
  const AccentMintHex: UInt := 0x2ED3C6
  const AccentMintSoftHex: UInt := 0x6FE3D8

  const GraphiteBase: Rgba := ColorFromHex(GraphiteBaseHex)
  const GraphiteElevated: Rgba := ColorFromHex(GraphiteElevatedHex)
  const GraphiteOverlay: Rgba := ColorFromHex(GraphiteOverlayHex)
  const TextPrimaryDark: Rgba := ColorFromHex(TextPrimaryDarkHex)
  /** `Color.white.opacity(0.68)`. */
  const TextSecondaryDark: Rgba := Rgba(1.0, 1.0, 1.0, 0.68)
  const AccentMint: Rgba := ColorFromHex(AccentMintHex)
  const AccentMintSoft: Rgba := ColorFromHex(AccentMintSoftHex)
  /** `Color.white.opacity(0.12)`. */
  const HairlineOnDark: Rgba := Rgba(1.0, 1.0, 1.0, 0.12)

  /** The decoded channels of the colour tokens. */
  lemma TokenChannels()
    ensures DecodeHex(GraphiteBaseHex) == Rgb8(14, 15, 16)
    ensures DecodeHex(GraphiteElevatedHex) == Rgb8(19, 20, 22)
    ensures DecodeHex(GraphiteOverlayHex) == Rgb8(26, 27, 28)
    ensures DecodeHex(TextPrimaryDarkHex) == Rgb8(237, 239, 241)
    ensures DecodeHex(AccentMintHex) == Rgb8(46, 211, 198)
    ensures DecodeHex(AccentMintSoftHex) == Rgb8(111, 227, 216)
  {
  }

  // Space

  const SpaceBase: real := 12.0
  const SpaceSmall: real := 8.0
  const SpaceMedium: real := 16.0
  const SpaceLarge: real := 24.0

  /** The spacing scale is strictly increasing: small < base < medium < large. */
  lemma SpacingOrdered()
    ensures 0.0 < SpaceSmall < SpaceBase < SpaceMedium < SpaceLarge
  {
  }

  // CornerRadius

  const CornerRadiusSurface: real := 28.0
  const CornerRadiusChip: real := 18.0
  const CornerRadiusControl: real := 16.0

  /** Surfaces are rounder than chips, chips rounder than controls. */
  lemma CornerRadiiOrdered()
    ensures 0.0 < CornerRadiusControl < CornerRadiusChip < CornerRadiusSurface
  {
  }
}
