/** Colour utilities: packed-hex decoding, gamma encoding and the
    quantiser that turns a linear-light colour into three display bytes. */
module Colors {
  import opened Vec
  import opened Intervals

  /** Linear-light colour; components may exceed one before tone mapping. */
  type Color = Vec3

  /** The C++ `int` the packed colour arrives in. */
  newtype Int32 = x: int | -0x8000_0000 <= x < 0x8000_0000

  /** Bits 16..23 of a two's-complement integer: an arithmetic right shift
      is floor division by a power of two, and `& 0xFF` keeps the
      non-negative remainder modulo 256 (Dafny's `/` and `%` are Euclidean,
      which coincide with these for a positive divisor). */
  function RedByte(v: Int32): (b: int)
    ensures 0 <= b <= 255
  {
    (v as int / 0x1_0000) % 0x100
  }

  /** Bits 8..15. */
  function GreenByte(v: Int32): (b: int)
    ensures 0 <= b <= 255
  {
    (v as int / 0x100) % 0x100
  }

  /** Bits 0..7. */
  function BlueByte(v: Int32): (b: int)
    ensures 0 <= b <= 255
  {
    v as int % 0x100
  }

  /** `hexConvert`: each channel is a byte of the packed value divided by
      255, so every component lies in [0, 1]. */
  function HexConvert(v: Int32): (c: Color)
    ensures 0.0 <= c.x <= 1.0 && 0.0 <= c.y <= 1.0 && 0.0 <= c.z <= 1.0
    ensures c.x * 255.0 == RedByte(v) as real
    ensures c.y * 255.0 == GreenByte(v) as real
    ensures c.z * 255.0 == BlueByte(v) as real
  {
    Vec3(RedByte(v) as real / 255.0, GreenByte(v) as real / 255.0, BlueByte(v) as real / 255.0)
  }

  /** The packed form `0xRRGGBB` of three bytes: the inverse of the byte
      extraction `hexConvert` performs. */
  function Pack(r: int, g: int, b: int): (v: Int32)
    requires 0 <= r <= 255 && 0 <= g <= 255 && 0 <= b <= 255
    ensures 0 <= v as int < 0x100_0000
  {
    (r * 0x1_0000 + g * 0x100 + b) as Int32
  }

  /** Extracting the bytes of a packed colour gives back the bytes. */
  lemma BytesOfPack(r: int, g: int, b: int)
    requires 0 <= r <= 255 && 0 <= g <= 255 && 0 <= b <= 255
    ensures RedByte(Pack(r, g, b)) == r
    ensures GreenByte(Pack(r, g, b)) == g
    ensures BlueByte(Pack(r, g, b)) == b
  {
    var v := (r * 0x1_0000 + g * 0x100 + b);
    assert v / 0x1_0000 == r;
    assert v / 0x100 == r * 0x100 + g;
    assert (r * 0x100 + g) % 0x100 == g;
  }

  /** Packing the extracted bytes recovers the low 24 bits of the input. */
  lemma PackOfBytes(v: Int32)
    ensures Pack(RedByte(v), GreenByte(v), BlueByte(v)) as int == v as int % 0x100_0000
  {
    var n := v as int;
    var hi, lo := n / 0x100_0000, n % 0x100_0000;
    var r, m := lo / 0x1_0000, lo % 0x1_0000;
    var g, b := m / 0x100, m % 0x100;
    assert 0 <= r < 0x100 && 0 <= g < 0x100;
    assert n == (hi * 0x100 + r) * 0x1_0000 + m;
    assert n / 0x1_0000 == hi * 0x100 + r;
    assert RedByte(v) == r;
    assert n == (hi * 0x1_0000 + r * 0x100 + g) * 0x100 + b;
    assert n / 0x100 == hi * 0x1_0000 + r * 0x100 + g;
    assert GreenByte(v) == g;
    assert BlueByte(v) == b;
  }

  /** `hexConvert` of a packed colour is the bytes over 255. */
  lemma HexConvertPack(r: int, g: int, b: int)
    requires 0 <= r <= 255 && 0 <= g <= 255 && 0 <= b <= 255
    ensures HexConvert(Pack(r, g, b)) == Vec3(r as real / 255.0, g as real / 255.0, b as real / 255.0)
  {
    BytesOfPack(r, g, b);
  }

  /** Only the low 24 bits of the argument influence `hexConvert`. */
  lemma HexConvertLow24Bits(v: Int32, w: Int32)
    requires v as int % 0x100_0000 == w as int % 0x100_0000
    ensures HexConvert(v) == HexConvert(w)
  {
    PackOfBytes(v);
    PackOfBytes(w);
    BytesOfPack(RedByte(v), GreenByte(v), BlueByte(v));
    BytesOfPack(RedByte(w), GreenByte(w), BlueByte(w));
  }

  lemma HexConvertExamples()
    ensures HexConvert(0xFFFFFF) == Vec3(1.0, 1.0, 1.0)
    ensures HexConvert(0x000000) == Vec3(0.0, 0.0, 0.0)
    ensures HexConvert(0xFF0000) == Vec3(1.0, 0.0, 0.0)
  {
    assert RedByte(0xFFFFFF) == 255 && GreenByte(0xFFFFFF) == 255 && BlueByte(0xFFFFFF) == 255;
    assert RedByte(0xFF0000) == 255 && GreenByte(0xFF0000) == 0 && BlueByte(0xFF0000) == 0;
  }

  // The named palette of the terrain scene.
  const White: Color := HexConvert(0xFFFFFF)
  const Blue: Color := HexConvert(0x7FB2FF)
  const Red: Color := HexConvert(0xFF0000)
  const Green: Color := HexConvert(0x00FF00)
  const Black: Color := HexConvert(0x000000)
  const SkyBlue: Color := HexConvert(0xB3CCFF)
  const DarkBrown: Color := HexConvert(0x522E0E)
  const OrangeBrown: Color := HexConvert(0xC75B12)
  const GoldenBrown: Color := HexConvert(0xC27D0E)
  const BlueGray: Color := HexConvert(0x375a66)
  const DarkPurple: Color := HexConvert(0x16062E)
  const SkyOrange: Color := HexConvert(0x993800)
  const Violet: Color := HexConvert(0x6205E6)
  const Yellow: Color := HexConvert(0xFFB700)
  const BurntYellow: Color := HexConvert(0xAD7D02)
  const DarkRed: Color := HexConvert(0x660000)
  const Salmon: Color := HexConvert(0xFF6054)

  /** The four terrain colours decode to their bytes over 255. */
  lemma TerrainPaletteValues()
    ensures DarkBrown == Vec3(82.0 / 255.0, 46.0 / 255.0, 14.0 / 255.0)
    ensures OrangeBrown == Vec3(199.0 / 255.0, 91.0 / 255.0, 18.0 / 255.0)
    ensures GoldenBrown == Vec3(194.0 / 255.0, 125.0 / 255.0, 14.0 / 255.0)
    ensures Yellow == Vec3(1.0, 183.0 / 255.0, 0.0)
  {
    HexConvertPack(82, 46, 14);
    HexConvertPack(199, 91, 18);
    HexConvertPack(194, 125, 14);
    HexConvertPack(255, 183, 0);
  }

  /** `linear_to_gamma`: the square root of a positive channel, zero for
      every channel that is zero or negative. */
  function LinearToGamma(c: real, sqrt: real -> real): (g: real)
    requires IsSqrt(sqrt)
    ensures c <= 0.0 ==> g == 0.0
    ensures c > 0.0 ==> g > 0.0 && Sq(g) == c
  {
    if c > 0.0 then
      assert Sq(sqrt(c)) == c;
      assert sqrt(c) != 0.0;
      sqrt(c)
    else 0.0
  }

  /** Gamma encoding never reverses the order of two channels. */
  lemma LinearToGammaMonotone(a: real, b: real, sqrt: real -> real)
    requires IsSqrt(sqrt)
    requires a <= b
    ensures LinearToGamma(a, sqrt) <= LinearToGamma(b, sqrt)
  {
    var ga, gb := LinearToGamma(a, sqrt), LinearToGamma(b, sqrt);
    if a > 0.0 && ga > gb {
      SqStrictlyMonotone(ga, gb);
    }
  }

  lemma LinearToGammaOfOne(sqrt: real -> real)
    requires IsSqrt(sqrt)
    ensures LinearToGamma(1.0, sqrt) == 1.0
  {
    var g := LinearToGamma(1.0, sqrt);
    if g < 1.0 {
      SqStrictlyMonotone(1.0, g);
    } else if g > 1.0 {
      SqStrictlyMonotone(g, 1.0);
    }
  }

  /** The interval `write_color` clamps every gamma-encoded channel into. */
  const Intensity: Interval := Interval(0.0, 0.999)

  /** `int(255.99 * clamp(g))`: the clamped value is non-negative, so the
      truncating conversion is the floor. */
  function Quantize(g: real): (b: int)
    ensures 0 <= b <= 255
  {
    var clamped := Clamp(Intensity, g);
    assert 0.0 <= clamped <= 0.999;
    (255.99 * clamped).Floor
  }

  /** Channels at or above the top of the clamp interval give 255. */
  lemma QuantizeSaturates(g: real)
    requires g >= 0.999
    ensures Quantize(g) == 255
  {
    assert Clamp(Intensity, g) == 0.999;
    assert 255.99 * 0.999 == 255.73401;
  }

  /** Channels at or below zero give 0. */
  lemma QuantizeOfNonPositive(g: real)
    requires g <= 0.0
    ensures Quantize(g) == 0
  {
  }

  /** Every byte value is produced by some channel: `k / 255.99` maps to `k`. */
  lemma QuantizeReachesEveryByte(k: int)
    requires 0 <= k <= 255
    ensures Quantize(k as real / 255.99) == k
  {
    assert k as real / 255.99 <= 0.999;
    assert 255.99 * (k as real / 255.99) == k as real;
  }

  lemma QuantizeMonotone(g: real, h: real)
    requires g <= h
    ensures Quantize(g) <= Quantize(h)
  {
    ClampMonotone(Intensity, g, h);
  }

  /** The byte `write_color` prints for one linear-light channel. */
  function ChannelByte(c: real, sqrt: real -> real): (b: int)
    requires IsSqrt(sqrt)
    ensures 0 <= b <= 255
    ensures c <= 0.0 ==> b == 0
  {
    Quantize(LinearToGamma(c, sqrt))
  }

  /** A brighter linear channel never prints a smaller byte. */
  lemma ChannelByteMonotone(a: real, b: real, sqrt: real -> real)
    requires IsSqrt(sqrt)
    requires a <= b
    ensures ChannelByte(a, sqrt) <= ChannelByte(b, sqrt)
  {
    LinearToGammaMonotone(a, b, sqrt);
    QuantizeMonotone(LinearToGamma(a, sqrt), LinearToGamma(b, sqrt));
  }

  /** A channel whose gamma-encoded value reaches the clamp ceiling prints 255. */
  lemma ChannelByteSaturates(c: real, sqrt: real -> real)
    requires IsSqrt(sqrt)
    requires c >= 1.0
    ensures ChannelByte(c, sqrt) == 255
  {
    LinearToGammaOfOne(sqrt);
    LinearToGammaMonotone(1.0, c, sqrt);
    QuantizeSaturates(LinearToGamma(c, sqrt));
  }

  /** The three integers one pixel contributes to the image body. */
  datatype Pixel = Pixel(r: int, g: int, b: int)

  /** `write_color` without the stream: gamma-encode, clamp and quantise
      each channel independently. */
  function WriteColor(c: Color, sqrt: real -> real): (p: Pixel)
    requires IsSqrt(sqrt)
    ensures 0 <= p.r <= 255 && 0 <= p.g <= 255 && 0 <= p.b <= 255
    ensures p.r == ChannelByte(c.x, sqrt) && p.g == ChannelByte(c.y, sqrt) && p.b == ChannelByte(c.z, sqrt)
  {
    Pixel(ChannelByte(c.x, sqrt), ChannelByte(c.y, sqrt), ChannelByte(c.z, sqrt))
  }

  /** White light prints as (255, 255, 255) and black as (0, 0, 0). */
  lemma WriteColorExtremes(sqrt: real -> real)
    requires IsSqrt(sqrt)
    ensures WriteColor(Vec3(1.0, 1.0, 1.0), sqrt) == Pixel(255, 255, 255)
    ensures WriteColor(Vec3(0.0, 0.0, 0.0), sqrt) == Pixel(0, 0, 0)
  {
    ChannelByteSaturates(1.0, sqrt);
  }
}
