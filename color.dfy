/** sRGB and linear RGBA colours and the sRGB transfer curve of
 *  IEC 61966-2-1, over reals. The power function is a parameter: the model
 *  states only what holds whatever `powf` computes, plus what follows from
 *  `1^e = 1`. */
module Color {
  datatype Srgba = Srgba(r: real, g: real, b: real, a: real)
  datatype LinearRgba = LinearRgba(r: real, g: real, b: real, a: real)

  /** `f32::powf`. */
  type Pow = (real, real) -> real

  /** `1^e = 1` for the two exponents the curves use. */
  predicate PowFixesOne(pow: Pow) {
    pow(1.0, 2.4) == 1.0 && pow(1.0, 1.0 / 2.4) == 1.0
  }

  // Both colour types default to opaque white and share three constants.
  const SRGBA_DEFAULT: Srgba := Srgba(1.0, 1.0, 1.0, 1.0)
  const SRGBA_TRANSPARENT: Srgba := Srgba(0.0, 0.0, 0.0, 0.0)
  const SRGBA_BLACK: Srgba := Srgba(0.0, 0.0, 0.0, 1.0)
  const SRGBA_WHITE: Srgba := Srgba(1.0, 1.0, 1.0, 1.0)
  const LINEAR_DEFAULT: LinearRgba := LinearRgba(1.0, 1.0, 1.0, 1.0)
  const LINEAR_TRANSPARENT: LinearRgba := LinearRgba(0.0, 0.0, 0.0, 0.0)
  const LINEAR_BLACK: LinearRgba := LinearRgba(0.0, 0.0, 0.0, 1.0)
  const LINEAR_WHITE: LinearRgba := LinearRgba(1.0, 1.0, 1.0, 1.0)

  /** sRGB-encoded value to linear: a straight segment up to 0.04045, the
   *  2.4 power above it. */
  function Gamma(x: real, pow: Pow): (r: real)
    ensures x == 0.0 ==> r == 0.0
    ensures 0.0 < x <= 0.04045 ==> 0.0 < r < x
    ensures x < 0.0 ==> x < r < 0.0
  {
    if x <= 0.04045 then x / 12.92 else pow((x + 0.055) / 1.055, 2.4)
  }

  /** Linear value to sRGB-encoded: a straight segment up to 0.0031308, the
   *  1/2.4 power above it. */
  function GammaInv(x: real, pow: Pow): (r: real)
    ensures x == 0.0 ==> r == 0.0
    ensures 0.0 < x <= 0.0031308 ==> x < r <= 0.04045
    ensures x < 0.0 ==> r < x
  {
    if x <= 0.0031308 then x * 12.92 else 1.055 * pow(x, 1.0 / 2.4) - 0.055
  }

  /** `to_linear_rgba`: the curve applied to all four channels, alpha
   *  included; a grey stays grey and a transparent colour transparent. */
  function ToLinearRgba(c: Srgba, pow: Pow): (r: LinearRgba)
    ensures c.r == c.g == c.b ==> r.r == r.g == r.b
    ensures c.a == 0.0 ==> r.a == 0.0
  {
    LinearRgba(Gamma(c.r, pow), Gamma(c.g, pow), Gamma(c.b, pow), Gamma(c.a, pow))
  }

  /** `to_srgba`: the inverse curve on all four channels; a grey stays
   *  grey and a transparent colour transparent. */
  function ToSrgba(c: LinearRgba, pow: Pow): (r: Srgba)
    ensures c.r == c.g == c.b ==> r.r == r.g == r.b
    ensures c.a == 0.0 ==> r.a == 0.0
  {
    Srgba(GammaInv(c.r, pow), GammaInv(c.g, pow), GammaInv(c.b, pow), GammaInv(c.a, pow))
  }

  /** Both curves fix 0 and 1. */
  lemma CurvesFixEnds(pow: Pow)
    requires PowFixesOne(pow)
    ensures Gamma(0.0, pow) == 0.0 && Gamma(1.0, pow) == 1.0
    ensures GammaInv(0.0, pow) == 0.0 && GammaInv(1.0, pow) == 1.0
  {
    assert (1.0 + 0.055) / 1.055 == 1.0;
  }

  /** So black, white and transparent convert to themselves both ways. */
  lemma ConstantsConvertToThemselves(pow: Pow)
    requires PowFixesOne(pow)
    ensures ToLinearRgba(SRGBA_BLACK, pow) == LINEAR_BLACK
    ensures ToLinearRgba(SRGBA_WHITE, pow) == LINEAR_WHITE
    ensures ToLinearRgba(SRGBA_TRANSPARENT, pow) == LINEAR_TRANSPARENT
    ensures ToSrgba(LINEAR_BLACK, pow) == SRGBA_BLACK
    ensures ToSrgba(LINEAR_WHITE, pow) == SRGBA_WHITE
    ensures ToSrgba(LINEAR_TRANSPARENT, pow) == SRGBA_TRANSPARENT
  {
    CurvesFixEnds(pow);
  }

  /** On the straight segments the curves undo each other. The encoded
   *  threshold 0.04045 is slightly above 12.92 · 0.0031308, so encoded
   *  values in (0.040449936, 0.04045] take the straight segment on the way
   *  in but the power segment on the way back. */
  lemma LinearSegmentsRoundTrip(x: real, y: real, pow: Pow)
    ensures x <= 0.0031308 * 12.92 ==> GammaInv(Gamma(x, pow), pow) == x
    ensures y <= 0.0031308 ==> Gamma(GammaInv(y, pow), pow) == y
    ensures 0.0031308 * 12.92 < 0.04045
  {
  }

  /** Alpha goes through the curve like the colour channels: a faint alpha
   *  is divided by 12.92, and the conversions round-trip channel by channel
   *  on the straight segment. */
  lemma AlphaIsCurvedToo(c: Srgba, pow: Pow)
    requires 0.0 < c.a <= 0.04045
    ensures ToLinearRgba(c, pow).a == c.a / 12.92 < c.a
    ensures c.a <= 0.0031308 * 12.92 ==> ToSrgba(ToLinearRgba(c, pow), pow).a == c.a
  {
    LinearSegmentsRoundTrip(c.a, 0.0, pow);
  }

  /** `Into<wgpu::Color>`: the channels in order, widened to f64. */
  datatype WgpuColor = WgpuColor(r: real, g: real, b: real, a: real)

  function SrgbaIntoWgpu(c: Srgba): (w: WgpuColor)
    ensures [w.r, w.g, w.b, w.a] == [c.r, c.g, c.b, c.a]
  {
    WgpuColor(c.r, c.g, c.b, c.a)
  }

  function LinearIntoWgpu(c: LinearRgba): (w: WgpuColor)
    ensures [w.r, w.g, w.b, w.a] == [c.r, c.g, c.b, c.a]
  {
    WgpuColor(c.r, c.g, c.b, c.a)
  }
}
