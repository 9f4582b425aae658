/** The bloom post-processing node: its configuration, the mip pyramid it
 *  builds, the soft-threshold filter it uploads, the blend factor of each
 *  upsampling step and the order of its render passes.
 *
 *  Floats are reals and `powf` is a parameter; the blend factor alone
 *  carries the infinities and not-a-number its divisions produce. Pipelines, samplers, bind
 *  groups and the GPU work of a pass are not modelled: a pass is the
 *  pipeline it runs, the view it samples, the view it renders to, how it
 *  loads that view and the blend constant it sets. */
module Bloom {
  import opened Common
  import opened Buffers
  import SD = ShaderDef
  import opened Color

  // ---------------------------------------------------------------------
  // Configuration.

  datatype BloomNodeConfig = BloomNodeConfig(maxMipDimension: nat, intensity: real, scatter: real,
                                             eliminateFirefly: bool, threshold: real, softThreshold: real)

  /** `BloomNodeConfig::default()`. */
  const DEFAULT_BLOOM_CONFIG: BloomNodeConfig := BloomNodeConfig(512, 1.0, 0.8, true, 0.8, 0.9)

  const U32_MAX: nat := 0xFFFF_FFFF

  /** naga_oil's `ShaderDefValue::default()`. */
  const DEFAULT_DEF_VALUE: SD.ShaderDefValue := SD.Bool(true)

  /** `require_shader_defs`: a positive threshold turns on the soft
   *  threshold; nothing else is touched. */
  function RequireShaderDefs(c: BloomNodeConfig, defs: map<string, SD.ShaderDefValue>)
    : (r: map<string, SD.ShaderDefValue>)
    ensures ("SOFT_THRESHOLD" in r) <==> (c.threshold > 0.0 || "SOFT_THRESHOLD" in defs)
    ensures c.threshold > 0.0 ==> r["SOFT_THRESHOLD"] == DEFAULT_DEF_VALUE
    ensures c.threshold <= 0.0 ==> r == defs
    ensures r.Keys >= defs.Keys
    ensures forall k :: k in defs && k != "SOFT_THRESHOLD" ==> r[k] == defs[k]
  {
    if c.threshold > 0.0 then defs["SOFT_THRESHOLD" := DEFAULT_DEF_VALUE] else defs
  }

  /** `require_local_shader_defs`: nothing for the first shader; for the
   *  second, `FIRST_DOWNSAMPLE` exactly when fireflies are eliminated. */
  function LocalShaderDefs(c: BloomNodeConfig): (r: seq<Option<seq<(string, SD.ShaderDefValue)>>>)
    ensures |r| == 2 && r[0].None?
    ensures r[1].Some? <==> c.eliminateFirefly
    ensures r[1].Some? ==> r[1].value == [("FIRST_DOWNSAMPLE", DEFAULT_DEF_VALUE)]
  {
    [None, if c.eliminateFirefly then Some([("FIRST_DOWNSAMPLE", DEFAULT_DEF_VALUE)]) else None]
  }

  /** The default configuration asks for the soft threshold and for the
   *  firefly-eliminating first downsample. */
  lemma DefaultDefines(defs: map<string, SD.ShaderDefValue>)
    ensures "SOFT_THRESHOLD" in RequireShaderDefs(DEFAULT_BLOOM_CONFIG, defs)
    ensures LocalShaderDefs(DEFAULT_BLOOM_CONFIG)[1] == Some([("FIRST_DOWNSAMPLE", DEFAULT_DEF_VALUE)])
  {
  }

  // ---------------------------------------------------------------------
  // The mip pyramid.

  function Pow2(k: nat): (p: nat)
    ensures p >= 1
  {
    if k == 0 then 1 else 2 * Pow2(k - 1)
  }

  lemma {:induction false} Pow2Monotone(j: nat, k: nat)
    requires j <= k
    ensures Pow2(j) <= Pow2(k)
  {
    if j < k {
      Pow2Monotone(j, k - 1);
    }
  }

  /** `u32::ilog2` of a positive number: the exponent of its highest set
   *  bit. */
  function ILog2(d: nat): (k: nat)
    requires d >= 1
    ensures Pow2(k) <= d < Pow2(k + 1)
  {
    if d < 2 then 0 else 1 + ILog2(d / 2)
  }

  /** Powers of two are ordered as their exponents. */
  lemma Pow2Below(j: nat, k: nat)
    requires Pow2(j) < Pow2(k)
    ensures j < k
  {
    if j >= k {
      Pow2Monotone(k, j);
    }
  }

  lemma Pow2At32()
    ensures Pow2(32) == U32_MAX + 1
  {
    assert Pow2(10) == 1024;
    assert Pow2(20) == 1048576;
    assert Pow2(30) == 1073741824;
  }

  /** The exponent is the only one whose power brackets `d`. */
  lemma ILog2Unique(d: nat, k: nat)
    requires d >= 1 && Pow2(k) <= d < Pow2(k + 1)
    ensures ILog2(d) == k
  {
    var l := ILog2(d);
    Pow2Below(l, k + 1);
    Pow2Below(k, l + 1);
  }

  /** `max_mip_dimension.ilog2().max(2) - 1`; `ilog2` panics on 0. Below 8
   *  the pyramid has one level; from 4 on, `n` levels cover
   *  `[2^(n+1), 2^(n+2))`. */
  function MipCount(d: nat): (r: Result<nat, Panic>)
    ensures r.Err? <==> d == 0
    ensures r.Err? ==> r.error == ExplicitPanic
    ensures r.Ok? ==> r.value >= 1
    ensures 1 <= d < 8 ==> r == Ok(1)
    ensures d >= 4 ==> r.Ok? && Pow2(r.value + 1) <= d < Pow2(r.value + 2)
  {
    if d == 0 then Err(ExplicitPanic)
    else
      var l := ILog2(d);
      ILog2Bounds(d);
      Ok((if l < 2 then 2 else l) - 1)
  }

  /** From 4 on the exponent is at least 2, below 8 at most 2. */
  lemma ILog2Bounds(d: nat)
    requires d >= 1
    ensures d >= 4 ==> ILog2(d) >= 2
    ensures d < 8 ==> ILog2(d) <= 2
  {
    var l := ILog2(d);
    Pow2Small();
    if l < 2 {
      Pow2Monotone(l + 1, 2);
    }
    if l > 2 {
      Pow2Monotone(3, l);
    }
  }

  lemma Pow2Small()
    ensures Pow2(2) == 4 && Pow2(3) == 8
  {
  }

  /** A `u32` dimension gives at most 30 levels. */
  lemma MipCountBounded(d: nat)
    requires 1 <= d <= U32_MAX
    ensures MipCount(d).Ok? && MipCount(d).value <= 30
  {
    if d >= 4 {
      Pow2At32();
      Pow2Below(MipCount(d).value + 1, 32);
    }
  }

  /** The default 512 gives eight levels. */
  lemma DefaultMipCount()
    ensures MipCount(DEFAULT_BLOOM_CONFIG.maxMipDimension) == Ok(8)
  {
    assert Pow2(9) == 512 && Pow2(10) == 1024;
    ILog2Unique(512, 9);
  }

  /** `f32::round` (half away from zero) of a non-negative value, then the
   *  saturating `as u32`. */
  function RoundToU32(x: real): (n: nat)
    requires x >= 0.0
    ensures n <= U32_MAX
    ensures (x + 0.5).Floor <= U32_MAX ==> -0.5 <= x - n as real < 0.5
    ensures (x + 0.5).Floor > U32_MAX ==> n == U32_MAX
  {
    var k := (x + 0.5).Floor;
    if k > U32_MAX then U32_MAX else k
  }

  lemma RoundMonotone(x: real, y: real)
    requires 0.0 <= x <= y
    ensures RoundToU32(x) <= RoundToU32(y)
  {
    assert (x + 0.5).Floor <= (y + 0.5).Floor;
  }

  /** A whole number in range rounds to itself. */
  lemma RoundWhole(m: nat)
    requires m <= U32_MAX
    ensures RoundToU32(m as real) == m
  {
    assert (m as real + 0.5).Floor == m;
  }

  function MinNat(a: nat, b: nat): nat {
    if a <= b then a else b
  }

  /** The pyramid's base size for a target of `w` by `h`: both sides
   *  scaled by `d / min(w, h)` and rounded. A zero side makes the scale
   *  infinite: that side becomes not-a-number (0 as `u32`), a non-zero
   *  one infinity (`u32::MAX`). `build` reaches this only once `ilog2(d)`
   *  has succeeded. */
  function PyramidSize(w: nat, h: nat, d: nat): (r: (nat, nat))
    requires d >= 1
    ensures r.0 <= U32_MAX && r.1 <= U32_MAX
    ensures MinNat(w, h) == 0 ==> r == (if w == 0 then 0 else U32_MAX, if h == 0 then 0 else U32_MAX)
  {
    if MinNat(w, h) == 0 then (if w == 0 then 0 else U32_MAX, if h == 0 then 0 else U32_MAX)
    else (Scaled(w, MinNat(w, h), d), Scaled(h, MinNat(w, h), d))
  }

  /** One side times `d / short`, rounded. */
  function Scaled(side: nat, short: nat, d: nat): nat
    requires short > 0
  {
    RoundToU32(side as real * (d as real / short as real))
  }

  /** The shorter side of the target becomes exactly `d` and the longer
   *  one at least `d`, so the pyramid keeps the target's orientation. */
  lemma PyramidShape(w: nat, h: nat, d: nat)
    requires w > 0 && h > 0 && 1 <= d <= U32_MAX
    ensures var r := PyramidSize(w, h, d);
      && (w <= h ==> r.0 == d && r.1 >= d)
      && (h <= w ==> r.1 == d && r.0 >= d)
  {
    if w <= h {
      ScaledSides(w, h, d);
    } else {
      assert MinNat(w, h) == h;
      ScaledSides(h, w, d);
    }
  }

  /** Scaled by `d / short`, the short side rounds to `d` and the long one
   *  to at least `d`. */
  lemma ScaledSides(short: nat, long: nat, d: nat)
    requires 0 < short <= long && 1 <= d <= U32_MAX
    ensures Scaled(short, short, d) == d
    ensures Scaled(long, short, d) >= d
  {
    ScaledWhole(short, d);
    ScaledMonotone(short, long, short, d);
  }

  lemma ScaledWhole(short: nat, d: nat)
    requires short > 0 && d <= U32_MAX
    ensures Scaled(short, short, d) == d
  {
    DivCancel(d as real, short as real);
    RoundWhole(d);
  }

  lemma ScaledMonotone(a: nat, b: nat, short: nat, d: nat)
    requires a <= b && short > 0
    ensures Scaled(a, short, d) <= Scaled(b, short, d)
  {
    var s := d as real / short as real;
    DivNonNegative(d as real, short as real);
    RoundScaledMonotone(a as real, b as real, s);
    assert Scaled(a, short, d) == RoundToU32(a as real * s);
    assert Scaled(b, short, d) == RoundToU32(b as real * s);
  }

  lemma RoundScaledMonotone(x: real, y: real, s: real)
    requires 0.0 <= x <= y && s >= 0.0
    ensures RoundToU32(x * s) <= RoundToU32(y * s)
  {
    MulSigns(x, s);
    MulSigns(y - x, s);
    assert y * s - x * s == (y - x) * s;
    RoundMonotone(x * s, y * s);
  }

  /** A 1920 by 1080 target with the default dimension. */
  lemma DefaultPyramidFullHd()
    ensures PyramidSize(1920, 1080, DEFAULT_BLOOM_CONFIG.maxMipDimension) == (910, 512)
  {
    var s := 512.0 / 1080.0;
    assert (1920.0 * s + 0.5).Floor == 910;
    assert (1080.0 * s + 0.5).Floor == 512;
  }

  // ---------------------------------------------------------------------
  // The soft-threshold filter.

  /** `precomputed_filter`: with `knee = soft_threshold * threshold`,
   *  the threshold, the start of the knee, the knee's width and the
   *  quarter reciprocal of the knee plus 0.00001. `None` is the filter
   *  whose last component is infinite (a zero divisor). */
  function PrecomputedFilter(c: BloomNodeConfig): (r: Option<Vec4>)
    ensures r.None? <==> c.softThreshold * c.threshold == -0.00001
    ensures r.Some? ==> r.value.x == c.threshold
    ensures r.Some? ==> r.value.y + r.value.z / 2.0 == r.value.x
    ensures r.Some? ==> r.value.w * (r.value.z / 2.0 + 0.00001) == 0.25
    ensures r.Some? && c.softThreshold >= 0.0 && c.threshold >= 0.0 ==> r.value.z >= 0.0 && r.value.w > 0.0
  {
    var knee := c.softThreshold * c.threshold;
    if knee + 0.00001 == 0.0 then None
    else Some(Vec4(c.threshold, c.threshold - knee, 2.0 * knee, 0.25 / (knee + 0.00001)))
  }

  /** The default filter starts its knee at 0.08 and is 1.44 wide. */
  lemma DefaultFilter()
    ensures var f := PrecomputedFilter(DEFAULT_BLOOM_CONFIG);
      f.Some? && f.value.x == 0.8 && f.value.y == 0.08 && f.value.z == 1.44
  {
  }

  // ---------------------------------------------------------------------
  // Blend factors.

  function Abs(x: real): real {
    if x < 0.0 then -x else x
  }

  /** `clamp(0.0, 1.0)` of a number. */
  function Clamp01(x: real): (r: real)
    ensures 0.0 <= r <= 1.0
    ensures 0.0 <= x <= 1.0 ==> r == x
    ensures x < 0.0 ==> r == 0.0
    ensures x > 1.0 ==> r == 1.0
  {
    if x < 0.0 then 0.0 else if x > 1.0 then 1.0 else x
  }

  /** The base raised to `scatter`: `1 - |-(mip - max_mip / 2) / max_mip|`. */
  function BlendBase(mip: nat, maxMip: real): real
    requires maxMip != 0.0
  {
    1.0 - Abs(-(mip as real - maxMip / 2.0) / maxMip)
  }

  /** On the pyramid's levels the base runs from 1/2 at both ends to 1 in
   *  the middle, and mirrored levels share it. */
  lemma BlendBaseRange(mip: nat, n: nat)
    requires n >= 2 && mip < n
    ensures 0.5 <= BlendBase(mip, n as real - 1.0) <= 1.0
    ensures BlendBase(mip, n as real - 1.0) == BlendBase(n - 1 - mip, n as real - 1.0)
  {
    var m := n as real - 1.0;
    CentredOffset(mip as real, m);
    CentredOffset((n - 1 - mip) as real, m);
    DivSub(m, mip as real, m);
    DivCancel(1.0, m);
    DivBounded(mip as real, m);
  }

  // Real-arithmetic steps the solver does not take on its own.

  lemma DivCancel(x: real, y: real)
    requires y != 0.0
    ensures y * (x / y) == x
  {
  }

  lemma DivSub(a: real, b: real, m: real)
    requires m != 0.0
    ensures (a - b) / m == a / m - b / m
  {
  }

  lemma DivBounded(a: real, m: real)
    requires 0.0 <= a <= m && m > 0.0
    ensures 0.0 <= a / m <= 1.0
  {
  }

  lemma DivAbove(a: real, m: real, k: real)
    requires m > 0.0 && a > k * m
    ensures a / m > k
  {
    DivCancel(a, m);
  }

  lemma DivNonNegative(a: real, m: real)
    requires a >= 0.0 && m > 0.0
    ensures a / m >= 0.0
  {
  }

  lemma CentredOffset(x: real, m: real)
    requires m != 0.0
    ensures -(x - m / 2.0) / m == 0.5 - x / m
  {
    DivSub(x, m / 2.0, m);
    assert m / 2.0 == 0.5 * m;
    assert -(x - m / 2.0) / m == -((x - m / 2.0) / m);
  }

  lemma MulSigns(x: real, k: real)
    requires k >= 0.0
    ensures x <= 0.0 ==> x * k <= 0.0
    ensures x >= 0.0 ==> x * k >= 0.0
  {
  }

  /** An f32 value as far as the blend factor needs it: a finite number, an
   *  infinity or not-a-number. */
  datatype Float = Fin(x: real) | PosInf | NegInf | NaN

  /** Division by `max_mip`: a zero divisor gives an infinity of the
   *  dividend's sign, or not-a-number for 0 / 0. */
  function DivBy(t: real, m: real): (q: Float)
    ensures m != 0.0 ==> q == Fin(t / m)
    ensures m == 0.0 ==> (q.NaN? <==> t == 0.0) && (q.PosInf? <==> t > 0.0) && (q.NegInf? <==> t < 0.0)
  {
    if m != 0.0 then Fin(t / m)
    else if t == 0.0 then NaN
    else if t > 0.0 then PosInf
    else NegInf
  }

  /** `1.0 - q.abs()`. */
  function OneMinusAbs(q: Float): Float {
    match q
    case Fin(x) => Fin(1.0 - Abs(x))
    case NaN => NaN
    case _ => NegInf
  }

  predicate IsInteger(s: real) {
    s.Floor as real == s
  }

  predicate IsOddInteger(s: real) {
    IsInteger(s) && s.Floor % 2 == 1
  }

  /** `f32::powf` with the special cases IEEE 754 fixes spelled out; the
   *  power of a positive finite base is the parameter `powf`. Any base to
   *  the power 0 is 1, not-a-number included. */
  function PowF(base: Float, s: real, powf: (real, real) -> real): (p: Float)
    ensures s == 0.0 ==> p == Fin(1.0)
    ensures s != 0.0 && base.NaN? ==> p.NaN?
    ensures (base.Fin? && base.x < 0.0 && s != 0.0 && !IsInteger(s)) ==> p.NaN?
    ensures p.NaN? ==> s != 0.0 && (base.NaN? || (base.Fin? && base.x < 0.0 && !IsInteger(s)))
  {
    if s == 0.0 then Fin(1.0)
    else match base
      case NaN => NaN
      case PosInf => if s > 0.0 then PosInf else Fin(0.0)
      case NegInf =>
        if s < 0.0 then Fin(0.0)
        else if IsOddInteger(s) then NegInf
        else PosInf
      case Fin(x) =>
        if x < 0.0 && !IsInteger(s) then NaN
        else if x == 0.0 then (if s > 0.0 then Fin(0.0) else PosInf)
        else Fin(powf(x, s))
  }

  /** The power of a positive base: 1 for a zero exponent, `powf`
   *  otherwise. */
  function PowOrOne(x: real, s: real, powf: (real, real) -> real): real {
    if s == 0.0 then 1.0 else powf(x, s)
  }

  /** `factor *= intensity`: an infinity times 0 is not-a-number. */
  function MulBy(p: Float, k: real): (r: Float)
    ensures r.NaN? <==> p.NaN? || ((p.PosInf? || p.NegInf?) && k == 0.0)
  {
    match p
    case Fin(x) => Fin(x * k)
    case NaN => NaN
    case PosInf => if k > 0.0 then PosInf else if k < 0.0 then NegInf else NaN
    case NegInf => if k > 0.0 then NegInf else if k < 0.0 then PosInf else NaN
  }

  /** A blend constant: four equal channels, or not-a-number (`clamp`
   *  keeps a not-a-number). */
  datatype BlendConstant = Constant(color: WgpuColor) | NotANumber

  /** `factor.clamp(0.0, 1.0)` widened into all four channels. */
  function ClampedConstant(f: Float): (b: BlendConstant)
    ensures b.NotANumber? <==> f.NaN?
    ensures b.Constant? ==> b.color.g == b.color.r && b.color.b == b.color.r && b.color.a == b.color.r
    ensures b.Constant? ==> 0.0 <= b.color.r <= 1.0
  {
    match f
    case NaN => NotANumber
    case PosInf => Constant(WgpuColor(1.0, 1.0, 1.0, 1.0))
    case NegInf => Constant(WgpuColor(0.0, 0.0, 0.0, 0.0))
    case Fin(x) => var k := Clamp01(x); Constant(WgpuColor(k, k, k, k))
  }

  /** `calculate_blend_factor(mip)` for a pyramid of `viewCount` levels, for
   *  any `mip`: the levels a pyramid has, and the ones past its top, which
   *  the public method accepts as well. */
  function BlendFactor(c: BloomNodeConfig, viewCount: nat, mip: nat, powf: (real, real) -> real): (b: BlendConstant)
    ensures b.Constant? ==> b.color.g == b.color.r && b.color.b == b.color.r && b.color.a == b.color.r
    ensures b.Constant? ==> 0.0 <= b.color.r <= 1.0
    // On the pyramid's levels a one-level pyramid divides 0 by 0, and only
    // a zero scatter turns that back into a number.
    ensures mip < viewCount ==> (b.NotANumber? <==> viewCount == 1 && c.scatter != 0.0)
    ensures viewCount == 1 && mip == 0 && c.scatter == 0.0 ==>
      b == Constant(WgpuColor(Clamp01(c.intensity), Clamp01(c.intensity), Clamp01(c.intensity), Clamp01(c.intensity)))
    ensures viewCount >= 2 && mip < viewCount ==>
      b == Constant(WgpuColor(
        Clamp01(PowOrOne(BlendBase(mip, viewCount as real - 1.0), c.scatter, powf) * c.intensity),
        Clamp01(PowOrOne(BlendBase(mip, viewCount as real - 1.0), c.scatter, powf) * c.intensity),
        Clamp01(PowOrOne(BlendBase(mip, viewCount as real - 1.0), c.scatter, powf) * c.intensity),
        Clamp01(PowOrOne(BlendBase(mip, viewCount as real - 1.0), c.scatter, powf) * c.intensity)))
    // Past a one-level pyramid's only level the base is minus infinity:
    // not-a-number only through infinity times a zero intensity, otherwise
    // 0 or 1 unless the scatter is 0.
    ensures viewCount == 1 && mip >= 1 ==> (b.NotANumber? <==> c.scatter > 0.0 && c.intensity == 0.0)
    ensures viewCount == 1 && mip >= 1 && c.scatter != 0.0 && b.Constant? ==> b.color.r == 0.0 || b.color.r == 1.0
    // Far enough past a larger pyramid's top the base is negative, and a
    // non-integer scatter gives not-a-number.
    ensures viewCount >= 2 && 2 * mip > 3 * (viewCount - 1) && !IsInteger(c.scatter) ==> b.NotANumber?
  {
    var maxMip := viewCount as real - 1.0;
    var q := DivBy(-(mip as real - maxMip / 2.0), maxMip);
    BlendBaseSign(mip, viewCount);
    var p := PowF(OneMinusAbs(q), c.scatter, powf);
    ClampedConstant(MulBy(p, c.intensity))
  }

  /** On a pyramid of two or more levels the base is at least 1/2 on its
   *  levels and negative half as far again past its top. */
  lemma BlendBaseSign(mip: nat, n: nat)
    ensures n >= 2 && mip < n ==> BlendBase(mip, n as real - 1.0) >= 0.5
    ensures n >= 2 && 2 * mip > 3 * (n - 1) ==> BlendBase(mip, n as real - 1.0) < 0.0
  {
    if n >= 2 {
      var m := n as real - 1.0;
      if mip < n {
        BlendBaseRange(mip, n);
      }
      CentredOffset(mip as real, m);
      if 2 * mip > 3 * (n - 1) {
        assert mip as real > 1.5 * m;
        DivAbove(mip as real, m, 1.5);
      }
    }
  }

  /** Mirrored levels blend alike: the first upsample (from the top level)
   *  and the final pass (from level 0) use the same factor. */
  lemma BlendFactorSymmetric(c: BloomNodeConfig, n: nat, mip: nat, powf: (real, real) -> real)
    requires mip < n
    ensures BlendFactor(c, n, mip, powf) == BlendFactor(c, n, n - 1 - mip, powf)
  {
    if n >= 2 {
      BlendBaseRange(mip, n);
    }
  }

  /** With `1^scatter = 1` and unit intensity, a middle level (one exists
   *  when the top index is even) blends fully. */
  lemma MiddleLevelBlendsFully(c: BloomNodeConfig, n: nat, powf: (real, real) -> real)
    requires n >= 3 && (n - 1) % 2 == 0
    requires powf(1.0, c.scatter) == 1.0 && c.intensity == 1.0
    ensures BlendFactor(c, n, (n - 1) / 2, powf) == Constant(WgpuColor(1.0, 1.0, 1.0, 1.0))
  {
    var m := n as real - 1.0;
    assert ((n - 1) / 2) as real == m / 2.0;
    assert BlendBase((n - 1) / 2, m) == 1.0;
  }

  // ---------------------------------------------------------------------
  // Pipelines and passes.

  datatype Pipeline = FirstDownsampling | Downsampling | Upsampling | FinalUpsampling

  /** Where a pipeline renders: the pyramid's `Rg11b10Float` or the
   *  frame's own colour format. */
  datatype TargetFormat = BloomFormat | FrameFormat

  /** What the four pipelines are built from: the fragment shader (index
   *  into the node's shaders) and its entry point, the colour target, and
   *  whether the target blends with the constant (colour: source times
   *  the constant plus destination times one minus it; alpha: the
   *  destination's). */
  datatype PipelineDesc = PipelineDesc(fragmentShader: nat, entryPoint: string, format: TargetFormat, constantBlend: bool)

  function Describe(p: Pipeline): (d: PipelineDesc)
    ensures d.entryPoint == (if p.FirstDownsampling? || p.Downsampling? then "downsample" else "upsample")
    ensures d.fragmentShader == (if p.FirstDownsampling? || p.Downsampling? then 1 else 2)
    ensures d.constantBlend <==> p == FinalUpsampling
    ensures d.format == FrameFormat <==> p == FinalUpsampling
  {
    match p
    case FirstDownsampling => PipelineDesc(1, "downsample", BloomFormat, false)
    case Downsampling => PipelineDesc(1, "downsample", BloomFormat, false)
    case Upsampling => PipelineDesc(2, "upsample", BloomFormat, false)
    case FinalUpsampling => PipelineDesc(2, "upsample", FrameFormat, true)
  }

  /** The final pipeline's blend of a fragment `src` onto `dst` with
   *  constant `k`. */
  function ConstantBlend(src: Vec4, dst: Vec4, k: real): Vec4 {
    Vec4(src.x * k + dst.x * (1.0 - k), src.y * k + dst.y * (1.0 - k), src.z * k + dst.z * (1.0 - k), dst.w)
  }

  function MinR(a: real, b: real): real { if a <= b then a else b }
  function MaxR(a: real, b: real): real { if a <= b then b else a }

  /** With a constant in [0, 1] every colour channel lands between the
   *  bloom's and the frame's, and the frame keeps its alpha. */
  lemma ConstantBlendBetween(src: Vec4, dst: Vec4, k: real)
    requires 0.0 <= k <= 1.0
    ensures var o := ConstantBlend(src, dst, k);
      && MinR(src.x, dst.x) <= o.x <= MaxR(src.x, dst.x)
      && MinR(src.y, dst.y) <= o.y <= MaxR(src.y, dst.y)
      && MinR(src.z, dst.z) <= o.z <= MaxR(src.z, dst.z)
      && o.w == dst.w
  {
    BetweenChannel(src.x, dst.x, k);
    BetweenChannel(src.y, dst.y, k);
    BetweenChannel(src.z, dst.z, k);
  }

  lemma BetweenChannel(s: real, t: real, k: real)
    requires 0.0 <= k <= 1.0
    ensures MinR(s, t) <= s * k + t * (1.0 - k) <= MaxR(s, t)
  {
    var o := s * k + t * (1.0 - k);
    assert o - t == (s - t) * k;
    assert o - s == (t - s) * (1.0 - k);
    MulSigns(s - t, k);
    MulSigns(t - s, 1.0 - k);
  }

  /** The frame's current view or one level of the pyramid. */
  datatype View = SwapChainView | MipView(mip: nat)

  /** `Operations::default()` clears to transparent black; the final pass
   *  loads what the frame holds. */
  datatype LoadOp = ClearToZero | LoadExisting

  datatype BloomPass = BloomPass(pipeline: Pipeline, source: View, target: View, load: LoadOp, blend: Option<BlendConstant>)

  const FIRST_DOWNSAMPLE_PASS: BloomPass := BloomPass(FirstDownsampling, SwapChainView, MipView(0), ClearToZero, None)

  /** A downsample goes one level up the pyramid (to the next smaller
   *  level), clearing its target and setting no blend constant. */
  function DownsamplePass(mip: nat): (r: BloomPass)
    requires mip >= 1
    ensures r.source.MipView? && r.target.MipView? && r.target.mip == r.source.mip + 1
    ensures r.load == ClearToZero && r.blend.None?
  {
    BloomPass(Downsampling, MipView(mip - 1), MipView(mip), ClearToZero, None)
  }

  /** An upsample goes one level back down, blended by the factor of the
   *  level it samples. */
  function UpsamplePass(c: BloomNodeConfig, n: nat, mip: nat, powf: (real, real) -> real): (r: BloomPass)
    requires mip >= 1
    ensures r.source.MipView? && r.target.MipView? && r.source.mip == r.target.mip + 1
    ensures r.load == ClearToZero && r.blend == Some(BlendFactor(c, n, r.source.mip, powf))
  {
    BloomPass(Upsampling, MipView(mip), MipView(mip - 1), ClearToZero, Some(BlendFactor(c, n, mip, powf)))
  }

  /** The final upsample adds the base level onto the frame, keeping what
   *  the frame holds. */
  function FinalPass(c: BloomNodeConfig, n: nat, powf: (real, real) -> real): (r: BloomPass)
    ensures r.source == MipView(0) && r.target == SwapChainView && r.load == LoadExisting
    ensures r.blend == Some(BlendFactor(c, n, 0, powf))
  {
    BloomPass(FinalUpsampling, MipView(0), SwapChainView, LoadExisting, Some(BlendFactor(c, n, 0, powf)))
  }

  /** The first `k` downsamples after the first: level `i` into `i + 1`. */
  function Downsamples(k: nat): seq<BloomPass> {
    seq(k, i requires 0 <= i < k => DownsamplePass(i + 1))
  }

  /** The first `k` upsamples of an `n`-level pyramid, from the top down. */
  function Upsamples(c: BloomNodeConfig, n: nat, k: nat, powf: (real, real) -> real): seq<BloomPass>
    requires k < n
  {
    seq(k, i requires 0 <= i < k => UpsamplePass(c, n, n - 1 - i, powf))
  }

  /** Every pass of `draw` for an `n`-level pyramid, in submission order. */
  function Schedule(c: BloomNodeConfig, n: nat, powf: (real, real) -> real): (s: seq<BloomPass>)
    requires n >= 1
    ensures |s| == 2 * n
    ensures s[0] == FIRST_DOWNSAMPLE_PASS && s[|s| - 1] == FinalPass(c, n, powf)
  {
    [FIRST_DOWNSAMPLE_PASS] + Downsamples(n - 1) + Upsamples(c, n, n - 1, powf) + [FinalPass(c, n, powf)]
  }

  /** The pass at position `k` of `Schedule`. */
  function PassAt(c: BloomNodeConfig, n: nat, k: nat, powf: (real, real) -> real): BloomPass
    requires k < 2 * n
  {
    if k == 0 then FIRST_DOWNSAMPLE_PASS
    else if k < n then DownsamplePass(k)
    else if k < 2 * n - 1 then UpsamplePass(c, n, 2 * n - 1 - k, powf)
    else FinalPass(c, n, powf)
  }

  lemma ScheduleIndex(c: BloomNodeConfig, n: nat, powf: (real, real) -> real)
    requires n >= 1
    ensures |Schedule(c, n, powf)| == 2 * n
    ensures forall k :: 0 <= k < 2 * n ==> Schedule(c, n, powf)[k] == PassAt(c, n, k, powf)
  {
    var s := Schedule(c, n, powf);
    var d := Downsamples(n - 1);
    var u := Upsamples(c, n, n - 1, powf);
    assert s == [FIRST_DOWNSAMPLE_PASS] + d + u + [FinalPass(c, n, powf)];
    forall k | 0 <= k < 2 * n
      ensures s[k] == PassAt(c, n, k, powf)
    {
      if 1 <= k < n {
        assert s[k] == d[k - 1];
      } else if n <= k < 2 * n - 1 {
        assert s[k] == u[k - n];
      }
    }
  }

  /** The passes form one chain from the frame back to the frame: each
   *  samples what the one before rendered, all but the last clear their
   *  target, and the last loads the frame and blends onto it. */
  lemma ScheduleChained(c: BloomNodeConfig, n: nat, powf: (real, real) -> real)
    requires n >= 1
    ensures var s := Schedule(c, n, powf);
      && |s| == 2 * n
      && s[0].source == SwapChainView && s[|s| - 1].target == SwapChainView
      && (forall k :: 0 <= k < |s| - 1 ==> s[k + 1].source == s[k].target)
      && (forall k :: 0 <= k < |s| - 1 ==> s[k].load == ClearToZero)
      && s[|s| - 1].load == LoadExisting
  {
    ScheduleIndex(c, n, powf);
    forall k | 0 <= k < 2 * n - 1
      ensures PassAt(c, n, k + 1, powf).source == PassAt(c, n, k, powf).target
    {
    }
  }

  /** Levels are visited in both directions: level `m` is rendered by the
   *  `m`-th pass on the way down and, below the top, again on the way up,
   *  where the factor set is that of the level above. */
  lemma ScheduleLevels(c: BloomNodeConfig, n: nat, powf: (real, real) -> real, m: nat)
    requires m < n
    ensures var s := Schedule(c, n, powf);
      && s[m].target == MipView(m)
      && (m + 1 < n ==> s[2 * n - 2 - m].target == MipView(m) && s[2 * n - 2 - m].blend == Some(BlendFactor(c, n, m + 1, powf)))
  {
    ScheduleIndex(c, n, powf);
  }

  /** Only the final pass runs a pipeline that blends by the constant: the
   *  factors set on the upsampling passes have no effect, and the one that
   *  does is the pyramid's end factor, which lies in [0, 1]. */
  lemma OnlyFinalBlendApplies(c: BloomNodeConfig, n: nat, powf: (real, real) -> real)
    requires n >= 1
    ensures var s := Schedule(c, n, powf);
      && (forall k :: 0 <= k < |s| ==> (Describe(s[k].pipeline).constantBlend <==> k == |s| - 1))
      && s[|s| - 1].blend == Some(BlendFactor(c, n, n - 1, powf))
  {
    ScheduleIndex(c, n, powf);
    BlendFactorSymmetric(c, n, 0, powf);
  }

  // ---------------------------------------------------------------------
  // The node.

  /** What `build` keeps: the number of pyramid levels (one view each),
   *  the pyramid's base size and the config uniform. */
  datatype BloomNodeData = BloomNodeData(viewCount: nat, pyramid: (nat, nat), config: BufferState)

  class BloomNode {
    var config: BloomNodeConfig
    var data: Option<BloomNodeData>

    /** `BloomNode::default()`: the default configuration, not built. */
    constructor ()
      ensures config == DEFAULT_BLOOM_CONFIG && data.None?
    {
      config := DEFAULT_BLOOM_CONFIG;
      data := None;
    }

    /** `calculate_blend_factor`: unwraps the node's data. */
    function CalculateBlendFactor(mip: nat, powf: (real, real) -> real): (r: Result<BlendConstant, Panic>)
      reads this
      ensures r.Err? <==> data.None?
      ensures r.Err? ==> r.error == UnwrapNone
      ensures r.Ok? ==> r.value == BlendFactor(config, data.value.viewCount, mip, powf)
    {
      match data
      case None => Err(UnwrapNone)
      case Some(d) => Ok(BlendFactor(config, d.viewCount, mip, powf))
    }

    /** `build` for a target of `w` by `h`: the level count, the pyramid's
     *  size and the filter pushed into a fresh uniform buffer and written.
     *  The uniform's encoding is `enc` (`None` being the filter with an
     *  infinite component); a zero dimension panics in `ilog2`. */
    method Build(w: nat, h: nat, enc: Option<Vec4> -> seq<byte>) returns (r: Result<(), Panic>)
      modifies this
      ensures config == old(config)
      ensures r.Err? <==> config.maxMipDimension == 0
      ensures r.Err? ==> r.error == ExplicitPanic && data == old(data)
      ensures r.Ok? ==> data == Some(BloomNodeData(
        MipCount(config.maxMipDimension).value,
        PyramidSize(w, h, config.maxMipDimension),
        DynamicWritten(BufferState(enc(PrecomputedFilter(config)), None, true, {UNIFORM}))))
    {
      var mips := MipCount(config.maxMipDimension);
      if mips.Err? {
        return Err(mips.error);
      }
      var size := PyramidSize(w, h, config.maxMipDimension);
      var uniform := new DynamicGpuBuffer({UNIFORM});
      var bytes := enc(PrecomputedFilter(config));
      var _ := uniform.Push(bytes);
      assert [] + bytes == bytes;
      uniform.Write();
      data := Some(BloomNodeData(mips.value, size, uniform.State()));
      return Ok(());
    }

    /** `draw`: nothing before `build`; binding the config uniform panics
     *  without a device buffer, and an empty pyramid panics on view 0;
     *  otherwise the first downsample, the downsamples up the pyramid, the
     *  upsamples back down and the final pass onto the frame. */
    method Draw(powf: (real, real) -> real) returns (r: Result<seq<BloomPass>, Panic>)
      ensures data.None? ==> r == Ok([])
      ensures data.Some? && data.value.config.gpu.None? ==> r == Err(UnwrapNone)
      ensures data.Some? && data.value.config.gpu.Some? && data.value.viewCount == 0 ==> r == Err(IndexOutOfBounds)
      ensures data.Some? && data.value.config.gpu.Some? && data.value.viewCount >= 1 ==>
        r == Ok(Schedule(config, data.value.viewCount, powf))
    {
      if data.None? {
        return Ok([]);
      }
      if data.value.config.gpu.None? {
        return Err(UnwrapNone);
      }
      var n := data.value.viewCount;
      if n == 0 {
        return Err(IndexOutOfBounds);
      }
      var passes := [FIRST_DOWNSAMPLE_PASS];
      for mip := 1 to n
        invariant passes == [FIRST_DOWNSAMPLE_PASS] + Downsamples(mip - 1)
      {
        assert Downsamples(mip) == Downsamples(mip - 1) + [DownsamplePass(mip)];
        passes := passes + [DownsamplePass(mip)];
      }
      ghost var down := passes;
      for mip := n downto 1
        invariant passes == down + Upsamples(config, n, n - mip, powf)
      {
        assert Upsamples(config, n, n - mip, powf) == Upsamples(config, n, n - mip - 1, powf) + [UpsamplePass(config, n, mip, powf)];
        passes := passes + [UpsamplePass(config, n, mip, powf)];
      }
      passes := passes + [FinalPass(config, n, powf)];
      return Ok(passes);
    }
  }

  /** A node built with a positive dimension draws the whole chain: its
   *  uniform holds the filter's bytes whenever those are not empty, so the
   *  binding is there. */
  lemma BuiltNodeDraws(c: BloomNodeConfig, w: nat, h: nat, bytes: seq<byte>)
    requires c.maxMipDimension >= 1 && |bytes| > 0
    ensures var d := BloomNodeData(MipCount(c.maxMipDimension).value, PyramidSize(w, h, c.maxMipDimension),
                                   DynamicWritten(BufferState(bytes, None, true, {UNIFORM})));
      d.config.gpu.Some? && d.viewCount >= 1
  {
  }
}
