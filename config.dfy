/**
 * The configuration store: a map from variable names to tagged values, filled
 * with eleven defaults on creation, and the conversions a caller uses to read
 * a value as an `i32`, a `bool` or an `f32`. Floats are kept as their IEEE 754
 * bit patterns, so comparisons with zero and casts to `i32` are exact. A
 * conversion the source cannot perform (it panics) is None here.
 */
module Config {
  import opened Wrappers
  import opened Arith
  import opened Text

  /**
   * A configuration value. `I32` and `I64` hold values of their width; `F32`
   * and `F64` hold binary32 and binary64 bit patterns.
   */
  datatype ConfigValue =
    | Bool(b: bool)
    | I32(i: int)
    | I64(i: int)
    | F32(bits: nat)
    | F64(bits: nat)
    | String(s: string)

  const I64Min: int := -0x8000_0000_0000_0000
  const I64Max: int := 0x7FFF_FFFF_FFFF_FFFF

  const Two32: nat := 0x1_0000_0000

  /** Each value fits its Rust type. */
  predicate WellFormed(v: ConfigValue) {
    match v
    case Bool(_) => true
    case I32(i) => I32Min <= i <= I32Max
    case I64(i) => I64Min <= i <= I64Max
    case F32(bits) => bits < Binary32.signRadix * 2
    case F64(bits) => bits < Binary64.signRadix * 2
    case String(_) => true
  }

  /**
   * An IEEE 754 binary format: the width of the fraction field and the radices
   * 2^fraction, 2^exponent and 2^(exponent + fraction) that cut a bit pattern
   * into its fields.
   */
  datatype FloatFormat = FloatFormat(fractionBits: nat, fractionRadix: nat, exponentRadix: nat, signRadix: nat)

  const Binary32: FloatFormat := FloatFormat(23, 0x80_0000, 0x100, 0x8000_0000)
  const Binary64: FloatFormat := FloatFormat(52, 0x10_0000_0000_0000, 0x800, 0x8000_0000_0000_0000)

  function ExponentField(f: FloatFormat, bits: nat): nat
    requires f.fractionRadix > 0 && f.exponentRadix > 0
  {
    (bits / f.fractionRadix) % f.exponentRadix
  }

  function Fraction(f: FloatFormat, bits: nat): nat
    requires f.fractionRadix > 0
  {
    bits % f.fractionRadix
  }

  /** The sign bit: 1 for negative. */
  function SignBit(f: FloatFormat, bits: nat): nat
    requires f.signRadix > 0
  {
    (bits / f.signRadix) % 2
  }

  predicate IsNaN(f: FloatFormat, bits: nat)
    requires f.fractionRadix > 0 && f.exponentRadix > 0
  {
    ExponentField(f, bits) == f.exponentRadix - 1 && Fraction(f, bits) != 0
  }

  predicate IsInfinite(f: FloatFormat, bits: nat)
    requires f.fractionRadix > 0 && f.exponentRadix > 0
  {
    ExponentField(f, bits) == f.exponentRadix - 1 && Fraction(f, bits) == 0
  }

  /** The integer significand: the fraction, with the hidden bit for normal numbers. */
  function Significand(f: FloatFormat, bits: nat): nat
    requires f.fractionRadix > 0 && f.exponentRadix > 0
  {
    if ExponentField(f, bits) == 0 then Fraction(f, bits) else Fraction(f, bits) + f.fractionRadix
  }

  /** The power of two the significand is scaled by: the unbiased exponent less the fraction width. */
  function Scale(f: FloatFormat, bits: nat): int
    requires f.fractionRadix > 0 && f.exponentRadix > 0
  {
    var biased := if ExponentField(f, bits) == 0 then 1 else ExponentField(f, bits);
    biased - (f.exponentRadix / 2 - 1) - f.fractionBits
  }

  predicate ValidFormat(f: FloatFormat) {
    f.fractionRadix > 0 && f.exponentRadix > 0 && f.signRadix > 0
  }

  /** The magnitude of a finite float, truncated toward zero to an integer. */
  function TruncatedMagnitude(f: FloatFormat, bits: nat): (r: nat)
    requires ValidFormat(f)
    ensures Scale(f, bits) >= 0 ==> r == Significand(f, bits) * Pow2(Scale(f, bits))
    ensures Scale(f, bits) < 0 ==>
      r * Pow2(-Scale(f, bits)) <= Significand(f, bits) < (r + 1) * Pow2(-Scale(f, bits))
  {
    var scale := Scale(f, bits);
    if scale >= 0 then Significand(f, bits) * Pow2(scale)
    else FloorDiv(Significand(f, bits), Pow2(-scale))
  }

  /** A value clamped to the `i32` range. */
  function Saturate(x: int): (r: int)
    ensures I32Min <= r <= I32Max
    ensures I32Min <= x <= I32Max ==> r == x
    ensures x < I32Min ==> r == I32Min
    ensures x > I32Max ==> r == I32Max
  {
    if x < I32Min then I32Min else if x > I32Max then I32Max else x
  }

  /**
   * Rust's float `as i32`: NaN is 0, anything else is truncated toward zero
   * and saturated to the `i32` range (infinities to the ends).
   */
  function FloatToI32(f: FloatFormat, bits: nat): (r: int)
    requires ValidFormat(f)
    ensures I32Min <= r <= I32Max
    ensures IsNaN(f, bits) ==> r == 0
    ensures IsInfinite(f, bits) ==> r == if SignBit(f, bits) == 1 then I32Min else I32Max
  {
    if IsNaN(f, bits) then 0
    else if IsInfinite(f, bits) then (if SignBit(f, bits) == 1 then I32Min else I32Max)
    else
      var magnitude: int := TruncatedMagnitude(f, bits);
      Saturate(if SignBit(f, bits) == 1 then -magnitude else magnitude)
  }

  /** A float compared with 0.0: false exactly for +0 and -0 (NaN is not equal to zero). */
  predicate FloatNonZero(f: FloatFormat, bits: nat)
    requires ValidFormat(f)
  {
    bits % f.signRadix != 0
  }

  /** The `i64` value reinterpreted through its low 32 bits as an `i32`. */
  function WrapToI32(i: int): (r: int)
    ensures I32Min <= r <= I32Max
    ensures (r - i) % Two32 == 0
  {
    var low := i % Two32;
    if low > I32Max then low - Two32 else low
  }

  /** A value already in the `i32` range is unchanged by the wrap. */
  lemma WrapToI32InRange(i: int)
    requires I32Min <= i <= I32Max
    ensures WrapToI32(i) == i
  {
  }

  /** Values 2^32 apart wrap to the same `i32`. */
  lemma WrapToI32Periodic(i: int)
    ensures WrapToI32(i + Two32) == WrapToI32(i)
  {
  }

  /** `str::parse::<bool>`: exactly "true" or "false". */
  function ParseBool(s: string): (r: Option<bool>)
    ensures r.Some? <==> s == "true" || s == "false"
    ensures r.Some? ==> (r.value <==> s == "true")
  {
    if s == "true" then Some(true) else if s == "false" then Some(false) else None
  }

  /**
   * `as_i32`: a bool as 0 or 1, an `i32` unchanged, an `i64` wrapped to its low
   * 32 bits, a float truncated and saturated, a string parsed (None when it
   * does not parse).
   */
  function AsI32(v: ConfigValue): (r: Option<int>)
    requires WellFormed(v)
    ensures r.Some? ==> I32Min <= r.value <= I32Max
    ensures r.None? <==> v.String? && ParseI32(v.s).None?
    ensures v.Bool? ==> r == Some(if v.b then 1 else 0)
    ensures v.I32? ==> r == Some(v.i)
    ensures v.I64? ==> r.Some? && (r.value - v.i) % Two32 == 0
    ensures v.I64? ==> r == Some(WrapToI32(v.i))
    ensures v.F32? ==> r == Some(FloatToI32(Binary32, v.bits))
    ensures v.F64? ==> r == Some(FloatToI32(Binary64, v.bits))
    ensures v.String? ==> r == ParseI32(v.s)
  {
    match v
    case Bool(b) => Some(if b then 1 else 0)
    case I32(i) => Some(i)
    case I64(i) => Some(WrapToI32(i))
    case F32(bits) => Some(FloatToI32(Binary32, bits))
    case F64(bits) => Some(FloatToI32(Binary64, bits))
    case String(s) => ParseI32(s)
  }

  /**
   * `as_bool`: a bool unchanged, a number true exactly when it is not zero, a
   * string parsed (None unless it is "true" or "false").
   */
  function AsBool(v: ConfigValue): (r: Option<bool>)
    ensures r.None? <==> v.String? && v.s != "true" && v.s != "false"
    ensures v.Bool? ==> r == Some(v.b)
    ensures v.I32? || v.I64? ==> r == Some(v.i != 0)
    ensures v.String? && r.Some? ==> (r.value <==> v.s == "true")
    ensures v.String? ==> r == ParseBool(v.s)
    ensures v.F32? ==> r == Some(FloatNonZero(Binary32, v.bits))
    ensures v.F64? ==> r == Some(FloatNonZero(Binary64, v.bits))
  {
    match v
    case Bool(b) => Some(b)
    case I32(i) => Some(i != 0)
    case I64(i) => Some(i != 0)
    case F32(bits) => Some(FloatNonZero(Binary32, bits))
    case F64(bits) => Some(FloatNonZero(Binary64, bits))
    case String(s) => ParseBool(s)
  }

  /** A written `i32` stored as a string reads back as that integer. */
  lemma AsI32OfText(n: int)
    requires I32Min <= n <= I32Max
    ensures AsI32(String(I32Text(n))) == Some(n)
  {
    ParseI32Text(n);
  }

  /**
   * For a bool or an `i32` the two readings agree: `as_bool` is true exactly
   * when `as_i32` is not zero.
   */
  lemma AsBoolAgreesWithAsI32(v: ConfigValue)
    requires WellFormed(v) && (v.Bool? || v.I32?)
    ensures AsBool(v) == Some(AsI32(v).value != 0)
  {
  }

  /**
   * For an `i64` the two readings disagree exactly on the non-zero multiples
   * of 2^32: such a value is true as a bool, but its low 32 bits make it 0 as
   * an `i32`.
   */
  lemma AsBoolAndAsI32DisagreeOnWrap(i: int)
    requires I64Min <= i <= I64Max
    ensures AsBool(I64(i)).value != (AsI32(I64(i)).value != 0) <==> i != 0 && i % Two32 == 0
    ensures i != 0 && i % Two32 == 0 ==> AsBool(I64(i)) == Some(true) && AsI32(I64(i)) == Some(0)
  {
  }

  /** Where an `f32` reading comes from; the float arithmetic of the cast itself is not modelled. */
  datatype F32Source =
    | FromInteger(i: int)
    | FromBinary32(bits: nat)
    | FromBinary64(bits: nat)
    | FromText(s: string)

  /** `as_f32`: every kind but a bool converts; a bool is the source's panic. */
  function AsF32(v: ConfigValue): (r: Option<F32Source>)
    ensures r.None? <==> v.Bool?
  {
    match v
    case Bool(_) => None
    case I32(i) => Some(FromInteger(i))
    case I64(i) => Some(FromInteger(i))
    case F32(bits) => Some(FromBinary32(bits))
    case F64(bits) => Some(FromBinary64(bits))
    case String(s) => Some(FromText(s))
  }

  /** The binary32 patterns of the float defaults. */
  const Point9: nat := 0x3F66_6666
  const OnePointFive: nat := 0x3FC0_0000
  const Ninety: nat := 0x42B4_0000
  const FiveTenThousandths: nat := 0x3A03_126F
  const Fifty: nat := 0x4248_0000

  /** The names `initialize` sets. */
  function DefaultNames(): set<string> {
    {
      "renderer_raytracer_samples", "renderer_raytracer_do_lighting", "renderer_raytracer_max_steps",
      "renderer_denoiser_enable_filtering", "renderer_denoiser_reprojection_percent",
      "renderer_denoiser_edge_avoiding_blur_strength", "renderer_fov", "game_input_mouse_sensitivity",
      "game_input_movement_speed", "game_world_file_path", "game_enable_editor"
    }
  }

  /**
   * `vars` after `initialize`: the eleven defaults set, in the source's order;
   * every other name keeps its entry or its absence.
   */
  function WithDefaults(vars: map<string, ConfigValue>): (r: map<string, ConfigValue>)
    ensures r.Keys == vars.Keys + DefaultNames()
    ensures forall name :: name in vars && name !in DefaultNames() ==> r[name] == vars[name]
  {
    vars
      ["renderer_raytracer_samples" := I32(1)]
      ["renderer_raytracer_do_lighting" := Bool(false)]
      ["renderer_raytracer_max_steps" := I32(200)]
      ["renderer_denoiser_enable_filtering" := Bool(true)]
      ["renderer_denoiser_reprojection_percent" := F32(Point9)]
      ["renderer_denoiser_edge_avoiding_blur_strength" := F32(OnePointFive)]
      ["renderer_fov" := F32(Ninety)]
      ["game_input_mouse_sensitivity" := F32(FiveTenThousandths)]
      ["game_input_movement_speed" := F32(Fifty)]
      ["game_world_file_path" := String("garfield.vox")]
      ["game_enable_editor" := Bool(false)]
  }

  /** The values the defaults take, whatever was there before, and every one of them fits its type. */
  lemma DefaultValues(vars: map<string, ConfigValue>)
    ensures WithDefaults(vars)["renderer_raytracer_samples"] == I32(1)
    ensures WithDefaults(vars)["renderer_raytracer_do_lighting"] == Bool(false)
    ensures WithDefaults(vars)["renderer_raytracer_max_steps"] == I32(200)
    ensures WithDefaults(vars)["renderer_denoiser_enable_filtering"] == Bool(true)
    ensures WithDefaults(vars)["renderer_denoiser_reprojection_percent"] == F32(Point9)
    ensures WithDefaults(vars)["renderer_denoiser_edge_avoiding_blur_strength"] == F32(OnePointFive)
    ensures WithDefaults(vars)["renderer_fov"] == F32(Ninety)
    ensures WithDefaults(vars)["game_input_mouse_sensitivity"] == F32(FiveTenThousandths)
    ensures WithDefaults(vars)["game_input_movement_speed"] == F32(Fifty)
    ensures WithDefaults(vars)["game_world_file_path"] == String("garfield.vox")
    ensures WithDefaults(vars)["game_enable_editor"] == Bool(false)
  {
  }

  /** Every default fits its Rust type. */
  lemma DefaultsWellFormed(vars: map<string, ConfigValue>)
    ensures forall name :: name in DefaultNames() ==> WellFormed(WithDefaults(vars)[name])
  {
    DefaultValues(vars);
  }

  class Config {
    var configVars: map<string, ConfigValue>

    /** A store holding exactly the defaults. */
    constructor ()
      ensures configVars == WithDefaults(map[])
    {
      configVars := map[];
      new;
      Initialize();
    }

    /** Sets every default, overwriting those names and keeping any other entry. */
    method Initialize()
      modifies this
      ensures configVars == WithDefaults(old(configVars))
    {
      SetVar("renderer_raytracer_samples", I32(1));
      SetVar("renderer_raytracer_do_lighting", Bool(false));
      SetVar("renderer_raytracer_max_steps", I32(200));
      SetVar("renderer_denoiser_enable_filtering", Bool(true));
      SetVar("renderer_denoiser_reprojection_percent", F32(Point9));
      SetVar("renderer_denoiser_edge_avoiding_blur_strength", F32(OnePointFive));
      SetVar("renderer_fov", F32(Ninety));
      SetVar("game_input_mouse_sensitivity", F32(FiveTenThousandths));
      SetVar("game_input_movement_speed", F32(Fifty));
      SetVar("game_world_file_path", String("garfield.vox"));
      SetVar("game_enable_editor", Bool(false));
    }

    /** Inserts or replaces one entry; every other name keeps its value. */
    method SetVar(name: string, value: ConfigValue)
      modifies this
      ensures configVars == old(configVars)[name := value]
      ensures GetVar(name) == Some(value)
      ensures forall other :: other != name ==> GetVar(other) == old(GetVar(other))
    {
      configVars := configVars[name := value];
    }

    /** A copy of the value under `name`, or None when nothing was ever set under it. */
    function GetVar(name: string): (r: Option<ConfigValue>)
      reads this
      ensures r.Some? <==> name in configVars
      ensures r.Some? ==> r.value == configVars[name]
    {
      if name in configVars then Some(configVars[name]) else None
    }
  }

  /** A second set under the same name replaces the first. */
  method SetTwice(config: Config, name: string, first: ConfigValue, second: ConfigValue)
    modifies config
    ensures config.GetVar(name) == Some(second)
    ensures config.configVars == old(config.configVars)[name := second]
  {
    config.SetVar(name, first);
    config.SetVar(name, second);
  }

  /** A fresh store answers with the documented defaults, and with None for any other name. */
  method NewHasDefaults(name: string) returns (config: Config)
    ensures config.GetVar("renderer_raytracer_samples") == Some(I32(1))
    ensures config.GetVar("renderer_raytracer_max_steps") == Some(I32(200))
    ensures config.GetVar("renderer_raytracer_do_lighting") == Some(Bool(false))
    ensures config.GetVar("renderer_denoiser_enable_filtering") == Some(Bool(true))
    ensures config.GetVar("game_world_file_path") == Some(String("garfield.vox"))
    ensures name !in DefaultNames() ==> config.GetVar(name) == None
  {
    config := new Config();
    DefaultValues(map[]);
  }

  /** The binary32 format's radices are the powers of two its field widths name. */
  lemma Binary32Radices()
    ensures Binary32.fractionRadix == Pow2(23) && Binary32.exponentRadix == Pow2(8)
  {
    Pow2Add(8, 15);
    assert Pow2(8) == 0x100 && Pow2(15) == 0x8000;
  }

  /** A quotient floored below a divisor larger than the dividend is 0. */
  lemma FloorBelowDivisor(m: nat, n: nat, d: nat)
    requires m * d <= n < d
    ensures m == 0
  {
    if m >= 1 {
      MulMonotone(d, 1, m);
    }
  }

  /** A significand below 2^-scale: the float's magnitude is below 1. */
  lemma SignificandBelowScale(f: FloatFormat, bits: nat)
    requires ValidFormat(f) && f.fractionBits >= 1 && f.fractionRadix == Pow2(f.fractionBits) && f.exponentRadix / 2 >= 2
    requires ExponentField(f, bits) < f.exponentRadix / 2 - 1
    ensures Scale(f, bits) < 0 && Significand(f, bits) < Pow2(-Scale(f, bits))
  {
    var e := ExponentField(f, bits);
    var scale := Scale(f, bits);
    if e == 0 {
      assert -scale >= f.fractionBits;
      assert Significand(f, bits) == bits % f.fractionRadix < Pow2(f.fractionBits);
      Pow2Monotone(f.fractionBits, -scale);
    } else {
      Pow2Add(f.fractionBits, 1);
      assert -scale >= f.fractionBits + 1;
      Pow2Monotone(f.fractionBits + 1, -scale);
    }
  }

  /**
   * A finite float whose magnitude is below 1 (its exponent field is below the
   * bias) converts to 0, whatever its sign.
   */
  lemma BelowOneIsZero(f: FloatFormat, bits: nat)
    requires ValidFormat(f) && f.fractionBits >= 1 && f.fractionRadix == Pow2(f.fractionBits) && f.exponentRadix / 2 >= 2
    requires ExponentField(f, bits) < f.exponentRadix / 2 - 1
    ensures FloatToI32(f, bits) == 0
  {
    SignificandBelowScale(f, bits);
    var scale := Scale(f, bits);
    FloorBelowDivisor(TruncatedMagnitude(f, bits), Significand(f, bits), Pow2(-scale));
  }

  /** The defaults 0.9 and 0.0005 read as the integer 0: a cast truncates toward zero. */
  lemma FractionalDefaultsAsI32()
    ensures AsI32(F32(Point9)) == Some(0)
    ensures AsI32(F32(FiveTenThousandths)) == Some(0)
  {
    Binary32Radices();
    assert ExponentField(Binary32, Point9) == 126;
    BelowOneIsZero(Binary32, Point9);
    assert ExponentField(Binary32, FiveTenThousandths) == 116;
    BelowOneIsZero(Binary32, FiveTenThousandths);
  }

  /** 2^17, 2^18 and 2^23, the divisors the whole-number defaults need. */
  lemma Pow2Divisors()
    ensures Pow2(17) == 0x2_0000 && Pow2(18) == 0x4_0000 && Pow2(23) == 0x80_0000
  {
    assert Pow2(8) == 0x100 && Pow2(9) == 0x200 && Pow2(10) == 0x400 && Pow2(15) == 0x8000;
    Pow2Add(8, 9);
    Pow2Add(8, 10);
    Pow2Add(8, 15);
  }

  /** The default 1.5 reads as 1. */
  lemma OnePointFiveAsI32()
    ensures AsI32(F32(OnePointFive)) == Some(1)
  {
    Pow2Divisors();
    assert ExponentField(Binary32, OnePointFive) == 127 && Scale(Binary32, OnePointFive) == -23;
    assert Significand(Binary32, OnePointFive) == 0xC0_0000;
    assert TruncatedMagnitude(Binary32, OnePointFive) == 1;
  }

  /** The default 90.0 reads as 90. */
  lemma NinetyAsI32()
    ensures AsI32(F32(Ninety)) == Some(90)
  {
    Pow2Divisors();
    assert ExponentField(Binary32, Ninety) == 133 && Scale(Binary32, Ninety) == -17;
    assert Significand(Binary32, Ninety) == 0xB4_0000;
    assert TruncatedMagnitude(Binary32, Ninety) == 90;
  }

  /** The default 50.0 reads as 50. */
  lemma FiftyAsI32()
    ensures AsI32(F32(Fifty)) == Some(50)
  {
    Pow2Divisors();
    assert ExponentField(Binary32, Fifty) == 132 && Scale(Binary32, Fifty) == -18;
    assert Significand(Binary32, Fifty) == 0xC8_0000;
    assert TruncatedMagnitude(Binary32, Fifty) == 50;
  }

  /** Every float default is non-zero, so reads as true. */
  lemma FloatDefaultsAsBool()
    ensures AsBool(F32(Point9)) == Some(true)
    ensures AsBool(F32(FiveTenThousandths)) == Some(true)
  {
  }

  /** Both zeros of either width read as false; a NaN is not equal to zero, so it reads as true. */
  lemma FloatZerosAsBool()
    ensures AsBool(F32(0)) == Some(false) && AsBool(F32(Binary32.signRadix)) == Some(false)
    ensures AsBool(F64(0)) == Some(false) && AsBool(F64(Binary64.signRadix)) == Some(false)
    ensures AsBool(F32(0x7FC0_0000)) == Some(true)
  {
  }
}
