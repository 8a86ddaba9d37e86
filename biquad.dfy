/** The biquad filter of chorus_vst/src/filter.rs, shared by every effect: a
    direct-form recurrence with one coefficient set and separate left and right
    histories, and one closed-form coefficient design per filter topology. */
module Biquad {
  import opened Libm

  datatype Option<T> = None | Some(value: T)

  datatype FilterType =
    | LowPass1 | LowPass2 | HighPass1 | HighPass2 | BandPass | Notch
    | FirstOrderAllPass | SecondOrderAllPass | LowShelf | HighShelf | Peak

  /** `FilterType::to_index`: the position of the variant in the declaration. */
  function ToIndex(t: FilterType): (i: nat)
    ensures i <= 10
  {
    match t
    case LowPass1 => 0
    case LowPass2 => 1
    case HighPass1 => 2
    case HighPass2 => 3
    case BandPass => 4
    case Notch => 5
    case FirstOrderAllPass => 6
    case SecondOrderAllPass => 7
    case LowShelf => 8
    case HighShelf => 9
    case Peak => 10
  }

  /** `FilterType::from_index`; `None` is the panic on an index above 10. */
  function FromIndex(i: nat): (r: Option<FilterType>)
    ensures r.None? <==> i > 10
    ensures r.Some? ==> ToIndex(r.value) == i
  {
    match i
    case 0 => Some(LowPass1)
    case 1 => Some(LowPass2)
    case 2 => Some(HighPass1)
    case 3 => Some(HighPass2)
    case 4 => Some(BandPass)
    case 5 => Some(Notch)
    case 6 => Some(FirstOrderAllPass)
    case 7 => Some(SecondOrderAllPass)
    case 8 => Some(LowShelf)
    case 9 => Some(HighShelf)
    case 10 => Some(Peak)
    case _ => None
  }

  /** Every variant survives the round trip through its index. */
  lemma FromIndexToIndex(t: FilterType)
    ensures FromIndex(ToIndex(t)) == Some(t)
  {
  }

  /** `BiquadCoefficients`: feed-forward `a0..a2`, feedback `b0, b1` (for the
      outputs one and two samples back), and the post-scale `c0·y + d0·x`. */
  datatype BiquadCoefficients = BiquadCoefficients(
    a0: real, a1: real, a2: real, b0: real, b1: real, c0: real, d0: real)

  /** One channel's history: the last two inputs and the last two raw outputs. */
  datatype ChannelState = ChannelState(x1: real, x2: real, y1: real, y2: real)

  const ZeroState := ChannelState(0.0, 0.0, 0.0, 0.0)

  /** The coefficients `BiquadFilter::new` starts with. */
  const InitialCoefficients := BiquadCoefficients(0.0, 0.0, 0.0, 0.0, 0.0, 1.0, 0.0)

  /** The raw recurrence `a0·x + a1·x1 + a2·x2 − b0·y1 − b1·y2`. */
  function Recurrence(c: BiquadCoefficients, s: ChannelState, x: real): real {
    c.a0 * x + c.a1 * s.x1 + c.a2 * s.x2 - c.b0 * s.y1 - c.b1 * s.y2
  }

  /** One `process_left`/`process_right` step on one channel's history: the new
      history (which keeps the raw output) and the post-scaled output. */
  function Step(c: BiquadCoefficients, s: ChannelState, x: real): (ChannelState, real) {
    var y := Recurrence(c, s, x);
    (ChannelState(x, s.x1, y, s.y1), c.c0 * y + c.d0 * x)
  }

  /** Each step ages the history by exactly one sample. */
  lemma StepShiftsHistory(c: BiquadCoefficients, s: ChannelState, x: real)
    ensures Step(c, s, x).0.x1 == x && Step(c, s, x).0.x2 == s.x1
    ensures Step(c, s, x).0.y2 == s.y1
    ensures c.c0 == 1.0 && c.d0 == 0.0 ==> Step(c, s, x).0.y1 == Step(c, s, x).1
  {
  }

  /** Until coefficients are set, the filter outputs silence whatever it is fed. */
  lemma InitialFilterIsSilent(s: ChannelState, x: real)
    ensures Step(InitialCoefficients, s, x).1 == 0.0
  {
  }

  /** The output is the raw recurrence (no post-scale). */
  predicate PlainOutput(c: BiquadCoefficients) {
    c.c0 == 1.0 && c.d0 == 0.0
  }

  /** Gain 1 at DC: the feed-forward sum equals `1 + b0 + b1`. */
  predicate UnityDc(c: BiquadCoefficients) {
    c.a0 + c.a1 + c.a2 == 1.0 + c.b0 + c.b1
  }

  /** Gain 0 at DC: the feed-forward coefficients sum to zero. */
  predicate BlocksDc(c: BiquadCoefficients) {
    c.a0 + c.a1 + c.a2 == 0.0
  }

  /** The history of a channel that has seen input `x` and raw output `y` forever. */
  function Steady(x: real, y: real): ChannelState {
    ChannelState(x, x, y, y)
  }

  /** With unit DC gain, a constant input in its steady state passes unchanged
      and the state is a fixed point. */
  lemma UnityDcFixedPoint(c: BiquadCoefficients, v: real)
    requires UnityDc(c) && PlainOutput(c)
    ensures Step(c, Steady(v, v), v) == (Steady(v, v), v)
  {
    RecurrenceOnConstant(c, v, v);
    calc {
      Recurrence(c, Steady(v, v), v);
      (c.a0 + c.a1 + c.a2) * v - (c.b0 + c.b1) * v;
      (1.0 + c.b0 + c.b1) * v - (c.b0 + c.b1) * v;
      v;
    }
  }

  /** With zero DC gain, a constant input settles to a raw output of zero. */
  lemma BlockedDcFixedPoint(c: BiquadCoefficients, v: real)
    requires BlocksDc(c) && PlainOutput(c)
    ensures Step(c, Steady(v, 0.0), v) == (Steady(v, 0.0), 0.0)
  {
    RecurrenceOnConstant(c, v, 0.0);
    assert (c.a0 + c.a1 + c.a2) * v == 0.0;
    assert (c.b0 + c.b1) * 0.0 == 0.0;
    assert Recurrence(c, Steady(v, 0.0), v) == 0.0;
  }

  lemma RecurrenceOnConstant(c: BiquadCoefficients, x: real, y: real)
    ensures Recurrence(c, Steady(x, y), x) == (c.a0 + c.a1 + c.a2) * x - (c.b0 + c.b1) * y
  {
  }

  // ---------------------------------------------------------------------------
  // Coefficient designs. Every design divides by a quantity that depends on the
  // parameters; f32 would turn a zero divisor into inf or NaN, which is outside
  // this model, so each design requires its divisors to be non-zero.

  /** The normalised angular frequency `2π·cutoff/sample_rate`. */
  function Omega(sampleRate: real, cutoff: real): real
    requires sampleRate != 0.0
  {
    2.0 * PI * cutoff / sampleRate
  }

  /** The prewarped `tan(π·f/sample_rate)`. */
  function Prewarp(m: Libm, sampleRate: real, f: real): real
    requires sampleRate != 0.0
  {
    Tan(m, PI * f / sampleRate)
  }

  predicate FirstOrderDefined(m: Libm, sampleRate: real, cutoff: real) {
    sampleRate != 0.0 && 1.0 + Sin(m, Omega(sampleRate, cutoff)) != 0.0
  }

  /** `first_order_lpf_coefficients`. */
  function FirstOrderLpf(m: Libm, sampleRate: real, cutoff: real): (c: BiquadCoefficients)
    requires FirstOrderDefined(m, sampleRate, cutoff)
    ensures PlainOutput(c) && UnityDc(c)
    ensures c.a0 == c.a1 && c.a2 == 0.0 && c.b1 == 0.0
  {
    var o := Omega(sampleRate, cutoff);
    var y := Cos(m, o) / (1.0 + Sin(m, o));
    BiquadCoefficients((1.0 - y) / 2.0, (1.0 - y) / 2.0, 0.0, -y, 0.0, 1.0, 0.0)
  }

  /** `first_order_hpf_coefficients`. */
  function FirstOrderHpf(m: Libm, sampleRate: real, cutoff: real): (c: BiquadCoefficients)
    requires FirstOrderDefined(m, sampleRate, cutoff)
    ensures PlainOutput(c) && BlocksDc(c)
    ensures c.a1 == -c.a0 && c.a2 == 0.0 && c.b1 == 0.0
  {
    var o := Omega(sampleRate, cutoff);
    var y := Cos(m, o) / (1.0 + Sin(m, o));
    BiquadCoefficients((1.0 + y) / 2.0, -((1.0 + y) / 2.0), 0.0, -y, 0.0, 1.0, 0.0)
  }

  /** `(d/2)·sin(o)` with `d = 1/q`, the damping term of the second-order designs. */
  function Damping(m: Libm, sampleRate: real, cutoff: real, q: real): real
    requires sampleRate != 0.0 && q != 0.0
  {
    (1.0 / q / 2.0) * Sin(m, Omega(sampleRate, cutoff))
  }

  predicate SecondOrderDefined(m: Libm, sampleRate: real, cutoff: real, q: real) {
    sampleRate != 0.0 && q != 0.0 && 1.0 + Damping(m, sampleRate, cutoff, q) != 0.0
  }

  /** The shared intermediate `b` of the second-order low- and high-pass designs. */
  function SecondOrderB(m: Libm, sampleRate: real, cutoff: real, q: real): real
    requires SecondOrderDefined(m, sampleRate, cutoff, q)
  {
    var s := Damping(m, sampleRate, cutoff, q);
    0.5 * ((1.0 - s) / (1.0 + s))
  }

  /** `second_order_lpf_coefficients`. */
  function SecondOrderLpf(m: Libm, sampleRate: real, cutoff: real, q: real): (c: BiquadCoefficients)
    requires SecondOrderDefined(m, sampleRate, cutoff, q)
    ensures PlainOutput(c) && UnityDc(c)
    ensures c.a0 == c.a2 && c.a1 == 2.0 * c.a0
  {
    var b := SecondOrderB(m, sampleRate, cutoff, q);
    var y := (0.5 + b) * Cos(m, Omega(sampleRate, cutoff));
    BiquadCoefficients(
      (0.5 + b - y) / 2.0, 0.5 + b - y, (0.5 + b - y) / 2.0, -2.0 * y, 2.0 * b, 1.0, 0.0)
  }

  /** `second_order_hpf_coefficients`. */
  function SecondOrderHpf(m: Libm, sampleRate: real, cutoff: real, q: real): (c: BiquadCoefficients)
    requires SecondOrderDefined(m, sampleRate, cutoff, q)
    ensures PlainOutput(c) && BlocksDc(c)
    ensures c.a0 == c.a2 && c.a1 == -2.0 * c.a0
  {
    var b := SecondOrderB(m, sampleRate, cutoff, q);
    var y := (0.5 + b) * Cos(m, Omega(sampleRate, cutoff));
    BiquadCoefficients(
      (0.5 + b + y) / 2.0, -(0.5 + b + y), (0.5 + b + y) / 2.0, -2.0 * y, 2.0 * b, 1.0, 0.0)
  }

  /** The common denominator `k²q + k + q` of the band-pass and notch designs. */
  function BandDenominator(m: Libm, sampleRate: real, cutoff: real, q: real): real
    requires sampleRate != 0.0
  {
    var k := Prewarp(m, sampleRate, cutoff);
    k * k * q + k + q
  }

  predicate BandDefined(m: Libm, sampleRate: real, cutoff: real, q: real) {
    sampleRate != 0.0 && BandDenominator(m, sampleRate, cutoff, q) != 0.0
  }

  /** `band_pass_coefficients`. */
  function BandPassDesign(m: Libm, sampleRate: real, cutoff: real, q: real): (c: BiquadCoefficients)
    requires BandDefined(m, sampleRate, cutoff, q)
    ensures PlainOutput(c) && BlocksDc(c)
    ensures c.a1 == 0.0 && c.a2 == -c.a0
  {
    var k := Prewarp(m, sampleRate, cutoff);
    var d := BandDenominator(m, sampleRate, cutoff, q);
    BiquadCoefficients(
      k / d, 0.0, -k / d, 2.0 * q * (k * k - 1.0) / d, (k * k * q - k + q) / d, 1.0, 0.0)
  }

  /** `notch_coefficients`. */
  function NotchDesign(m: Libm, sampleRate: real, cutoff: real, q: real): (c: BiquadCoefficients)
    requires BandDefined(m, sampleRate, cutoff, q)
    ensures PlainOutput(c) && UnityDc(c)
    ensures c.a0 == c.a2 && c.a1 == c.b0
  {
    var k := Prewarp(m, sampleRate, cutoff);
    var d := BandDenominator(m, sampleRate, cutoff, q);
    var kk := k * k;
    NotchNumerators(kk, k, q);
    OverCommonDenominator(q * (kk + 1.0), 2.0 * q * (kk - 1.0), q * (kk + 1.0),
      2.0 * q * (kk - 1.0), kk * q - k + q, d);
    BiquadCoefficients(
      (q * (kk + 1.0)) / d, (2.0 * q * (kk - 1.0)) / d, (q * (kk + 1.0)) / d,
      (2.0 * q * (kk - 1.0)) / d, (kk * q - k + q) / d, 1.0, 0.0)
  }

  lemma NotchNumerators(kk: real, k: real, q: real)
    ensures q * (kk + 1.0) + 2.0 * q * (kk - 1.0) + q * (kk + 1.0)
         == (kk * q + k + q) + 2.0 * q * (kk - 1.0) + (kk * q - k + q)
  {
  }

  /** Unit DC gain is preserved by dividing every coefficient by a common `d`. */
  lemma OverCommonDenominator(n0: real, n1: real, n2: real, m0: real, m1: real, d: real)
    requires d != 0.0
    requires n0 + n1 + n2 == d + m0 + m1
    ensures n0 / d + n1 / d + n2 / d == 1.0 + m0 / d + m1 / d
  {
    assert n0 / d + n1 / d + n2 / d == (n0 + n1 + n2) / d;
    assert d / d == 1.0;
    assert d / d + m0 / d + m1 / d == (d + m0 + m1) / d;
  }

  /** The all-pass parameter `(t − 1)/(t + 1)` with `t = tan(π·f/sample_rate)`. */
  function AllpassAlpha(m: Libm, sampleRate: real, f: real): real
    requires sampleRate != 0.0 && Prewarp(m, sampleRate, f) + 1.0 != 0.0
  {
    (Prewarp(m, sampleRate, f) - 1.0) / (Prewarp(m, sampleRate, f) + 1.0)
  }

  predicate FirstOrderAllpassDefined(m: Libm, sampleRate: real, cutoff: real) {
    sampleRate != 0.0 && Prewarp(m, sampleRate, cutoff) + 1.0 != 0.0
  }

  /** `first_order_allpass_coefficients`. */
  function FirstOrderAllpass(m: Libm, sampleRate: real, cutoff: real): (c: BiquadCoefficients)
    requires FirstOrderAllpassDefined(m, sampleRate, cutoff)
    ensures PlainOutput(c) && UnityDc(c)
    ensures c.a0 == c.b0 && c.a1 == 1.0 && c.a2 == 0.0 && c.b1 == 0.0
  {
    var alpha := AllpassAlpha(m, sampleRate, cutoff);
    BiquadCoefficients(alpha, 1.0, 0.0, alpha, 0.0, 1.0, 0.0)
  }

  predicate SecondOrderAllpassDefined(m: Libm, sampleRate: real, cutoff: real, q: real) {
    sampleRate != 0.0 && q != 0.0 && Prewarp(m, sampleRate, cutoff / q) + 1.0 != 0.0
  }

  /** `second_order_allpass_coefficients`: the bandwidth is `cutoff/q`. */
  function SecondOrderAllpass(m: Libm, sampleRate: real, cutoff: real, q: real): (c: BiquadCoefficients)
    requires SecondOrderAllpassDefined(m, sampleRate, cutoff, q)
    ensures PlainOutput(c) && UnityDc(c)
    ensures c.a0 == c.b1 && c.a1 == c.b0 && c.a2 == 1.0
  {
    var alpha := AllpassAlpha(m, sampleRate, cutoff / q);
    var b := -Cos(m, Omega(sampleRate, cutoff));
    BiquadCoefficients(-alpha, b * (1.0 - alpha), 1.0, b * (1.0 - alpha), -alpha, 1.0, 0.0)
  }

  /** The shelf slope term `d` of the low shelf: `4/(1 + u)·tan(o/2)`. */
  function LowShelfD(m: Libm, sampleRate: real, cutoff: real, gain: real): real
    requires sampleRate != 0.0
  {
    var u := DbToGain(m, gain);
    4.0 / (1.0 + u) * Tan(m, Omega(sampleRate, cutoff) / 2.0)
  }

  /** The shelf slope term `d` of the high shelf: `(1 + u)/4·tan(o/2)`. */
  function HighShelfD(m: Libm, sampleRate: real, cutoff: real, gain: real): real
    requires sampleRate != 0.0
  {
    var u := DbToGain(m, gain);
    (1.0 + u) / 4.0 * Tan(m, Omega(sampleRate, cutoff) / 2.0)
  }

  predicate LowShelfDefined(m: Libm, sampleRate: real, cutoff: real, gain: real) {
    sampleRate != 0.0 && 1.0 + LowShelfD(m, sampleRate, cutoff, gain) != 0.0
  }

  predicate HighShelfDefined(m: Libm, sampleRate: real, cutoff: real, gain: real) {
    sampleRate != 0.0 && 1.0 + HighShelfD(m, sampleRate, cutoff, gain) != 0.0
  }

  /** `low_shelf_coefficients`: a first-order low-pass term scaled by `u − 1` plus
      the dry input. */
  function LowShelfDesign(m: Libm, sampleRate: real, cutoff: real, gain: real): (c: BiquadCoefficients)
    requires LowShelfDefined(m, sampleRate, cutoff, gain)
    ensures c.c0 == DbToGain(m, gain) - 1.0 && c.d0 == 1.0
    ensures UnityDc(c) && c.a0 == c.a1 && c.a2 == 0.0 && c.b1 == 0.0
  {
    var u := DbToGain(m, gain);
    var d := LowShelfD(m, sampleRate, cutoff, gain);
    var y := (1.0 - d) / (1.0 + d);
    BiquadCoefficients((1.0 - y) / 2.0, (1.0 - y) / 2.0, 0.0, -y, 0.0, u - 1.0, 1.0)
  }

  /** `high_shelf_coefficients`: a first-order high-pass term scaled by `u − 1`
      plus the dry input. */
  function HighShelfDesign(m: Libm, sampleRate: real, cutoff: real, gain: real): (c: BiquadCoefficients)
    requires HighShelfDefined(m, sampleRate, cutoff, gain)
    ensures c.c0 == DbToGain(m, gain) - 1.0 && c.d0 == 1.0
    ensures BlocksDc(c) && c.a1 == -c.a0 && c.a2 == 0.0 && c.b1 == 0.0
  {
    var u := DbToGain(m, gain);
    var d := HighShelfD(m, sampleRate, cutoff, gain);
    var y := (1.0 - d) / (1.0 + d);
    BiquadCoefficients((1.0 + y) / 2.0, -(1.0 + y) / 2.0, 0.0, -y, 0.0, u - 1.0, 1.0)
  }

  /** A low shelf scales DC by the linear gain `u`. */
  lemma LowShelfDcGain(m: Libm, sampleRate: real, cutoff: real, gain: real, v: real)
    requires LowShelfDefined(m, sampleRate, cutoff, gain)
    ensures Step(LowShelfDesign(m, sampleRate, cutoff, gain), Steady(v, v), v).0 == Steady(v, v)
    ensures Step(LowShelfDesign(m, sampleRate, cutoff, gain), Steady(v, v), v).1 == DbToGain(m, gain) * v
  {
    var c := LowShelfDesign(m, sampleRate, cutoff, gain);
    var inner := c.(c0 := 1.0, d0 := 0.0);
    UnityDcFixedPoint(inner, v);
    assert Recurrence(c, Steady(v, v), v) == Recurrence(inner, Steady(v, v), v) == v;
    var u := DbToGain(m, gain);
    assert c.c0 == u - 1.0 && c.d0 == 1.0;
    assert (u - 1.0) * v + 1.0 * v == u * v;
    assert Step(c, Steady(v, v), v).1 == c.c0 * v + c.d0 * v == u * v;
    assert Step(c, Steady(v, v), v).0 == Steady(v, v);
  }

  /** A high shelf leaves DC unchanged. */
  lemma HighShelfDcGain(m: Libm, sampleRate: real, cutoff: real, gain: real, v: real)
    requires HighShelfDefined(m, sampleRate, cutoff, gain)
    ensures Step(HighShelfDesign(m, sampleRate, cutoff, gain), Steady(v, 0.0), v) == (Steady(v, 0.0), v)
  {
    var c := HighShelfDesign(m, sampleRate, cutoff, gain);
    var inner := c.(c0 := 1.0, d0 := 0.0);
    BlockedDcFixedPoint(inner, v);
    assert Recurrence(c, Steady(v, 0.0), v) == Recurrence(inner, Steady(v, 0.0), v);
  }

  /** The intermediate sums of `peak_coefficients`, with `k = tan(π·cutoff/sr)` and
      `v` the linear gain. */
  datatype PeakTerms = PeakTerms(d0: real, e: real, alpha: real, beta: real, y: real, d: real, p: real)

  function PeakTermsOf(m: Libm, sampleRate: real, cutoff: real, q: real, gain: real): PeakTerms
    requires sampleRate != 0.0 && q != 0.0
  {
    var k := Prewarp(m, sampleRate, cutoff);
    var v := DbToGain(m, gain);
    PeakTerms(
      1.0 + (1.0 / q) * k + k * k,
      1.0 + (1.0 / (q * v)) * k + k * k,
      1.0 + (v / q) * k + k * k,
      2.0 * (k * k - 1.0),
      1.0 - (v / q) * k + k * k,
      1.0 - (1.0 / q) * k + k * k,
      1.0 - (1.0 / (q * v)) * k + k * k)
  }

  predicate PeakDefined(m: Libm, sampleRate: real, cutoff: real, q: real, gain: real) {
    sampleRate != 0.0 && q != 0.0 &&
    (gain >= 0.0 ==> PeakTermsOf(m, sampleRate, cutoff, q, gain).d0 != 0.0) &&
    (gain < 0.0 ==> PeakTermsOf(m, sampleRate, cutoff, q, gain).e != 0.0)
  }

  /** `peak_coefficients`: a boost (gain ≥ 0) and a cut design. */
  function PeakDesign(m: Libm, sampleRate: real, cutoff: real, q: real, gain: real): (c: BiquadCoefficients)
    requires PeakDefined(m, sampleRate, cutoff, q, gain)
    ensures PlainOutput(c) && UnityDc(c)
    ensures c.a1 == c.b0
  {
    var t := PeakTermsOf(m, sampleRate, cutoff, q, gain);
    PeakSums(m, sampleRate, cutoff, q, gain);
    if gain >= 0.0 then
      OverCommonDenominator(t.alpha, t.beta, t.y, t.beta, t.d, t.d0);
      BiquadCoefficients(t.alpha / t.d0, t.beta / t.d0, t.y / t.d0, t.beta / t.d0, t.d / t.d0, 1.0, 0.0)
    else
      OverCommonDenominator(t.d0, t.beta, t.d, t.beta, t.p, t.e);
      BiquadCoefficients(t.d0 / t.e, t.beta / t.e, t.d / t.e, t.beta / t.e, t.p / t.e, 1.0, 0.0)
  }

  lemma PeakSums(m: Libm, sampleRate: real, cutoff: real, q: real, gain: real)
    requires sampleRate != 0.0 && q != 0.0
    ensures var t := PeakTermsOf(m, sampleRate, cutoff, q, gain);
      t.alpha + t.beta + t.y == t.d0 + t.beta + t.d &&
      t.d0 + t.beta + t.d == t.e + t.beta + t.p
  {
  }

  // ---------------------------------------------------------------------------
  // The dispatch of `coefficients`.

  predicate IsShelf(t: FilterType) {
    t == LowShelf || t == HighShelf
  }

  predicate Designable(t: FilterType, m: Libm, sampleRate: real, cutoff: real, q: real, gain: real) {
    match t
    case LowPass1 => FirstOrderDefined(m, sampleRate, cutoff)
    case HighPass1 => FirstOrderDefined(m, sampleRate, cutoff)
    case LowPass2 => SecondOrderDefined(m, sampleRate, cutoff, q)
    case HighPass2 => SecondOrderDefined(m, sampleRate, cutoff, q)
    case BandPass => BandDefined(m, sampleRate, cutoff, q)
    case Notch => BandDefined(m, sampleRate, cutoff, q)
    case FirstOrderAllPass => FirstOrderAllpassDefined(m, sampleRate, cutoff)
    case SecondOrderAllPass => SecondOrderAllpassDefined(m, sampleRate, cutoff, q)
    case LowShelf => LowShelfDefined(m, sampleRate, cutoff, gain)
    case HighShelf => HighShelfDefined(m, sampleRate, cutoff, gain)
    case Peak => PeakDefined(m, sampleRate, cutoff, q, gain)
  }

  /** The design `coefficients` selects for a filter type. */
  function Design(t: FilterType, m: Libm, sampleRate: real, cutoff: real, q: real, gain: real): BiquadCoefficients
    requires Designable(t, m, sampleRate, cutoff, q, gain)
  {
    match t
    case LowPass1 => FirstOrderLpf(m, sampleRate, cutoff)
    case LowPass2 => SecondOrderLpf(m, sampleRate, cutoff, q)
    case HighPass1 => FirstOrderHpf(m, sampleRate, cutoff)
    case HighPass2 => SecondOrderHpf(m, sampleRate, cutoff, q)
    case BandPass => BandPassDesign(m, sampleRate, cutoff, q)
    case Notch => NotchDesign(m, sampleRate, cutoff, q)
    case FirstOrderAllPass => FirstOrderAllpass(m, sampleRate, cutoff)
    case SecondOrderAllPass => SecondOrderAllpass(m, sampleRate, cutoff, q)
    case LowShelf => LowShelfDesign(m, sampleRate, cutoff, gain)
    case HighShelf => HighShelfDesign(m, sampleRate, cutoff, gain)
    case Peak => PeakDesign(m, sampleRate, cutoff, q, gain)
  }

  /** Only the two shelves post-scale (`c0 = u − 1, d0 = 1`); every other design,
      the peak included, outputs the raw recurrence. */
  lemma DesignPostScale(t: FilterType, m: Libm, sampleRate: real, cutoff: real, q: real, gain: real)
    requires Designable(t, m, sampleRate, cutoff, q, gain)
    ensures var c := Design(t, m, sampleRate, cutoff, q, gain);
      if IsShelf(t) then c.c0 == DbToGain(m, gain) - 1.0 && c.d0 == 1.0 else PlainOutput(c)
  {
  }

  /** Low-passes, the notch, the all-passes and the peak pass DC at unit gain;
      high-passes and the band-pass block it. */
  lemma DesignDcResponse(t: FilterType, m: Libm, sampleRate: real, cutoff: real, q: real, gain: real)
    requires Designable(t, m, sampleRate, cutoff, q, gain)
    ensures var c := Design(t, m, sampleRate, cutoff, q, gain);
      (t in {LowPass1, LowPass2, Notch, FirstOrderAllPass, SecondOrderAllPass, LowShelf, Peak} ==> UnityDc(c)) &&
      (t in {HighPass1, HighPass2, BandPass, HighShelf} ==> BlocksDc(c))
  {
  }

  class BiquadFilter {
    var coeffs: BiquadCoefficients
    var left: ChannelState
    var right: ChannelState
    var sampleRate: real

    /** `BiquadFilter::new`: silent until designed, sample rate 44100. */
    constructor ()
      ensures coeffs == InitialCoefficients
      ensures left == ZeroState && right == ZeroState
      ensures sampleRate == 44100.0
    {
      coeffs := InitialCoefficients;
      left, right := ZeroState, ZeroState;
      sampleRate := 44100.0;
    }

    method SetSampleRate(sampleRate: real)
      modifies this`sampleRate
      ensures this.sampleRate == sampleRate
    {
      this.sampleRate := sampleRate;
    }

    /** `reset_filter`: both histories to zero; coefficients and rate untouched. */
    method ResetFilter()
      modifies this`left, this`right
      ensures left == ZeroState && right == ZeroState
    {
      left := ZeroState;
      right := ZeroState;
    }

    /** `process_left`: one step of the left history only. */
    method ProcessLeft(x: real) returns (y: real)
      modifies this`left
      ensures (left, y) == Step(coeffs, old(left), x)
    {
      var raw := coeffs.a0 * x + coeffs.a1 * left.x1 + coeffs.a2 * left.x2
        - coeffs.b0 * left.y1 - coeffs.b1 * left.y2;
      assert raw == Recurrence(coeffs, left, x);
      left := ChannelState(x, left.x1, raw, left.y1);
      y := coeffs.c0 * raw + coeffs.d0 * x;
    }

    /** `process_right`: one step of the right history only. */
    method ProcessRight(x: real) returns (y: real)
      modifies this`right
      ensures (right, y) == Step(coeffs, old(right), x)
    {
      var raw := coeffs.a0 * x + coeffs.a1 * right.x1 + coeffs.a2 * right.x2
        - coeffs.b0 * right.y1 - coeffs.b1 * right.y2;
      assert raw == Recurrence(coeffs, right, x);
      right := ChannelState(x, right.x1, raw, right.y1);
      y := coeffs.c0 * raw + coeffs.d0 * x;
    }

    /** `set_coefficients`. */
    method SetCoefficients(c: BiquadCoefficients)
      modifies this`coeffs
      ensures coeffs == c
    {
      coeffs := c;
    }

    /** `get_coefficient`; `None` is the panic on an index above 6. */
    function Coefficient(i: nat): (r: Option<real>)
      reads this
      ensures r.None? <==> i > 6
      ensures i == 0 ==> r == Some(coeffs.a0)
      ensures i == 1 ==> r == Some(coeffs.a1)
      ensures i == 2 ==> r == Some(coeffs.a2)
      ensures i == 3 ==> r == Some(coeffs.b0)
      ensures i == 4 ==> r == Some(coeffs.b1)
      ensures i == 5 ==> r == Some(coeffs.c0)
      ensures i == 6 ==> r == Some(coeffs.d0)
    {
      match i
      case 0 => Some(coeffs.a0)
      case 1 => Some(coeffs.a1)
      case 2 => Some(coeffs.a2)
      case 3 => Some(coeffs.b0)
      case 4 => Some(coeffs.b1)
      case 5 => Some(coeffs.c0)
      case 6 => Some(coeffs.d0)
      case _ => None
    }

    /** `get_s_value`: the sum of the coefficients at indices 1 to 4. */
    function SValue(): (s: real)
      reads this
      ensures s == Coefficient(1).value + Coefficient(2).value + Coefficient(3).value + Coefficient(4).value
    {
      coeffs.a1 + coeffs.a2 + coeffs.b0 + coeffs.b1
    }

    method FirstOrderLpfCoefficients(m: Libm, sampleRate: real, cutoff: real)
      requires FirstOrderDefined(m, sampleRate, cutoff)
      modifies this`coeffs
      ensures coeffs == FirstOrderLpf(m, sampleRate, cutoff)
    {
      coeffs := FirstOrderLpf(m, sampleRate, cutoff);
    }

    method FirstOrderHpfCoefficients(m: Libm, sampleRate: real, cutoff: real)
      requires FirstOrderDefined(m, sampleRate, cutoff)
      modifies this`coeffs
      ensures coeffs == FirstOrderHpf(m, sampleRate, cutoff)
    {
      coeffs := FirstOrderHpf(m, sampleRate, cutoff);
    }

    method SecondOrderLpfCoefficients(m: Libm, sampleRate: real, cutoff: real, q: real)
      requires SecondOrderDefined(m, sampleRate, cutoff, q)
      modifies this`coeffs
      ensures coeffs == SecondOrderLpf(m, sampleRate, cutoff, q)
    {
      coeffs := SecondOrderLpf(m, sampleRate, cutoff, q);
    }

    method SecondOrderHpfCoefficients(m: Libm, sampleRate: real, cutoff: real, q: real)
      requires SecondOrderDefined(m, sampleRate, cutoff, q)
      modifies this`coeffs
      ensures coeffs == SecondOrderHpf(m, sampleRate, cutoff, q)
    {
      coeffs := SecondOrderHpf(m, sampleRate, cutoff, q);
    }

    method BandPassCoefficients(m: Libm, sampleRate: real, cutoff: real, q: real)
      requires BandDefined(m, sampleRate, cutoff, q)
      modifies this`coeffs
      ensures coeffs == BandPassDesign(m, sampleRate, cutoff, q)
    {
      coeffs := BandPassDesign(m, sampleRate, cutoff, q);
    }

    method NotchCoefficients(m: Libm, sampleRate: real, cutoff: real, q: real)
      requires BandDefined(m, sampleRate, cutoff, q)
      modifies this`coeffs
      ensures coeffs == NotchDesign(m, sampleRate, cutoff, q)
    {
      coeffs := NotchDesign(m, sampleRate, cutoff, q);
    }

    method FirstOrderAllpassCoefficients(m: Libm, sampleRate: real, cutoff: real)
      requires FirstOrderAllpassDefined(m, sampleRate, cutoff)
      modifies this`coeffs
      ensures coeffs == FirstOrderAllpass(m, sampleRate, cutoff)
    {
      coeffs := FirstOrderAllpass(m, sampleRate, cutoff);
    }

    method SecondOrderAllpassCoefficients(m: Libm, sampleRate: real, cutoff: real, q: real)
      requires SecondOrderAllpassDefined(m, sampleRate, cutoff, q)
      modifies this`coeffs
      ensures coeffs == SecondOrderAllpass(m, sampleRate, cutoff, q)
    {
      coeffs := SecondOrderAllpass(m, sampleRate, cutoff, q);
    }

    method LowShelfCoefficients(m: Libm, sampleRate: real, cutoff: real, gain: real)
      requires LowShelfDefined(m, sampleRate, cutoff, gain)
      modifies this`coeffs
      ensures coeffs == LowShelfDesign(m, sampleRate, cutoff, gain)
    {
      coeffs := LowShelfDesign(m, sampleRate, cutoff, gain);
    }

    method HighShelfCoefficients(m: Libm, sampleRate: real, cutoff: real, gain: real)
      requires HighShelfDefined(m, sampleRate, cutoff, gain)
      modifies this`coeffs
      ensures coeffs == HighShelfDesign(m, sampleRate, cutoff, gain)
    {
      coeffs := HighShelfDesign(m, sampleRate, cutoff, gain);
    }

    method PeakCoefficients(m: Libm, sampleRate: real, cutoff: real, q: real, gain: real)
      requires PeakDefined(m, sampleRate, cutoff, q, gain)
      modifies this`coeffs
      ensures coeffs == PeakDesign(m, sampleRate, cutoff, q, gain)
    {
      coeffs := PeakDesign(m, sampleRate, cutoff, q, gain);
    }

    /** `coefficients`: the design matching `t`, always at the stored sample rate. */
    method Coefficients(m: Libm, t: FilterType, cutoff: real, q: real, gain: real)
      requires Designable(t, m, sampleRate, cutoff, q, gain)
      modifies this`coeffs
      ensures coeffs == Design(t, m, sampleRate, cutoff, q, gain)
    {
      match t
      case LowPass1 => FirstOrderLpfCoefficients(m, sampleRate, cutoff);
      case LowPass2 => SecondOrderLpfCoefficients(m, sampleRate, cutoff, q);
      case HighPass1 => FirstOrderHpfCoefficients(m, sampleRate, cutoff);
      case HighPass2 => SecondOrderHpfCoefficients(m, sampleRate, cutoff, q);
      case BandPass => BandPassCoefficients(m, sampleRate, cutoff, q);
      case Notch => NotchCoefficients(m, sampleRate, cutoff, q);
      case FirstOrderAllPass => FirstOrderAllpassCoefficients(m, sampleRate, cutoff);
      case SecondOrderAllPass => SecondOrderAllpassCoefficients(m, sampleRate, cutoff, q);
      case LowShelf => LowShelfCoefficients(m, sampleRate, cutoff, gain);
      case HighShelf => HighShelfCoefficients(m, sampleRate, cutoff, gain);
      case Peak => PeakCoefficients(m, sampleRate, cutoff, q, gain);
    }
  }
}
