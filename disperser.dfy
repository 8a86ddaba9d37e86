/** The phase disperser of phase-disperser/src/disperser.rs: a bank of 200
    second-order all-passes of which the first `amount` run in series, with
    corners optionally spread over a range, followed by a fixed 30 Hz high-pass. */
module Disperser {
  import opened Libm
  import opened Numeric
  import opened Ownership
  import opened Biquad
  import opened Cascade

  /** The number of all-passes `resize_buffers` builds. */
  const BankSize: nat := 200

  /** `new` stores this amount before any bank exists. */
  const InitialAmount: nat := 200

  const InitialSampleRate: real := 44100.0

  /** The output high-pass: 30 Hz at q 0.707. */
  const HpfCutoff: real := 30.0
  const HpfQ: real := 0.707

  /** The spread range is cut at 300 Hz below and 15 kHz above. */
  const SpreadFloor: real := 300.0
  const SpreadCeiling: real := 15000.0

  /** A spread stage's corner is clamped into [400 Hz, 15 kHz]. */
  const CornerFloor: real := 400.0
  const CornerCeiling: real := 15000.0

  /** Half the spread range: `frequency · spread · 0.5`. */
  function SpreadOffset(frequency: real, spread: real): real {
    frequency * spread * 0.5
  }

  /** `spread_min`: `frequency` less the offset, raised to 300 Hz. */
  function SpreadMin(frequency: real, spread: real): (r: real)
    ensures r >= SpreadFloor
    ensures frequency - SpreadOffset(frequency, spread) >= SpreadFloor ==> r == frequency - SpreadOffset(frequency, spread)
  {
    var lo := frequency - SpreadOffset(frequency, spread);
    if lo < SpreadFloor then SpreadFloor else lo
  }

  /** `spread_max`: `frequency` plus the offset, cut to 15 kHz. */
  function SpreadMax(frequency: real, spread: real): (r: real)
    ensures r <= SpreadCeiling
    ensures frequency + SpreadOffset(frequency, spread) <= SpreadCeiling ==> r == frequency + SpreadOffset(frequency, spread)
  {
    var hi := frequency + SpreadOffset(frequency, spread);
    if hi > SpreadCeiling then SpreadCeiling else hi
  }

  /** Where stage `i` of `amount` sits in the spread:
      `(i as i32 − amount as i32 / 2) as f32 / (amount as f32 / 2.0)`, with the
      integer halving of `amount` before the subtraction. */
  function SpreadPosition(i: nat, amount: nat): real
    requires i < amount
  {
    (i - amount / 2) as real / (amount as real / 2.0)
  }

  /** The positions run from −1 (stage 0, for an even amount) up to below +1,
      and the middle stage `amount / 2` sits at 0. */
  lemma SpreadPositionRange(i: nat, amount: nat)
    requires i < amount
    ensures -1.0 <= SpreadPosition(i, amount) < 1.0
    ensures i == amount / 2 ==> SpreadPosition(i, amount) == 0.0
    ensures i == 0 && amount % 2 == 0 ==> SpreadPosition(i, amount) == -1.0
  {
    var h := amount as real / 2.0;
    var k := i as int - amount / 2;
    assert -(amount as int) <= 2 * k < amount by {
      assert amount == 2 * (amount / 2) + amount % 2;
    }
    assert 2.0 * (k as real) == (2 * k) as real;
    UnitQuotient(k as real, h);
    if i == 0 && amount % 2 == 0 {
      assert k as real == -h;
    }
  }

  /** A quotient by a positive `h` of a value in [−h, h) lies in [−1, 1). */
  lemma UnitQuotient(d: real, h: real)
    requires h > 0.0 && -h <= d < h
    ensures -1.0 <= d / h < 1.0
    ensures d == -h ==> d / h == -1.0
    ensures d == 0.0 ==> d / h == 0.0
  {
    QuotientAtLeast(d, h, -1.0);
    QuotientBelow(d, h, 1.0);
    assert (-h) / h == -1.0;
  }

  /** The positions rise with the stage index. */
  lemma SpreadPositionRises(i: nat, j: nat, amount: nat)
    requires i <= j < amount
    ensures SpreadPosition(i, amount) <= SpreadPosition(j, amount)
  {
    var h := amount as real / 2.0;
    var pi := SpreadPosition(i, amount);
    assert pi * h == (i - amount / 2) as real;
    QuotientAtLeast((j - amount / 2) as real, h, pi);
  }

  /** A corner clamped as `set_params` does it: cut to 15 kHz, then raised to 400 Hz. */
  function ClampCorner(f: real): (r: real)
    ensures CornerFloor <= r <= CornerCeiling
    ensures CornerFloor <= f <= CornerCeiling ==> r == f
  {
    var capped := if f > CornerCeiling then CornerCeiling else f;
    if capped < CornerFloor then CornerFloor else capped
  }

  /** The point at `position` of the way from `lo` towards `hi`. */
  function SpreadPoint(lo: real, hi: real, position: real): real {
    lo + (hi - lo) * position
  }

  /** The corner `set_params` gives stage `i` of `amount`: with a positive spread,
      the point at the stage's position from `spread_min` towards `spread_max`,
      clamped; otherwise the base `frequency` itself, unclamped. */
  function StageFrequency(frequency: real, spread: real, i: nat, amount: nat): (f: real)
    requires i < amount
    ensures spread > 0.0 ==> CornerFloor <= f <= CornerCeiling
    ensures spread <= 0.0 ==> f == frequency
  {
    if spread > 0.0 then
      ClampCorner(SpreadPoint(SpreadMin(frequency, spread), SpreadMax(frequency, spread), SpreadPosition(i, amount)))
    else
      frequency
  }

  /** The middle stage of a spread bank is tuned to `spread_min` (within the
      corner clamps), not to the base frequency: the spread runs from about
      `2·spread_min − spread_max` up to `spread_max`. */
  lemma MiddleStageAtSpreadMin(frequency: real, spread: real, amount: nat)
    requires spread > 0.0 && amount > 0
    requires CornerFloor <= SpreadMin(frequency, spread) <= CornerCeiling
    ensures StageFrequency(frequency, spread, amount / 2, amount) == SpreadMin(frequency, spread)
  {
    SpreadPositionRange(amount / 2, amount);
  }

  /** When the spread range is not inverted, the corners rise (weakly) with the
      stage index. */
  lemma StageFrequencyRises(frequency: real, spread: real, i: nat, j: nat, amount: nat)
    requires i <= j < amount
    requires SpreadMin(frequency, spread) <= SpreadMax(frequency, spread)
    ensures StageFrequency(frequency, spread, i, amount) <= StageFrequency(frequency, spread, j, amount)
  {
    if spread > 0.0 {
      var lo, hi := SpreadMin(frequency, spread), SpreadMax(frequency, spread);
      SpreadPositionRises(i, j, amount);
      SpreadPointRises(lo, hi, SpreadPosition(i, amount), SpreadPosition(j, amount));
    }
  }

  /** Along a range that is not inverted, the point moves up with the position. */
  lemma SpreadPointRises(lo: real, hi: real, p: real, q: real)
    requires lo <= hi && p <= q
    ensures SpreadPoint(lo, hi, p) <= SpreadPoint(lo, hi, q)
  {
    assert SpreadPoint(lo, hi, q) - SpreadPoint(lo, hi, p) == (hi - lo) * (q - p);
  }

  /** Every corner of the first `amount` stages can be designed at `sampleRate`. */
  predicate SpreadDesignable(m: Libm, sampleRate: real, frequency: real, q: real, spread: real, amount: nat) {
    forall i :: 0 <= i < amount ==> SecondOrderAllpassDefined(m, sampleRate, StageFrequency(frequency, spread, i, amount), q)
  }

  /** The all-pass `set_params` designs for each of the first `amount` stages. */
  function StageDesigns(m: Libm, sampleRate: real, frequency: real, q: real, spread: real, amount: nat)
    : (cs: seq<BiquadCoefficients>)
    requires SpreadDesignable(m, sampleRate, frequency, q, spread, amount)
    ensures |cs| == amount
    ensures forall i :: 0 <= i < amount ==>
      cs[i] == SecondOrderAllpass(m, sampleRate, StageFrequency(frequency, spread, i, amount), q)
  {
    seq(amount, i requires 0 <= i < amount =>
      SecondOrderAllpass(m, sampleRate, StageFrequency(frequency, spread, i, amount), q))
  }

  /** The dispersed signal is a chain of all-passes: a constant level at which
      every active stage rests passes the bank unchanged and leaves it at rest,
      whatever the spread. */
  lemma DispersedPassesSteadyLevel(m: Libm, sampleRate: real, frequency: real, q: real, spread: real,
                                   amount: nat, ss: seq<ChannelState>, v: real)
    requires SpreadDesignable(m, sampleRate, frequency, q, spread, amount) && amount <= |ss|
    requires forall j :: 0 <= j < amount ==> ss[j] == Steady(v, v)
    ensures Run(StageDesigns(m, sampleRate, frequency, q, spread, amount), ss, amount, v) == v
    ensures forall k :: 0 <= k < amount ==>
      StageAfter(StageDesigns(m, sampleRate, frequency, q, spread, amount), ss, v, k) == Steady(v, v)
  {
    SteadyLevelPasses(StageDesigns(m, sampleRate, frequency, q, spread, amount), ss, amount, v);
  }

  class Disperser {
    var allpasses: seq<BiquadFilter>
    const outputHpf: BiquadFilter
    var sampleRate: real
    var amount: nat

    /** The stages are distinct objects, none of them the output filter. */
    ghost predicate Valid()
      reads this
    {
      Unique(allpasses) && forall j :: 0 <= j < |allpasses| ==> allpasses[j] != outputHpf
    }

    /** `Disperser::new`: no stages yet, a silent output filter, 44100 and an
        amount of 200 (more than the empty bank holds until `resize_buffers`). */
    constructor ()
      ensures Valid() && allpasses == []
      ensures fresh(outputHpf) && outputHpf.coeffs == InitialCoefficients
      ensures outputHpf.left == ZeroState && outputHpf.right == ZeroState
      ensures sampleRate == InitialSampleRate && amount == InitialAmount
    {
      allpasses := [];
      outputHpf := new BiquadFilter();
      sampleRate := InitialSampleRate;
      amount := InitialAmount;
    }

    /** `resize_buffers`: a new bank of 200 fresh all-passes, each with the rate
        set and designed at `frequency` and `q`; the amount is stored as given
        and the output filter is redesigned as the 30 Hz high-pass. */
    method ResizeBuffers(m: Libm, sampleRate: real, frequency: real, q: real, amount: nat)
      requires SecondOrderAllpassDefined(m, sampleRate, frequency, q)
      requires SecondOrderDefined(m, sampleRate, HpfCutoff, HpfQ)
      modifies this`allpasses, this`sampleRate, this`amount, outputHpf`sampleRate, outputHpf`coeffs
      ensures Valid() && |allpasses| == BankSize
      ensures forall i :: 0 <= i < BankSize ==> fresh(allpasses[i])
      ensures forall i :: 0 <= i < BankSize ==>
        allpasses[i].coeffs == SecondOrderAllpass(m, sampleRate, frequency, q) &&
        allpasses[i].sampleRate == sampleRate &&
        allpasses[i].left == ZeroState && allpasses[i].right == ZeroState
      ensures this.sampleRate == sampleRate && this.amount == amount
      ensures outputHpf.sampleRate == sampleRate && outputHpf.coeffs == SecondOrderHpf(m, sampleRate, HpfCutoff, HpfQ)
    {
      this.sampleRate := sampleRate;
      this.amount := amount;
      var c := SecondOrderAllpass(m, sampleRate, frequency, q);
      allpasses := NewBank(seq(BankSize, _ => c), sampleRate);
      outputHpf.SetSampleRate(sampleRate);
      outputHpf.SecondOrderHpfCoefficients(m, sampleRate, HpfCutoff, HpfQ);
    }

    /** `set_params`: the first `amount` stages (the amount stored before the
        call) are redesigned for their corners at the stored rate; the stages
        from the new amount up to the old one are silenced (none when the
        amount grows or stays, which is all the source's `amount != self.amount`
        guard skips); then the new amount is stored. Stages a larger amount
        adds keep their design until the next call. */
    method SetParams(m: Libm, frequency: real, q: real, spread: real, amount: nat)
      requires Valid() && this.amount <= |allpasses|
      requires SpreadDesignable(m, sampleRate, frequency, q, spread, this.amount)
      modifies allpasses`coeffs, allpasses`left, allpasses`right, this`amount
      ensures this.amount == amount
      ensures forall j :: 0 <= j < old(this.amount) ==>
        allpasses[j].coeffs == SecondOrderAllpass(m, sampleRate, StageFrequency(frequency, spread, j, old(this.amount)), q)
      ensures forall j :: old(this.amount) <= j < |allpasses| ==> allpasses[j].coeffs == old(allpasses[j].coeffs)
      ensures forall j :: 0 <= j < |allpasses| ==>
        if amount <= j < old(this.amount) then allpasses[j].left == ZeroState && allpasses[j].right == ZeroState
        else allpasses[j].left == old(allpasses[j].left) && allpasses[j].right == old(allpasses[j].right)
    {
      var cs := StageDesigns(m, sampleRate, frequency, q, spread, this.amount);
      RetuneAndReset(allpasses, cs, amount, this.amount);
      this.amount := amount;
    }

    /** `process_left`: the input runs through stages `0..amount` in order on
        their left histories, then through the output high-pass; later stages,
        all coefficients and every right history are untouched. */
    method ProcessLeft(x: real) returns (y: real)
      requires Valid() && amount <= |allpasses|
      modifies allpasses`left, outputHpf`left
      ensures Stepped(allpasses, Left, old(Coefficients(allpasses)), amount, old(States(allpasses, Left)), x)
      ensures (outputHpf.left, y) ==
        Step(outputHpf.coeffs, old(outputHpf.left), old(Run(Coefficients(allpasses), States(allpasses, Left), amount, x)))
    {
      var dispersed := RunLeft(allpasses, amount, x);
      y := outputHpf.ProcessLeft(dispersed);
    }

    /** `process_right`: the same on the right histories. */
    method ProcessRight(x: real) returns (y: real)
      requires Valid() && amount <= |allpasses|
      modifies allpasses`right, outputHpf`right
      ensures Stepped(allpasses, Right, old(Coefficients(allpasses)), amount, old(States(allpasses, Right)), x)
      ensures (outputHpf.right, y) ==
        Step(outputHpf.coeffs, old(outputHpf.right), old(Run(Coefficients(allpasses), States(allpasses, Right), amount, x)))
    {
      var dispersed := RunRight(allpasses, amount, x);
      y := outputHpf.ProcessRight(dispersed);
    }
  }
}
