/** The stereo phaser of phaser_vst/src/phaser.rs: up to six first-order
    all-pass stages (in pairs) whose corners one shared LFO sweeps through fixed
    per-stage ranges, a feedback register per side, and an intensity crossfade.
    Both sides run the same bank of filters, each on its own channel history. */
module Phaser {
  import opened Libm
  import opened Numeric
  import opened Buffers
  import opened Ownership
  import opened Biquad
  import opened Cascade
  import Lfo

  /** `PHASER_DELAYS`: the corner range of stage `i` is entries `2i` and `2i + 1`. */
  const PhaserDelays: seq<real> := [
    16.0, 1600.0,
    33.0, 3300.0,
    48.0, 4800.0,
    98.0, 9800.0,
    160.0, 16000.0,
    260.0, 20480.0]

  /** All-pass stages built by `new`. */
  const Stages: nat := 6

  /** Length of the feedback registers `new` builds. */
  const InitialRegisterLength: nat := 1000

  /** `new` ignores its argument for the stored rate. */
  const InitialSampleRate: real := 44100.0

  /** `lerp(a, b, t) = a + (b − a) · t`: `t = 0` gives `a`, `t = 1` gives `b`. */
  function Lerp(a: real, b: real, t: real): (r: real)
    ensures t == 0.0 ==> r == a
    ensures t == 1.0 ==> r == b
  {
    a + (b - a) * t
  }

  /** For `t` in [0, 1] the interpolation stays between its end points. */
  lemma LerpBetween(a: real, b: real, t: real)
    requires a <= b && 0.0 <= t <= 1.0
    ensures a <= Lerp(a, b, t) <= b
  {
    FractionOfSpan(t, b - a);
    assert Lerp(a, b, t) == a + t * (b - a);
  }

  /** Where the corners sit in their ranges: `lfo · depth + offset` clamped to
      [−1, 1] and mapped onto [0, 1]. */
  function Sweep(lfoValue: real, depth: real, offset: real): (t: real)
    ensures 0.0 <= t <= 1.0
    ensures lfoValue * depth + offset <= -1.0 ==> t == 0.0
    ensures lfoValue * depth + offset >= 1.0 ==> t == 1.0
  {
    Clamp(lfoValue * depth + offset, -1.0, 1.0) / 2.0 + 0.5
  }

  /** The corner of stage `i` at sweep position `t`: within the stage's range,
      at its low end for `t = 0` and its high end for `t = 1`. */
  function StageCutoff(i: nat, t: real): (f: real)
    requires i < Stages && 0.0 <= t <= 1.0
    ensures PhaserDelays[2 * i] <= f <= PhaserDelays[2 * i + 1]
    ensures t == 0.0 ==> f == PhaserDelays[2 * i]
    ensures t == 1.0 ==> f == PhaserDelays[2 * i + 1]
  {
    LerpBetween(PhaserDelays[2 * i], PhaserDelays[2 * i + 1], t);
    Lerp(PhaserDelays[2 * i], PhaserDelays[2 * i + 1], t)
  }

  /** The corners of the first `count` stages at sweep position `t`. */
  function Cutoffs(count: nat, t: real): (fs: seq<real>)
    requires count <= Stages && 0.0 <= t <= 1.0
    ensures |fs| == count
    ensures forall i :: 0 <= i < count ==> fs[i] == StageCutoff(i, t)
  {
    seq(count, i requires 0 <= i < count => StageCutoff(i, t))
  }

  /** Every corner can be designed (its divisor is non-zero). */
  predicate Designs(m: Libm, sampleRate: real, cutoffs: seq<real>) {
    forall j :: 0 <= j < |cutoffs| ==> FirstOrderAllpassDefined(m, sampleRate, cutoffs[j])
  }

  /** The first-order all-pass designed for each corner, in stage order. */
  function Designed(m: Libm, sampleRate: real, cutoffs: seq<real>): (cs: seq<BiquadCoefficients>)
    requires Designs(m, sampleRate, cutoffs)
    ensures |cs| == |cutoffs|
    ensures forall j :: 0 <= j < |cutoffs| ==> cs[j] == FirstOrderAllpass(m, sampleRate, cutoffs[j])
  {
    seq(|cutoffs|, j requires 0 <= j < |cutoffs| => FirstOrderAllpass(m, sampleRate, cutoffs[j]))
  }

  /** The phased signal is a chain of all-passes: a constant level at which every
      active stage rests passes through unchanged and leaves every stage at
      rest, whatever the corners. */
  lemma PhasedPassesSteadyLevel(m: Libm, sampleRate: real, cutoffs: seq<real>, ss: seq<ChannelState>, v: real)
    requires Designs(m, sampleRate, cutoffs) && |cutoffs| <= |ss|
    requires forall j :: 0 <= j < |cutoffs| ==> ss[j] == Steady(v, v)
    ensures Run(Designed(m, sampleRate, cutoffs), ss, |cutoffs|, v) == v
    ensures forall k :: 0 <= k < |cutoffs| ==> StageAfter(Designed(m, sampleRate, cutoffs), ss, v, k) == Steady(v, v)
  {
    SteadyLevelPasses(Designed(m, sampleRate, cutoffs), ss, |cutoffs|, v);
  }

  /** The stage input `x + feedback · register[0]`. */
  function FeedbackInput(x: real, feedback: real, last: real): real {
    x + feedback * last
  }

  /** The output: `(1 − intensity/2) · x + intensity/2 · phased`. */
  function Output(x: real, phased: real, intensity: real): real {
    (1.0 - intensity / 2.0) * x + intensity / 2.0 * phased
  }

  /** The output moves from the dry input (intensity 0) to the phased signal
      (intensity 2) in proportion to the intensity; intensity 1 is the even mix
      that makes the notches. */
  lemma OutputCrossfades(x: real, phased: real, intensity: real)
    ensures Output(x, phased, intensity) == x + intensity / 2.0 * (phased - x)
    ensures Output(x, phased, 0.0) == x
    ensures Output(x, phased, 2.0) == phased
    ensures Output(x, phased, 1.0) == (x + phased) / 2.0
  {
  }

  class Phaser {
    var leftFeedbackBuffer: seq<real>
    var rightFeedbackBuffer: seq<real>
    const allpasses: seq<BiquadFilter>
    var feedback: real
    var rate: real
    var sampleRate: real
    const lfo: Lfo.Lfo
    var depth: real
    var stages: nat
    var offset: real
    var intensity: real

    /** Six stages, no two the same object. */
    ghost predicate Owned() {
      |allpasses| == Stages && Unique(allpasses)
    }

    ghost predicate Valid()
      reads lfo
    {
      Owned() && lfo.Valid()
    }

    /** The sweep position of the current call: the LFO is read, not advanced. */
    function Position(m: Libm): real
      reads this`depth, this`offset, lfo
    {
      Sweep(lfo.NextValue(m), depth, offset)
    }

    /** What a process call needs: a feedback register to read, at most six active
        stages (`stages · 2` indexes the bank) and corners that can be designed
        at the stored rate. */
    ghost predicate CanProcess(m: Libm, register: seq<real>)
      reads this`stages, this`depth, this`offset, this`sampleRate, lfo
    {
      |register| > 0 && 2 * stages <= Stages &&
      Designs(m, sampleRate, Cutoffs(2 * stages, Position(m)))
    }

    /** `Phaser::new`: registers of 1000 zeros, six stages designed at their
        lowest corners with the given rate, an LFO at 0.2 Hz, no active stages,
        zero parameters, and a stored rate of 44100 whatever the argument. */
    constructor (m: Libm, sampleRate: real)
      requires sampleRate > 0.0
      requires forall i :: 0 <= i < Stages ==> FirstOrderAllpassDefined(m, sampleRate, PhaserDelays[2 * i])
      ensures Valid()
      ensures leftFeedbackBuffer == Zeros(InitialRegisterLength) && rightFeedbackBuffer == Zeros(InitialRegisterLength)
      ensures forall i :: 0 <= i < Stages ==>
        allpasses[i].coeffs == FirstOrderAllpass(m, sampleRate, PhaserDelays[2 * i]) &&
        allpasses[i].left == ZeroState && allpasses[i].right == ZeroState
      ensures lfo.sampleRate == sampleRate && lfo.rate == 0.2 && lfo.phase == 0.0
      ensures this.sampleRate == InitialSampleRate
      ensures feedback == 0.0 && rate == 0.0 && depth == 0.0 && stages == 0 && offset == 0.0 && intensity == 0.0
    {
      var l := ZeroFilled(InitialRegisterLength);
      var r := ZeroFilled(InitialRegisterLength);
      ghost var lows := Cutoffs(Stages, 0.0);
      assert forall i :: 0 <= i < Stages ==> lows[i] == PhaserDelays[2 * i];
      var bank := NewBank(Designed(m, sampleRate, Cutoffs(Stages, 0.0)), InitialSampleRate);
      leftFeedbackBuffer, rightFeedbackBuffer := l, r;
      allpasses := bank;
      feedback, rate := 0.0, 0.0;
      this.sampleRate := InitialSampleRate;
      lfo := new Lfo.Lfo(sampleRate, 0.2);
      depth, stages, offset, intensity := 0.0, 0, 0.0, 0.0;
    }

    /** `resize_buffers`: the rate is stored and given to the LFO, and both
        registers are refilled with `sample_rate as usize` zeros. The stages keep
        their state. */
    method ResizeBuffers(sampleRate: real)
      requires sampleRate > 0.0
      modifies this`sampleRate, this`leftFeedbackBuffer, this`rightFeedbackBuffer, lfo`sampleRate
      ensures this.sampleRate == sampleRate && lfo.sampleRate == sampleRate && lfo.Valid()
      ensures leftFeedbackBuffer == Zeros(ToUsize(sampleRate)) && rightFeedbackBuffer == Zeros(ToUsize(sampleRate))
    {
      this.sampleRate := sampleRate;
      leftFeedbackBuffer := ZeroFilled(ToUsize(sampleRate));
      rightFeedbackBuffer := ZeroFilled(ToUsize(sampleRate));
      lfo.sampleRate := sampleRate;
    }

    /** `set_params`: only scalars and the LFO rate change. */
    method SetParams(rate: real, depth: real, stages: nat, offset: real, feedback: real, intensity: real)
      modifies this`rate, lfo`rate, this`depth, this`offset, this`stages, this`intensity, this`feedback
      ensures this.rate == rate && lfo.rate == rate && this.depth == depth && this.offset == offset
      ensures this.stages == stages && this.intensity == intensity && this.feedback == feedback
    {
      this.rate := rate;
      lfo.rate := rate;
      this.depth := depth;
      this.offset := offset;
      this.stages := stages;
      this.intensity := intensity;
      this.feedback := feedback;
    }

    /** The coefficients a process call gives the active stages: the all-pass
        for each corner at the current sweep position. */
    ghost function Tuning(m: Libm): seq<BiquadCoefficients>
      requires CanProcess(m, [0.0])
      reads this`stages, this`depth, this`offset, this`sampleRate, lfo
    {
      Designed(m, sampleRate, Cutoffs(2 * stages, Position(m)))
    }

    /** `process_left`: the input plus feedback goes through the first
        `stages · 2` stages, each first designed for its corner at the current
        sweep position; the register takes the phased signal at its front; the
        LFO is read but not advanced, and the right histories are untouched. */
    method ProcessLeft(m: Libm, x: real) returns (y: real)
      requires Owned() && CanProcess(m, leftFeedbackBuffer)
      modifies allpasses`coeffs, allpasses`left, this`leftFeedbackBuffer
      ensures var phased := old(Run(Tuning(m), States(allpasses, Left), 2 * stages,
                                    FeedbackInput(x, feedback, leftFeedbackBuffer[0])));
        y == Output(x, phased, intensity) && Pushed(leftFeedbackBuffer, old(leftFeedbackBuffer), phased)
      ensures Processed(allpasses, Left, old(Tuning(m)), old(2 * stages), old(Coefficients(allpasses)),
                        old(States(allpasses, Left)), old(FeedbackInput(x, feedback, leftFeedbackBuffer[0])))
    {
      y := ProcessLeftAt(Designed(m, sampleRate, Cutoffs(2 * stages, Position(m))), x);
    }

    /** The body of `process_left` once the corners of this call are fixed:
        stage `i` gets `tuning[i]` and steps, in order, on the input plus
        feedback. */
    method ProcessLeftAt(tuning: seq<BiquadCoefficients>, x: real) returns (y: real)
      requires Owned() && |tuning| <= Stages && |leftFeedbackBuffer| > 0
      modifies allpasses`coeffs, allpasses`left, this`leftFeedbackBuffer
      ensures var phased := old(Run(tuning, States(allpasses, Left), |tuning|,
                                    FeedbackInput(x, feedback, leftFeedbackBuffer[0])));
        y == Output(x, phased, intensity) && Pushed(leftFeedbackBuffer, old(leftFeedbackBuffer), phased)
      ensures Processed(allpasses, Left, tuning, |tuning|, old(Coefficients(allpasses)),
                        old(States(allpasses, Left)), old(FeedbackInput(x, feedback, leftFeedbackBuffer[0])))
    {
      var input := FeedbackInput(x, feedback, leftFeedbackBuffer[0]);
      var phased := RetuneRunLeft(allpasses, tuning, input);
      leftFeedbackBuffer := Push(leftFeedbackBuffer, phased);
      y := Output(x, phased, intensity);
    }

    /** `process_right`: the right side as the left one, on the stages' right
        histories; then, once per stereo frame, the shared LFO advances. */
    method ProcessRight(m: Libm, x: real) returns (y: real)
      requires Valid() && CanProcess(m, rightFeedbackBuffer)
      modifies allpasses`coeffs, allpasses`right, this`rightFeedbackBuffer, lfo`phase
      ensures Valid()
      ensures lfo.phase == Lfo.Advance(old(lfo.phase), Lfo.Increment(lfo.rate, lfo.sampleRate))
      ensures var phased := old(Run(Tuning(m), States(allpasses, Right), 2 * stages,
                                    FeedbackInput(x, feedback, rightFeedbackBuffer[0])));
        y == Output(x, phased, intensity) && Pushed(rightFeedbackBuffer, old(rightFeedbackBuffer), phased)
      ensures Processed(allpasses, Right, old(Tuning(m)), old(2 * stages), old(Coefficients(allpasses)),
                        old(States(allpasses, Right)), old(FeedbackInput(x, feedback, rightFeedbackBuffer[0])))
    {
      y := ProcessRightAt(Designed(m, sampleRate, Cutoffs(2 * stages, Position(m))), x);
      lfo.UpdateLfo();
    }

    /** The body of `process_right` once the corners of this call are fixed,
        up to the LFO step. */
    method ProcessRightAt(tuning: seq<BiquadCoefficients>, x: real) returns (y: real)
      requires Owned() && |tuning| <= Stages && |rightFeedbackBuffer| > 0
      modifies allpasses`coeffs, allpasses`right, this`rightFeedbackBuffer
      ensures var phased := old(Run(tuning, States(allpasses, Right), |tuning|,
                                    FeedbackInput(x, feedback, rightFeedbackBuffer[0])));
        y == Output(x, phased, intensity) && Pushed(rightFeedbackBuffer, old(rightFeedbackBuffer), phased)
      ensures Processed(allpasses, Right, tuning, |tuning|, old(Coefficients(allpasses)),
                        old(States(allpasses, Right)), old(FeedbackInput(x, feedback, rightFeedbackBuffer[0])))
    {
      var input := FeedbackInput(x, feedback, rightFeedbackBuffer[0]);
      var phased := RetuneRunRight(allpasses, tuning, input);
      rightFeedbackBuffer := Push(rightFeedbackBuffer, phased);
      y := Output(x, phased, intensity);
    }
  }
}
