/** The stereo flanger of flanger/src/flanger.rs: per side one interpolating
    delay line read at an LFO-swept distance of at most 15 ms, a one-sample
    feedback register, a wet/dry mix renormalised when the gains sum above one,
    and a shared output high-pass. */
module Flanger {
  import opened Libm
  import opened Numeric
  import opened Buffers
  import FractionalDelay
  import Lfo
  import Biquad

  /** `MAX_FLANGER_DELAY`: the deepest sweep, in seconds. */
  const MaxFlangerDelay: real := 0.015

  /** Cut-off and Q of the output high-pass that `resize_buffers` designs. */
  const HpfCutoff: real := 30.0
  const HpfQ: real := 0.750

  /** Where each side's LFO value is mapped before it scales the depth: the left
      sweep reaches down to no delay at all, the right one stops at 5 % of the
      depth. */
  const LeftRangeStart: real := 0.0
  const RightRangeStart: real := 0.05

  /** `calculated_depth = depth · MAX_FLANGER_DELAY · sample_rate`: the sweep depth
      in samples. */
  function CalculatedDepth(depth: real, sampleRate: real): (d: real)
    ensures 0.0 <= depth <= 1.0 && sampleRate >= 0.0 ==> 0.0 <= d <= MaxFlangerDelay * sampleRate
  {
    DepthBound(depth, sampleRate);
    depth * MaxFlangerDelay * sampleRate
  }

  lemma DepthBound(depth: real, sampleRate: real)
    ensures 0.0 <= depth <= 1.0 && sampleRate >= 0.0 ==>
      0.0 <= depth * MaxFlangerDelay * sampleRate <= MaxFlangerDelay * sampleRate
  {
    if 0.0 <= depth <= 1.0 && sampleRate >= 0.0 {
      FractionOfSpan(depth, MaxFlangerDelay * sampleRate);
      assert depth * MaxFlangerDelay * sampleRate == depth * (MaxFlangerDelay * sampleRate);
    }
  }

  /** The delay a side asks its delay line for: its mapped LFO value times the
      depth, in samples. */
  function Request(lfoValue: real, calculatedDepth: real): real {
    lfoValue * calculatedDepth
  }

  /** The delay-line input `x + register · feedback`. */
  function FeedbackInput(x: real, register: real, feedback: real): real {
    x + register * feedback
  }

  /** The mix handed to the output high-pass: `dry · x + wet · delayed`, divided by
      `wet + dry` when that sum exceeds one. */
  function Mix(x: real, delayed: real, wet: real, dry: real): real {
    var out := dry * x + wet * delayed;
    if wet + dry > 1.0 then out / (wet + dry) else out
  }

  /** Renormalisation turns gains summing above one into the weights of an
      average; gains summing to at most one are used as they are. */
  lemma MixWeights(x: real, delayed: real, wet: real, dry: real)
    ensures wet + dry > 1.0 ==>
      var s := wet + dry;
      Mix(x, delayed, wet, dry) == (dry / s) * x + (wet / s) * delayed && dry / s + wet / s == 1.0
    ensures wet + dry <= 1.0 ==> Mix(x, delayed, wet, dry) == dry * x + wet * delayed
  {
    if wet + dry > 1.0 {
      var s := wet + dry;
      assert (dry * x + wet * delayed) / s == (dry / s) * x + (wet / s) * delayed;
      assert dry / s + wet / s == s / s;
    }
  }

  /** With non-negative gains the mix never leaves the range both of its inputs
      lie in. */
  lemma MixBounded(x: real, delayed: real, wet: real, dry: real, bound: real)
    requires wet >= 0.0 && dry >= 0.0
    requires -bound <= x <= bound && -bound <= delayed <= bound
    ensures -bound <= Mix(x, delayed, wet, dry) <= bound
  {
    var s := wet + dry;
    var out := dry * x + wet * delayed;
    SumWithin(x, delayed, wet, dry, bound);
    if s > 1.0 {
      DivideWithin(out, s, bound);
      assert Mix(x, delayed, wet, dry) == out / s;
    } else {
      Scaled(bound, s, 1.0);
      assert s * bound <= bound;
      assert -(s * bound) <= out <= s * bound;
      assert -bound <= out <= bound;
      assert Mix(x, delayed, wet, dry) == out;
    }
  }

  lemma SumWithin(x: real, delayed: real, wet: real, dry: real, bound: real)
    requires wet >= 0.0 && dry >= 0.0
    requires -bound <= x <= bound && -bound <= delayed <= bound
    ensures -((wet + dry) * bound) <= dry * x + wet * delayed <= (wet + dry) * bound
  {
    Scaled(dry, x, bound);
    Scaled(wet, delayed, bound);
    assert (wet + dry) * bound == dry * bound + wet * bound;
  }

  lemma DivideWithin(v: real, s: real, bound: real)
    requires s > 0.0 && -(s * bound) <= v <= s * bound
    ensures -bound <= v / s <= bound
  {
    assert v / s * s == v;
  }

  lemma Scaled(p: real, a: real, bound: real)
    requires p >= 0.0 && -bound <= a <= bound
    ensures -(p * bound) <= p * a <= p * bound
  {
    assert p * (bound - a) >= 0.0;
    assert p * (a + bound) >= 0.0;
  }

  /** The delay a side asks for: its LFO value in `start..1` times the depth.
      With a depth set from `depth ∈ [0, 1]` at a sample rate of at least one
      sample per second, the request lies between `start · calculated_depth` and
      15 ms, inside the one-second ring, so the read position is a point of the
      ring (never the negative position of an overlong delay). */
  lemma RequestInsideRing(v: real, start: real, depth: real, sampleRate: real, w: nat)
    requires 0.0 <= start <= v <= 1.0 && 0.0 <= depth <= 1.0 && sampleRate >= 1.0
    requires w < FractionalDelay.MaxDelay * ToUsize(sampleRate)
    ensures var cd := CalculatedDepth(depth, sampleRate);
      var n := FractionalDelay.MaxDelay * ToUsize(sampleRate);
      start * cd <= Request(v, cd) <= MaxFlangerDelay * sampleRate < n as real &&
      0.0 <= FractionalDelay.ReadIndex(w, n, Request(v, cd)) < n as real
  {
    var cd := CalculatedDepth(depth, sampleRate);
    var n := FractionalDelay.MaxDelay * ToUsize(sampleRate);
    RequestWithinDepth(v, start, cd, MaxFlangerDelay * sampleRate);
    RingHoldsLongestDelay(sampleRate);
  }

  /** A request from an LFO value in `start..1` lies between `start · depth` and
      the depth, so below any bound on the depth. */
  lemma RequestWithinDepth(v: real, start: real, cd: real, bound: real)
    requires 0.0 <= start <= v <= 1.0 && 0.0 <= cd <= bound
    ensures start * cd <= Request(v, cd) <= bound
  {
    Scaled(cd, v - start, v - start);
    assert cd * (v - start) == v * cd - start * cd;
    FractionOfSpan(v, cd);
  }

  /** A one-second ring at a rate of at least one sample per second holds more
      than the 15 ms longest flanger delay. */
  lemma RingHoldsLongestDelay(sampleRate: real)
    requires sampleRate >= 1.0
    ensures MaxFlangerDelay * sampleRate < (FractionalDelay.MaxDelay * ToUsize(sampleRate)) as real
  {
    var n := ToUsize(sampleRate);
    assert sampleRate < n as real + 1.0 && n >= 1;
  }

  /** At the trough of the left LFO (sine −1) the left request is no delay at all,
      and the delay line returns the sample it was just given. */
  lemma LeftTroughPassesInput(r: FractionalDelay.Ring, x: real, v: real, cd: real)
    requires FractionalDelay.RingReady(r) && v == Lfo.Remap(-1.0, LeftRangeStart, 1.0)
    ensures FractionalDelay.Read(r, x, v * cd) == x
  {
    FractionalDelay.ZeroDelayIsIdentity(r.xs, r.w, x);
  }

  class Flanger {
    var sampleRate: real
    var depth: real
    var calculatedDepth: real
    var rate: real
    var feedback: real
    const leftLfo: Lfo.Lfo
    const rightLfo: Lfo.Lfo
    const leftDelay: FractionalDelay.Delay
    const rightDelay: FractionalDelay.Delay
    var leftFeedbackBuffer: real
    var rightFeedbackBuffer: real
    var useStereoLfo: bool
    var wet: real
    var dry: real
    const outHpf: Biquad.BiquadFilter

    /** Each side owns its LFO and its delay line. */
    ghost predicate Owned() {
      leftLfo != rightLfo && leftDelay != rightDelay
    }

    /** Owned components and LFOs that can advance. */
    ghost predicate Valid()
      reads leftLfo, rightLfo
    {
      Owned() && leftLfo.Valid() && rightLfo.Valid()
    }

    /** The LFO that modulates the right side: its own in stereo mode, else the
        left one. */
    function RightModulator(): Lfo.Lfo
      reads this`useStereoLfo
    {
      if useStereoLfo then rightLfo else leftLfo
    }

    /** `Flanger::new`: both delay lines built and resized for `sample_rate as
        usize` samples, LFOs at 0.2 Hz with the left phase 0 and the right π/2,
        silent registers, all gains and parameters zero, mono modulation, and an
        output filter that is not designed until `resize_buffers`. */
    constructor (sampleRate: real)
      requires sampleRate > 0.0
      ensures Valid()
      ensures this.sampleRate == sampleRate
      ensures depth == 0.0 && calculatedDepth == 0.0 && rate == 0.0 && feedback == 0.0
      ensures wet == 0.0 && dry == 0.0 && !useStereoLfo
      ensures leftFeedbackBuffer == 0.0 && rightFeedbackBuffer == 0.0
      ensures var n := FractionalDelay.MaxDelay * ToUsize(sampleRate);
        leftDelay.State() == FractionalDelay.Ring(Zeros(n), Zeros(n), 0) &&
        rightDelay.State() == FractionalDelay.Ring(Zeros(n), Zeros(n), 0) &&
        (leftDelay.Ready() <==> n > 0) && (rightDelay.Ready() <==> n > 0)
      ensures leftLfo.sampleRate == sampleRate && leftLfo.rate == 0.2 && leftLfo.phase == 0.0
      ensures rightLfo.sampleRate == sampleRate && rightLfo.rate == 0.2 && rightLfo.phase == PI / 2.0
      ensures outHpf.coeffs == Biquad.InitialCoefficients
      ensures outHpf.left == Biquad.ZeroState && outHpf.right == Biquad.ZeroState
    {
      var n := ToUsize(sampleRate);
      var ld := NewDelay(n);
      var rd := NewDelay(n);
      this.sampleRate := sampleRate;
      depth, calculatedDepth, rate, feedback := 0.0, 0.0, 0.0, 0.0;
      leftLfo := new Lfo.Lfo.WithPhase(sampleRate, 0.2, 0.0);
      rightLfo := new Lfo.Lfo.WithPhase(sampleRate, 0.2, PI / 2.0);
      leftDelay, rightDelay := ld, rd;
      leftFeedbackBuffer, rightFeedbackBuffer := 0.0, 0.0;
      useStereoLfo := false;
      wet, dry := 0.0, 0.0;
      outHpf := new Biquad.BiquadFilter();
    }

    /** `resize_buffers`: both delay lines resized, both feedback registers
        cleared, the LFOs and the output filter moved to the new rate and the
        high-pass designed. The stored `sample_rate` keeps its construction
        value, so later depths are still scaled by that rate. */
    method ResizeBuffers(m: Libm, sampleRate: real)
      requires Owned() && sampleRate > 0.0
      requires Biquad.SecondOrderDefined(m, sampleRate, HpfCutoff, HpfQ)
      modifies leftDelay`xBuffer, leftDelay`yBuffer, leftDelay`bufferSize
      modifies rightDelay`xBuffer, rightDelay`yBuffer, rightDelay`bufferSize, leftLfo`sampleRate, rightLfo`sampleRate
      modifies this`leftFeedbackBuffer, this`rightFeedbackBuffer, outHpf`sampleRate, outHpf`coeffs
      ensures Owned()
      ensures var n := FractionalDelay.MaxDelay * ToUsize(sampleRate);
        leftDelay.bufferSize == n && rightDelay.bufferSize == n &&
        leftDelay.xBuffer == Resized(old(leftDelay.xBuffer), n) &&
        leftDelay.yBuffer == Resized(old(leftDelay.yBuffer), n) &&
        rightDelay.xBuffer == Resized(old(rightDelay.xBuffer), n) &&
        rightDelay.yBuffer == Resized(old(rightDelay.yBuffer), n) &&
        leftDelay.writeIndex == old(leftDelay.writeIndex) &&
        rightDelay.writeIndex == old(rightDelay.writeIndex) &&
        (leftDelay.Ready() <==> leftDelay.writeIndex < n) &&
        (rightDelay.Ready() <==> rightDelay.writeIndex < n)
      ensures leftFeedbackBuffer == 0.0 && rightFeedbackBuffer == 0.0
      ensures leftLfo.Valid() && rightLfo.Valid()
      ensures leftLfo.sampleRate == sampleRate && rightLfo.sampleRate == sampleRate
      ensures outHpf.sampleRate == sampleRate
      ensures outHpf.coeffs == Biquad.SecondOrderHpf(m, sampleRate, HpfCutoff, HpfQ)
    {
      var n := ToUsize(sampleRate);
      leftDelay.ResizeBuffers(n);
      rightDelay.ResizeBuffers(n);
      leftFeedbackBuffer := 0.0;
      rightFeedbackBuffer := 0.0;
      leftLfo.SetSampleRate(sampleRate);
      rightLfo.SetSampleRate(sampleRate);
      outHpf.SetSampleRate(sampleRate);
      outHpf.SecondOrderHpfCoefficients(m, sampleRate, HpfCutoff, HpfQ);
    }

    /** `set_params`: the rate goes to both LFOs, the depth is converted to
        samples at the stored sample rate, and the other parameters are stored.
        Delay lines, registers, phases and the filter are untouched. */
    method SetParams(depth: real, rate: real, feedback: real, wet: real, dry: real, stereo: bool)
      modifies this`rate, leftLfo`rate, rightLfo`rate, this`feedback, this`depth
      modifies this`calculatedDepth, this`useStereoLfo, this`wet, this`dry
      ensures this.rate == rate && leftLfo.rate == rate && rightLfo.rate == rate
      ensures this.feedback == feedback && this.depth == depth
      ensures calculatedDepth == CalculatedDepth(depth, sampleRate)
      ensures useStereoLfo == stereo && this.wet == wet && this.dry == dry
    {
      this.rate := rate;
      leftLfo.rate := rate;
      rightLfo.rate := rate;
      this.feedback := feedback;
      this.depth := depth;
      calculatedDepth := depth * MaxFlangerDelay * sampleRate;
      useStereoLfo := stereo;
      this.wet := wet;
      this.dry := dry;
    }

    /** `process_left`: the left delay line takes the input plus feedback and is
        read at the left LFO's current value (not advanced) mapped to `0..1`
        times the depth; the register keeps that read; the mix goes through the
        left channel of the output filter. */
    method ProcessLeft(m: Libm, x: real) returns (y: real)
      requires leftDelay.Ready()
      modifies leftDelay`xBuffer, leftDelay`yBuffer, leftDelay`writeIndex, this`leftFeedbackBuffer, outHpf`left
      ensures leftDelay.Ready()
      ensures var input := old(FeedbackInput(x, leftFeedbackBuffer, feedback));
        var request := old(Request(leftLfo.NextValueRange(m, LeftRangeStart, 1.0), calculatedDepth));
        var delayed := old(FractionalDelay.Read(leftDelay.State(), input, request));
        leftDelay.State() == FractionalDelay.Advance(old(leftDelay.State()), input, request) &&
        leftFeedbackBuffer == delayed &&
        (outHpf.left, y) == Biquad.Step(outHpf.coeffs, old(outHpf.left), Mix(x, delayed, wet, dry))
    {
      var input := FeedbackInput(x, leftFeedbackBuffer, feedback);
      var delayed := leftDelay.ProcessSample(input, Request(leftLfo.NextValueRange(m, LeftRangeStart, 1.0), calculatedDepth));
      leftFeedbackBuffer := delayed;
      y := outHpf.ProcessLeft(Mix(x, delayed, wet, dry));
    }

    /** `process_right`: first the LFOs advance (the right one only in stereo
        mode, the left one always), then the right side runs as the left one
        does, read at the modulating LFO's new value mapped to `0.05..1`. */
    method ProcessRight(m: Libm, x: real) returns (y: real)
      requires Valid() && rightDelay.Ready()
      modifies leftLfo`phase, rightLfo`phase, rightDelay`xBuffer, rightDelay`yBuffer, rightDelay`writeIndex, this`rightFeedbackBuffer, outHpf`right
      ensures Valid() && rightDelay.Ready()
      ensures leftLfo.phase == Lfo.Advance(old(leftLfo.phase), Lfo.Increment(leftLfo.rate, leftLfo.sampleRate))
      ensures rightLfo.phase ==
        if useStereoLfo then Lfo.Advance(old(rightLfo.phase), Lfo.Increment(rightLfo.rate, rightLfo.sampleRate))
        else old(rightLfo.phase)
      ensures var input := old(FeedbackInput(x, rightFeedbackBuffer, feedback));
        var request := Request(RightModulator().NextValueRange(m, RightRangeStart, 1.0), calculatedDepth);
        var delayed := FractionalDelay.Read(old(rightDelay.State()), input, request);
        rightDelay.State() == FractionalDelay.Advance(old(rightDelay.State()), input, request) &&
        rightFeedbackBuffer == delayed &&
        (outHpf.right, y) == Biquad.Step(outHpf.coeffs, old(outHpf.right), Mix(x, delayed, wet, dry))
    {
      AdvanceModulators();
      var input := FeedbackInput(x, rightFeedbackBuffer, feedback);
      var delayed := rightDelay.ProcessSample(input, Request(RightModulator().NextValueRange(m, RightRangeStart, 1.0), calculatedDepth));
      rightFeedbackBuffer := delayed;
      y := outHpf.ProcessRight(Mix(x, delayed, wet, dry));
    }

    /** The LFO steps that open `process_right`: the right LFO (in stereo mode)
      and then the left one. */
    method AdvanceModulators()
      requires Valid()
      modifies leftLfo`phase, rightLfo`phase
      ensures Valid()
      ensures leftLfo.phase == Lfo.Advance(old(leftLfo.phase), Lfo.Increment(leftLfo.rate, leftLfo.sampleRate))
      ensures rightLfo.phase ==
        if useStereoLfo then Lfo.Advance(old(rightLfo.phase), Lfo.Increment(rightLfo.rate, rightLfo.sampleRate))
        else old(rightLfo.phase)
    {
      if useStereoLfo {
        rightLfo.UpdateLfo();
      }
      leftLfo.UpdateLfo();
    }
  }

  /** `Delay::new(n, 0.0)` followed by `resize_buffers(n)`: resizing to the size
      it already has leaves the fresh line as built. */
  method NewDelay(n: nat) returns (d: FractionalDelay.Delay)
    ensures fresh(d)
    ensures var size := FractionalDelay.MaxDelay * n;
      d.State() == FractionalDelay.Ring(Zeros(size), Zeros(size), 0) && (d.Ready() <==> size > 0)
  {
    d := new FractionalDelay.Delay(n, 0.0);
    d.ResizeBuffers(n);
    ResizeToSameSize(Zeros(FractionalDelay.MaxDelay * n));
  }

  lemma ResizeToSameSize(s: seq<real>)
    ensures Resized(s, |s|) == s
  {
  }
}
