/** The stereo chorus of biquad_filter/src/chorus.rs: per side, three of five
    shift-register delay lines read at a whole-sample delay swung by their own
    sine LFO, a feedback history read `delay_samples` back, and a wet/dry mix
    with independent gains. Unlike the chorus of chorus/src/chorus.rs, each
    process call advances its own side's LFOs. */
module IntegerChorus {
  import opened Libm
  import opened Numeric
  import opened Buffers
  import opened Ownership
  import ShiftDelay
  import Lfo
  import FractionalChorus = Chorus
  import DelayingAllpass

  /** Delay lines and LFOs allocated per side. */
  const Voices: nat := 5

  const I32Min: int := -0x8000_0000
  const I32Max: int := 0x7fff_ffff

  /** A float-to-`i32` cast of an already rounded value: saturating at both ends. */
  function ToI32(r: int): (n: int)
    ensures I32Min <= n <= I32Max
    ensures I32Min <= r <= I32Max ==> n == r
  {
    ClampInt(r, I32Min, I32Max)
  }

  /** A voice's swing `((lfo · calc_depth / 2).round() as i32).clamp(−d + 1, d − 1)`
      (the clamp panics when `d < 1`). */
  function Offset(lfoValue: real, calcDepth: real, d: nat): (o: int)
    requires d >= 1
    ensures 1 - d <= o <= d - 1
  {
    ClampInt(Round(lfoValue * calcDepth / 2.0), 1 - d, d - 1)
  }

  /** While `d` fits an `i32`, the saturation of the cast never shows: clamping
      the saturated swing gives the swing `Offset` computes without it. */
  lemma SaturationInvisible(lfoValue: real, calcDepth: real, d: nat)
    requires 1 <= d <= I32Max
    ensures ClampInt(ToI32(Round(lfoValue * calcDepth / 2.0)), 1 - d, d - 1) == Offset(lfoValue, calcDepth, d)
  {
  }

  /** The whole-sample delay a voice reads at, `(d as i32 + offset) as usize`:
      between one sample and `2d − 1` samples. */
  function VoiceIndex(lfoValue: real, calcDepth: real, d: nat): (i: nat)
    requires d >= 1
    ensures 1 <= i <= 2 * d - 1
  {
    d + Offset(lfoValue, calcDepth, d)
  }

  /** Without modulation a voice reads at exactly the nominal delay. */
  lemma UnmodulatedVoiceIndex(lfoValue: real, calcDepth: real, d: nat)
    requires d >= 1 && lfoValue * calcDepth == 0.0
    ensures VoiceIndex(lfoValue, calcDepth, d) == d
  {
  }

  /** A swing inside `[1 − d, d − 1]` is kept as rounded. */
  lemma OffsetFollowsLfo(lfoValue: real, calcDepth: real, d: nat)
    requires 1 <= d <= I32Max
    requires 1 - d <= Round(lfoValue * calcDepth / 2.0) <= d - 1
    ensures VoiceIndex(lfoValue, calcDepth, d) == d + Round(lfoValue * calcDepth / 2.0)
  {
  }

  /** The feedback tap is read at index `d` of a history the averages are pushed
      into, newest first: it returns the average pushed `d` pushes before the
      last one, that is, `d + 1` calls before the call that reads it. */
  lemma FeedbackTapAge(register: seq<real>, averages: seq<real>, d: nat)
    requires d < |register| && d < |averages|
    ensures PushAll(register, averages)[d] == averages[|averages| - 1 - d]
  {
    PushAllAt(register, averages, d);
  }

  /** `wet` and `dry` are set independently, so the renormalisation can fire:
      with both gains at one the output is the mean of the input and the voices'
      average. */
  lemma FullGainsAverage(x: real, sum: real)
    ensures FractionalChorus.Mix(x, sum, 1.0, 1.0) == (x + sum / 3.0) / 2.0
  {
    assert 1.0 * x + 1.0 * 1.0 / 3.0 * sum == x + sum / 3.0;
  }

  /** The sum of the outputs of the first three delay lines for the input
      `input`, read at the whole-sample delays `i0`, `i1`, `i2`. */
  ghost function VoiceSum(input: real, delays: seq<ShiftDelay.Delay>, i0: nat, i1: nat, i2: nat): real
    requires |delays| >= 3
    requires ShiftDelay.Fits(delays[0].History(), i0) && ShiftDelay.Fits(delays[1].History(), i1)
    requires ShiftDelay.Fits(delays[2].History(), i2)
    reads delays
  {
    ShiftDelay.Output(delays[0].History(), input, i0, delays[0].feedback) +
    ShiftDelay.Output(delays[1].History(), input, i1, delays[1].feedback) +
    ShiftDelay.Output(delays[2].History(), input, i2, delays[2].feedback)
  }

  /** One side can run at the nominal delay `d`: the swing clamp is defined, the
      feedback tap lies inside the register, and each of the three voices'
      delays lies inside its histories (each `unwrap` panics otherwise). */
  ghost predicate SideReady(m: Libm, delays: seq<ShiftDelay.Delay>, lfos: seq<Lfo.Lfo>, register: seq<real>,
                            d: nat, calcDepth: real)
    reads delays, lfos
  {
    1 <= d < |register| && |delays| >= 3 && |lfos| >= 3 &&
    ShiftDelay.Fits(delays[0].History(), VoiceIndex(lfos[0].NextValue(m), calcDepth, d)) &&
    ShiftDelay.Fits(delays[1].History(), VoiceIndex(lfos[1].NextValue(m), calcDepth, d)) &&
    ShiftDelay.Fits(delays[2].History(), VoiceIndex(lfos[2].NextValue(m), calcDepth, d))
  }

  /** The sum of one side's three voices for the input `x`: each delay line takes
      `x` plus the feedback read `d` back in the register and is read at the delay
      its LFO sets. */
  ghost function SideSum(m: Libm, x: real, delays: seq<ShiftDelay.Delay>, lfos: seq<Lfo.Lfo>, register: seq<real>,
                         d: nat, calcDepth: real, feedback: real, wet: real): real
    requires SideReady(m, delays, lfos, register, d, calcDepth)
    reads delays, lfos
  {
    VoiceSum(FractionalChorus.FeedbackInput(x, wet, feedback, register[d]), delays,
             VoiceIndex(lfos[0].NextValue(m), calcDepth, d), VoiceIndex(lfos[1].NextValue(m), calcDepth, d),
             VoiceIndex(lfos[2].NextValue(m), calcDepth, d))
  }

  /** A feedback history (a `VecDeque<f32>` the chorus owns), newest sample
      first. */
  class Register {
    var samples: seq<real>

    /** `VecDeque::from(vec![0.0; n])`. */
    constructor (n: nat)
      ensures samples == Zeros(n)
    {
      var zeros := ZeroFilled(n);
      samples := zeros;
    }

    /** Replaces the history by `n` zeros. */
    method Reset(n: nat)
      modifies this
      ensures samples == Zeros(n)
    {
      samples := ZeroFilled(n);
    }

    /** `rotate_right(1)` then `[0] = x`: `x` becomes the newest sample and the
        oldest is dropped. */
    method PushFront(x: real)
      requires |samples| > 0
      modifies this
      ensures Pushed(samples, old(samples), x)
    {
      samples := RotateRight(samples)[0 := x];
    }
  }

  class Chorus {
    const leftDelays: seq<ShiftDelay.Delay>
    const rightDelays: seq<ShiftDelay.Delay>
    const leftLfos: seq<Lfo.Lfo>
    const rightLfos: seq<Lfo.Lfo>
    const leftFeedback: Register
    const rightFeedback: Register
    var delayMs: real
    var delaySamples: nat
    var feedback: real
    var depth: real
    var sampleRate: real
    var calcDepth: real
    var wet: real
    var dry: real

    /** Five delay lines and five LFOs per side, all distinct objects. */
    ghost predicate Owned()
    {
      |leftDelays| == Voices && |rightDelays| == Voices &&
      |leftLfos| == Voices && |rightLfos| == Voices &&
      Distinct(leftDelays) && Distinct(rightDelays) && Disjoint(leftDelays, rightDelays) &&
      Distinct(leftLfos) && Distinct(rightLfos) && Disjoint(leftLfos, rightLfos) &&
      leftFeedback != rightFeedback
    }

    /** The owned components, delay lines whose histories match, and LFOs that
        can advance. */
    ghost predicate Valid()
      reads leftDelays, rightDelays, leftLfos, rightLfos
    {
      Owned() &&
      (forall i :: 0 <= i < Voices ==> leftDelays[i].Valid() && rightDelays[i].Valid()) &&
      (forall i :: 0 <= i < Voices ==> leftLfos[i].Valid() && rightLfos[i].Valid())
    }

    /** `Chorus::new`: five delay lines `Delay::new(sample_rate as usize,
        delay_samples, 0.0)` and five LFOs per side; `leftPhases` and
        `rightPhases` stand for the random start phases drawn for them. */
    constructor (sampleRate: real, delayMs: real, feedback: real, depth: real, rate: real,
                 wet: real, dry: real, leftPhases: seq<real>, rightPhases: seq<real>)
      requires sampleRate > 0.0
      requires |leftPhases| == Voices && forall i :: 0 <= i < Voices ==> 0.0 <= leftPhases[i] < TwoPi
      requires |rightPhases| == Voices && forall i :: 0 <= i < Voices ==> 0.0 <= rightPhases[i] < TwoPi
      ensures Valid()
      ensures this.sampleRate == sampleRate && this.delayMs == delayMs && this.feedback == feedback
      ensures this.depth == depth && calcDepth == 0.0 && this.wet == wet && this.dry == dry
      ensures delaySamples == DelayingAllpass.DelaySamples(delayMs, sampleRate)
      ensures leftFeedback.samples == Zeros(ToUsize(sampleRate)) && rightFeedback.samples == Zeros(ToUsize(sampleRate))
      ensures forall i :: 0 <= i < Voices ==>
        var n := ShiftDelay.MaxDelay * ToUsize(sampleRate);
        leftDelays[i].History() == ShiftDelay.Registers(Zeros(n), Zeros(n)) &&
        rightDelays[i].History() == ShiftDelay.Registers(Zeros(n), Zeros(n)) &&
        leftDelays[i].delay == delaySamples && rightDelays[i].delay == delaySamples &&
        leftDelays[i].feedback == 0.0 && rightDelays[i].feedback == 0.0
      ensures forall i :: 0 <= i < Voices ==>
        leftLfos[i].phase == leftPhases[i] && rightLfos[i].phase == rightPhases[i] &&
        leftLfos[i].rate == rate && rightLfos[i].rate == rate &&
        leftLfos[i].sampleRate == sampleRate && rightLfos[i].sampleRate == sampleRate
    {
      var n := ToUsize(sampleRate);
      var d := RoundToUsize(delayMs / 1000.0 * sampleRate);
      var ld, ll, lf := NewSide(n, d, sampleRate, rate, leftPhases);
      var rd, rl, rf := NewSide(n, d, sampleRate, rate, rightPhases);
      forall i, j | 0 <= i < Voices && 0 <= j < Voices
        ensures ld[i] != rd[j] && ll[i] != rl[j]
      {
      }
      leftDelays, rightDelays, leftLfos, rightLfos := ld, rd, ll, rl;
      leftFeedback, rightFeedback := lf, rf;
      this.sampleRate := sampleRate;
      this.feedback := feedback;
      this.depth := depth;
      calcDepth := 0.0;
      this.wet := wet;
      this.dry := dry;
      this.delayMs := delayMs;
      delaySamples := d;
    }

    /** `set_params`: the sample rate goes to every LFO, the whole-sample delay
        `round(delay / 1000 · sample_rate)` to every delay line, the rate to every
        LFO; `wet` and `dry` are stored as given. Phases and histories are kept. */
    method SetParams(sampleRate: real, delay: real, feedback: real, depth: real, rate: real,
                     wet: real, dry: real)
      requires Valid() && sampleRate > 0.0
      modifies this`sampleRate, this`feedback, this`depth, this`calcDepth, this`wet, this`dry
      modifies this`delayMs, this`delaySamples
      modifies leftLfos, rightLfos, leftDelays, rightDelays
      ensures Valid()
      ensures this.sampleRate == sampleRate && this.feedback == feedback && this.depth == depth
      ensures delaySamples == DelayingAllpass.DelaySamples(delay, sampleRate) && delayMs == delay
      ensures calcDepth == FractionalChorus.CalcDepth(depth, sampleRate)
      ensures this.wet == wet && this.dry == dry
      ensures forall i :: 0 <= i < Voices ==>
        leftLfos[i].sampleRate == sampleRate && rightLfos[i].sampleRate == sampleRate &&
        leftLfos[i].rate == rate && rightLfos[i].rate == rate &&
        leftLfos[i].phase == old(leftLfos[i].phase) && rightLfos[i].phase == old(rightLfos[i].phase)
      ensures forall i :: 0 <= i < Voices ==>
        leftDelays[i].delay == delaySamples && rightDelays[i].delay == delaySamples &&
        leftDelays[i].History() == old(leftDelays[i].History()) &&
        rightDelays[i].History() == old(rightDelays[i].History()) &&
        leftDelays[i].feedback == old(leftDelays[i].feedback) &&
        rightDelays[i].feedback == old(rightDelays[i].feedback)
    {
      var d := RoundToUsize(delay / 1000.0 * sampleRate);
      ConfigureLfos(sampleRate, rate);
      SetDelayTimes(d);
      StoreParams(sampleRate, d, feedback, depth, wet, dry, delay);
    }

    /** The scalar stores of `set_params`. */
    method StoreParams(sampleRate: real, d: nat, feedback: real, depth: real, wet: real, dry: real,
                       delay: real)
      modifies this`sampleRate, this`feedback, this`depth, this`calcDepth, this`wet, this`dry
      modifies this`delayMs, this`delaySamples
      ensures this.sampleRate == sampleRate && this.feedback == feedback && this.depth == depth
      ensures delaySamples == d && delayMs == delay
      ensures calcDepth == FractionalChorus.CalcDepth(depth, sampleRate)
      ensures this.wet == wet && this.dry == dry
    {
      this.sampleRate := sampleRate;
      this.feedback := feedback;
      this.depth := depth;
      calcDepth := depth / 1000.0 * sampleRate;
      this.wet := wet;
      this.dry := dry;
      delayMs := delay;
      delaySamples := d;
    }

    /** The LFO loops of `set_params`: every LFO of both sides gets the sample
        rate, then every LFO gets the rate. */
    method ConfigureLfos(sampleRate: real, rate: real)
      requires Owned() && sampleRate > 0.0
      modifies leftLfos, rightLfos
      ensures forall i :: 0 <= i < Voices ==> leftLfos[i].Valid() && rightLfos[i].Valid()
      ensures forall i :: 0 <= i < Voices ==>
        leftLfos[i].sampleRate == sampleRate && rightLfos[i].sampleRate == sampleRate &&
        leftLfos[i].rate == rate && rightLfos[i].rate == rate &&
        leftLfos[i].phase == old(leftLfos[i].phase) && rightLfos[i].phase == old(rightLfos[i].phase)
    {
      FractionalChorus.SetSampleRates(leftLfos, sampleRate);
      FractionalChorus.SetSampleRates(rightLfos, sampleRate);
      FractionalChorus.SetRates(leftLfos, rate);
      FractionalChorus.SetRates(rightLfos, rate);
    }

    /** The delay loops of `set_params`: every delay line of the left side, then
        of the right side, gets `d` as its `delay` field. */
    method SetDelayTimes(d: nat)
      requires Owned()
      requires forall i :: 0 <= i < Voices ==> leftDelays[i].Valid() && rightDelays[i].Valid()
      modifies leftDelays, rightDelays
      ensures forall i :: 0 <= i < Voices ==> leftDelays[i].Valid() && rightDelays[i].Valid()
      ensures forall i :: 0 <= i < Voices ==>
        leftDelays[i].delay == d && rightDelays[i].delay == d &&
        leftDelays[i].History() == old(leftDelays[i].History()) &&
        rightDelays[i].History() == old(rightDelays[i].History()) &&
        leftDelays[i].feedback == old(leftDelays[i].feedback) &&
        rightDelays[i].feedback == old(rightDelays[i].feedback)
    {
      SetDelays(leftDelays, d);
      SetDelays(rightDelays, d);
    }

    /** `resize_buffers`: every delay line gets fresh silent histories for the new
        rate and both feedback registers are replaced by `sample_rate as usize`
        zeros. */
    method ResizeBuffers(sampleRate: real)
      requires Owned()
      requires forall i :: 0 <= i < Voices ==> leftDelays[i].Valid() && rightDelays[i].Valid()
      modifies leftFeedback, rightFeedback, leftDelays, rightDelays
      ensures Owned()
      ensures leftFeedback.samples == Zeros(ToUsize(sampleRate)) && rightFeedback.samples == Zeros(ToUsize(sampleRate))
      ensures forall i :: 0 <= i < Voices ==>
        var n := ShiftDelay.MaxDelay * ToUsize(sampleRate);
        leftDelays[i].Valid() && rightDelays[i].Valid() &&
        leftDelays[i].History() == ShiftDelay.Registers(Zeros(n), Zeros(n)) &&
        rightDelays[i].History() == ShiftDelay.Registers(Zeros(n), Zeros(n))
      ensures forall i :: 0 <= i < Voices ==>
        leftDelays[i].delay == old(leftDelays[i].delay) && leftDelays[i].feedback == old(leftDelays[i].feedback) &&
        rightDelays[i].delay == old(rightDelays[i].delay) && rightDelays[i].feedback == old(rightDelays[i].feedback)
    {
      var n := ToUsize(sampleRate);
      ResizeBank(leftDelays, n);
      ResizeBank(rightDelays, n);
      leftFeedback.Reset(n);
      rightFeedback.Reset(n);
    }

    /** `process_left`: the delay-line input is `x` plus the feedback read
        `delay_samples` back in the register; the three left LFOs give the voices'
        delays and then each advance one step; the voices' average is pushed into
        the register, and the output is the mix. */
    method ProcessLeft(m: Libm, x: real) returns (y: real)
      requires Owned() && SideReady(m, leftDelays, leftLfos, leftFeedback.samples, delaySamples, calcDepth)
      requires leftDelays[0].Valid() && leftDelays[1].Valid() && leftDelays[2].Valid()
      requires leftLfos[0].Valid() && leftLfos[1].Valid() && leftLfos[2].Valid()
      modifies {leftDelays[0], leftDelays[1], leftDelays[2]}`xBuffer, {leftDelays[0], leftDelays[1], leftDelays[2]}`yBuffer, {leftLfos[0], leftLfos[1], leftLfos[2]}`phase
      modifies leftFeedback
      ensures Owned() && |leftFeedback.samples| == old(|leftFeedback.samples|)
      ensures leftDelays[0].Valid() && leftDelays[1].Valid() && leftDelays[2].Valid()
      ensures leftLfos[0].Valid() && leftLfos[1].Valid() && leftLfos[2].Valid()
      ensures var input := old(FractionalChorus.FeedbackInput(x, wet, feedback, leftFeedback.samples[delaySamples]));
        leftDelays[0].History() == ShiftDelay.Tick(old(leftDelays[0].History()), input, old(VoiceIndex(leftLfos[0].NextValue(m), calcDepth, delaySamples)), old(leftDelays[0].feedback)) &&
        leftDelays[1].History() == ShiftDelay.Tick(old(leftDelays[1].History()), input, old(VoiceIndex(leftLfos[1].NextValue(m), calcDepth, delaySamples)), old(leftDelays[1].feedback)) &&
        leftDelays[2].History() == ShiftDelay.Tick(old(leftDelays[2].History()), input, old(VoiceIndex(leftLfos[2].NextValue(m), calcDepth, delaySamples)), old(leftDelays[2].feedback))
      ensures leftLfos[0].phase == Lfo.Advance(old(leftLfos[0].phase), Lfo.Increment(old(leftLfos[0].rate), old(leftLfos[0].sampleRate)))
      ensures leftLfos[1].phase == Lfo.Advance(old(leftLfos[1].phase), Lfo.Increment(old(leftLfos[1].rate), old(leftLfos[1].sampleRate)))
      ensures leftLfos[2].phase == Lfo.Advance(old(leftLfos[2].phase), Lfo.Increment(old(leftLfos[2].rate), old(leftLfos[2].sampleRate)))
      ensures var sum := old(SideSum(m, x, leftDelays, leftLfos, leftFeedback.samples, delaySamples, calcDepth, feedback, wet));
        y == old(FractionalChorus.Mix(x, sum, wet, dry)) && Pushed(leftFeedback.samples, old(leftFeedback.samples), sum / 3.0)
    {
      y := ProcessSide(m, x, leftDelays, leftLfos, leftFeedback, delaySamples, calcDepth, feedback, wet, dry);
    }

    /** `process_right`: the mirror of `process_left` on the right delay lines,
        LFOs and register. */
    method ProcessRight(m: Libm, x: real) returns (y: real)
      requires Owned() && SideReady(m, rightDelays, rightLfos, rightFeedback.samples, delaySamples, calcDepth)
      requires rightDelays[0].Valid() && rightDelays[1].Valid() && rightDelays[2].Valid()
      requires rightLfos[0].Valid() && rightLfos[1].Valid() && rightLfos[2].Valid()
      modifies {rightDelays[0], rightDelays[1], rightDelays[2]}`xBuffer, {rightDelays[0], rightDelays[1], rightDelays[2]}`yBuffer, {rightLfos[0], rightLfos[1], rightLfos[2]}`phase
      modifies rightFeedback
      ensures Owned() && |rightFeedback.samples| == old(|rightFeedback.samples|)
      ensures rightDelays[0].Valid() && rightDelays[1].Valid() && rightDelays[2].Valid()
      ensures rightLfos[0].Valid() && rightLfos[1].Valid() && rightLfos[2].Valid()
      ensures var input := old(FractionalChorus.FeedbackInput(x, wet, feedback, rightFeedback.samples[delaySamples]));
        rightDelays[0].History() == ShiftDelay.Tick(old(rightDelays[0].History()), input, old(VoiceIndex(rightLfos[0].NextValue(m), calcDepth, delaySamples)), old(rightDelays[0].feedback)) &&
        rightDelays[1].History() == ShiftDelay.Tick(old(rightDelays[1].History()), input, old(VoiceIndex(rightLfos[1].NextValue(m), calcDepth, delaySamples)), old(rightDelays[1].feedback)) &&
        rightDelays[2].History() == ShiftDelay.Tick(old(rightDelays[2].History()), input, old(VoiceIndex(rightLfos[2].NextValue(m), calcDepth, delaySamples)), old(rightDelays[2].feedback))
      ensures rightLfos[0].phase == Lfo.Advance(old(rightLfos[0].phase), Lfo.Increment(old(rightLfos[0].rate), old(rightLfos[0].sampleRate)))
      ensures rightLfos[1].phase == Lfo.Advance(old(rightLfos[1].phase), Lfo.Increment(old(rightLfos[1].rate), old(rightLfos[1].sampleRate)))
      ensures rightLfos[2].phase == Lfo.Advance(old(rightLfos[2].phase), Lfo.Increment(old(rightLfos[2].rate), old(rightLfos[2].sampleRate)))
      ensures var sum := old(SideSum(m, x, rightDelays, rightLfos, rightFeedback.samples, delaySamples, calcDepth, feedback, wet));
        y == old(FractionalChorus.Mix(x, sum, wet, dry)) && Pushed(rightFeedback.samples, old(rightFeedback.samples), sum / 3.0)
    {
      y := ProcessSide(m, x, rightDelays, rightLfos, rightFeedback, delaySamples, calcDepth, feedback, wet, dry);
    }
  }

  /** The three voices of one side: each of the first three delay lines takes
      `input` and is read at its own whole-sample delay; the result is the sum of
      the three outputs. */
  method ProcessVoices(input: real, delays: seq<ShiftDelay.Delay>, i0: nat, i1: nat, i2: nat)
    returns (delayed: real)
    requires |delays| >= 3
    requires delays[0] != delays[1] && delays[0] != delays[2] && delays[1] != delays[2]
    requires delays[0].Valid() && delays[1].Valid() && delays[2].Valid()
    requires ShiftDelay.Fits(delays[0].History(), i0) && ShiftDelay.Fits(delays[1].History(), i1)
    requires ShiftDelay.Fits(delays[2].History(), i2)
    modifies {delays[0], delays[1], delays[2]}`xBuffer, {delays[0], delays[1], delays[2]}`yBuffer
    ensures delays[0].Valid() && delays[1].Valid() && delays[2].Valid()
    ensures delays[0].History() == ShiftDelay.Tick(old(delays[0].History()), input, i0, old(delays[0].feedback))
    ensures delays[1].History() == ShiftDelay.Tick(old(delays[1].History()), input, i1, old(delays[1].feedback))
    ensures delays[2].History() == ShiftDelay.Tick(old(delays[2].History()), input, i2, old(delays[2].feedback))
    ensures delayed == old(VoiceSum(input, delays, i0, i1, i2))
  {
    delayed := 0.0;
    var v0 := delays[0].ProcessSample(input, i0);
    delayed := delayed + v0;
    var v1 := delays[1].ProcessSample(input, i1);
    delayed := delayed + v1;
    var v2 := delays[2].ProcessSample(input, i2);
    delayed := delayed + v2;
  }

  /** The body of `process_left` and of `process_right` on one side's delay
      lines and LFOs, with the chorus' scalar parameters and the side's feedback
      history `register`: the LFOs give the voices' delays and then advance, the
      average is pushed into the register, and the output is returned. */
  method ProcessSide(m: Libm, x: real, delays: seq<ShiftDelay.Delay>, lfos: seq<Lfo.Lfo>, register: Register,
                     d: nat, calcDepth: real, feedback: real, wet: real, dry: real)
    returns (y: real)
    requires SideReady(m, delays, lfos, register.samples, d, calcDepth)
    requires delays[0] != delays[1] && delays[0] != delays[2] && delays[1] != delays[2]
    requires lfos[0] != lfos[1] && lfos[0] != lfos[2] && lfos[1] != lfos[2]
    requires delays[0].Valid() && delays[1].Valid() && delays[2].Valid()
    requires lfos[0].Valid() && lfos[1].Valid() && lfos[2].Valid()
    modifies {delays[0], delays[1], delays[2]}`xBuffer, {delays[0], delays[1], delays[2]}`yBuffer, {lfos[0], lfos[1], lfos[2]}`phase, register
    ensures delays[0].Valid() && delays[1].Valid() && delays[2].Valid()
    ensures lfos[0].Valid() && lfos[1].Valid() && lfos[2].Valid()
    ensures var input := old(FractionalChorus.FeedbackInput(x, wet, feedback, register.samples[d]));
      delays[0].History() == ShiftDelay.Tick(old(delays[0].History()), input, old(VoiceIndex(lfos[0].NextValue(m), calcDepth, d)), old(delays[0].feedback)) &&
      delays[1].History() == ShiftDelay.Tick(old(delays[1].History()), input, old(VoiceIndex(lfos[1].NextValue(m), calcDepth, d)), old(delays[1].feedback)) &&
      delays[2].History() == ShiftDelay.Tick(old(delays[2].History()), input, old(VoiceIndex(lfos[2].NextValue(m), calcDepth, d)), old(delays[2].feedback))
    ensures lfos[0].phase == Lfo.Advance(old(lfos[0].phase), Lfo.Increment(old(lfos[0].rate), old(lfos[0].sampleRate)))
    ensures lfos[1].phase == Lfo.Advance(old(lfos[1].phase), Lfo.Increment(old(lfos[1].rate), old(lfos[1].sampleRate)))
    ensures lfos[2].phase == Lfo.Advance(old(lfos[2].phase), Lfo.Increment(old(lfos[2].rate), old(lfos[2].sampleRate)))
    ensures var sum := old(SideSum(m, x, delays, lfos, register.samples, d, calcDepth, feedback, wet));
      y == FractionalChorus.Mix(x, sum, wet, dry) && Pushed(register.samples, old(register.samples), sum / 3.0)
  {
    var input := FractionalChorus.FeedbackInput(x, wet, feedback, register.samples[d]);
    var i0 := VoiceIndex(lfos[0].NextValue(m), calcDepth, d);
    var i1 := VoiceIndex(lfos[1].NextValue(m), calcDepth, d);
    var i2 := VoiceIndex(lfos[2].NextValue(m), calcDepth, d);
    assert SideSum(m, x, delays, lfos, register.samples, d, calcDepth, feedback, wet) == VoiceSum(input, delays, i0, i1, i2);
    AdvanceVoices(lfos);
    y := DelayAndMix(x, input, delays, i0, i1, i2, register, wet, dry);
  }

  /** The rest of one side once the read positions are fixed: the three voices
      take the input, their average is pushed onto the feedback register, and
      the output mixes the dry input with the voice sum. */
  method DelayAndMix(x: real, input: real, delays: seq<ShiftDelay.Delay>, i0: nat, i1: nat, i2: nat,
                     register: Register, wet: real, dry: real)
    returns (y: real)
    requires |delays| >= 3
    requires delays[0] != delays[1] && delays[0] != delays[2] && delays[1] != delays[2]
    requires delays[0].Valid() && delays[1].Valid() && delays[2].Valid()
    requires ShiftDelay.Fits(delays[0].History(), i0) && ShiftDelay.Fits(delays[1].History(), i1)
    requires ShiftDelay.Fits(delays[2].History(), i2) && |register.samples| > 0
    modifies {delays[0], delays[1], delays[2]}`xBuffer, {delays[0], delays[1], delays[2]}`yBuffer, register
    ensures delays[0].Valid() && delays[1].Valid() && delays[2].Valid()
    ensures delays[0].History() == ShiftDelay.Tick(old(delays[0].History()), input, i0, old(delays[0].feedback))
    ensures delays[1].History() == ShiftDelay.Tick(old(delays[1].History()), input, i1, old(delays[1].feedback))
    ensures delays[2].History() == ShiftDelay.Tick(old(delays[2].History()), input, i2, old(delays[2].feedback))
    ensures var sum := old(VoiceSum(input, delays, i0, i1, i2));
      y == FractionalChorus.Mix(x, sum, wet, dry) && Pushed(register.samples, old(register.samples), sum / 3.0)
  {
    var delayed := ProcessVoices(input, delays, i0, i1, i2);
    register.PushFront(delayed / 3.0);
    y := FractionalChorus.Mix(x, delayed, wet, dry);
  }




  /** The three `update_lfo` calls of one side: each of the first three LFOs
      advances one step. */
  method AdvanceVoices(lfos: seq<Lfo.Lfo>)
    requires |lfos| >= 3
    requires lfos[0] != lfos[1] && lfos[0] != lfos[2] && lfos[1] != lfos[2]
    requires lfos[0].Valid() && lfos[1].Valid() && lfos[2].Valid()
    modifies {lfos[0], lfos[1], lfos[2]}`phase
    ensures lfos[0].Valid() && lfos[1].Valid() && lfos[2].Valid()
    ensures lfos[0].phase == Lfo.Advance(old(lfos[0].phase), Lfo.Increment(lfos[0].rate, lfos[0].sampleRate))
    ensures lfos[1].phase == Lfo.Advance(old(lfos[1].phase), Lfo.Increment(lfos[1].rate, lfos[1].sampleRate))
    ensures lfos[2].phase == Lfo.Advance(old(lfos[2].phase), Lfo.Increment(lfos[2].rate, lfos[2].sampleRate))
    ensures forall k :: 0 <= k < 3 ==>
      lfos[k].rate == old(lfos[k].rate) && lfos[k].sampleRate == old(lfos[k].sampleRate)
  {
    lfos[0].UpdateLfo();
    lfos[1].UpdateLfo();
    lfos[2].UpdateLfo();
  }

  /** One side of `Chorus::new`: five delay lines `Delay::new(n, d, 0.0)`, five
      LFOs starting at `phases`, and a feedback register of `n` zeros. */
  method NewSide(n: nat, d: nat, sampleRate: real, rate: real, phases: seq<real>)
    returns (delays: seq<ShiftDelay.Delay>, lfos: seq<Lfo.Lfo>, register: Register)
    requires sampleRate > 0.0
    requires |phases| == Voices && forall i :: 0 <= i < Voices ==> 0.0 <= phases[i] < TwoPi
    ensures |delays| == Voices && Distinct(delays) && |lfos| == Voices && Distinct(lfos)
    ensures forall i :: 0 <= i < Voices ==> fresh(delays[i]) && fresh(lfos[i])
    ensures fresh(register) && register.samples == Zeros(n)
    ensures forall i :: 0 <= i < Voices ==>
      delays[i].Valid() &&
      delays[i].History() == ShiftDelay.Registers(Zeros(ShiftDelay.MaxDelay * n), Zeros(ShiftDelay.MaxDelay * n)) &&
      delays[i].delay == d && delays[i].feedback == 0.0
    ensures forall i :: 0 <= i < Voices ==>
      lfos[i].Valid() && lfos[i].phase == phases[i] && lfos[i].rate == rate && lfos[i].sampleRate == sampleRate
  {
    delays := NewDelays(n, d);
    lfos := FractionalChorus.NewLfos(sampleRate, rate, phases);
    register := new Register(n);
  }

  /** One side's five delay lines, each `Delay::new(n, d, 0.0)`. */
  method NewDelays(n: nat, d: nat) returns (ds: seq<ShiftDelay.Delay>)
    ensures |ds| == Voices && Distinct(ds)
    ensures forall i :: 0 <= i < Voices ==> fresh(ds[i])
    ensures forall i :: 0 <= i < Voices ==>
      ds[i].Valid() &&
      ds[i].History() == ShiftDelay.Registers(Zeros(ShiftDelay.MaxDelay * n), Zeros(ShiftDelay.MaxDelay * n)) &&
      ds[i].delay == d && ds[i].feedback == 0.0
  {
    ds := [];
    while |ds| < Voices
      invariant |ds| <= Voices && Distinct(ds)
      invariant forall j :: 0 <= j < |ds| ==> fresh(ds[j])
      invariant forall j :: 0 <= j < |ds| ==>
        ds[j].Valid() &&
        ds[j].History() == ShiftDelay.Registers(Zeros(ShiftDelay.MaxDelay * n), Zeros(ShiftDelay.MaxDelay * n)) &&
        ds[j].delay == d && ds[j].feedback == 0.0
    {
      var line := new ShiftDelay.Delay(n, d, 0.0);
      DistinctSnoc(ds, line);
      ds := ds + [line];
    }
  }

  /** One side's delay lines all take `d` as their `delay` field. */
  method SetDelays(delays: seq<ShiftDelay.Delay>, d: nat)
    modifies delays
    ensures forall i :: 0 <= i < |delays| ==>
      delays[i].delay == d && delays[i].History() == old(delays[i].History()) &&
      delays[i].feedback == old(delays[i].feedback)
  {
    var i := 0;
    while i < |delays|
      invariant 0 <= i <= |delays|
      invariant forall j :: 0 <= j < i ==> delays[j].delay == d
      invariant forall j :: 0 <= j < |delays| ==>
        delays[j].History() == old(delays[j].History()) && delays[j].feedback == old(delays[j].feedback)
    {
      delays[i].delay := d;
      i := i + 1;
    }
  }

  /** One side's delay lines each get fresh silent histories of
      `MAX_DELAY · n` samples. */
  method ResizeBank(delays: seq<ShiftDelay.Delay>, n: nat)
    requires Distinct(delays) && forall i :: 0 <= i < |delays| ==> delays[i].Valid()
    modifies delays
    ensures forall i :: 0 <= i < |delays| ==>
      delays[i].Valid() &&
      delays[i].History() == ShiftDelay.Registers(Zeros(ShiftDelay.MaxDelay * n), Zeros(ShiftDelay.MaxDelay * n))
    ensures forall i :: 0 <= i < |delays| ==>
      delays[i].delay == old(delays[i].delay) && delays[i].feedback == old(delays[i].feedback)
  {
    var i := 0;
    while i < |delays|
      invariant 0 <= i <= |delays|
      invariant forall j :: 0 <= j < |delays| ==>
        delays[j].Valid() && delays[j].delay == old(delays[j].delay) && delays[j].feedback == old(delays[j].feedback)
      invariant forall j :: 0 <= j < i ==>
        delays[j].History() == ShiftDelay.Registers(Zeros(ShiftDelay.MaxDelay * n), Zeros(ShiftDelay.MaxDelay * n))
    {
      delays[i].ResizeBuffers(n);
      i := i + 1;
    }
  }
}
