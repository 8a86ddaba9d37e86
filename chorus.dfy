/** The stereo chorus of chorus/src/chorus.rs: per side, three of five
    interpolating delay lines read at a nominal delay swung by their own sine
    LFO, a one-sample feedback register, and a wet/dry mix that is renormalised
    when the two gains sum above one. */
module Chorus {
  import opened Libm
  import opened Numeric
  import opened Buffers
  import opened Ownership
  import FractionalDelay
  import Lfo

  /** Delay lines and LFOs allocated per side. */
  const Voices: nat := 5

  /** `delay_ms / 1000 · sample_rate`: the nominal delay in (fractional) samples. */
  function DelaySamples(delayMs: real, sampleRate: real): real {
    delayMs / 1000.0 * sampleRate
  }

  /** `calc_depth = depth / 1000 · sample_rate`. */
  function CalcDepth(depth: real, sampleRate: real): real {
    depth / 1000.0 * sampleRate
  }

  /** The delay one voice reads at: the nominal delay plus the LFO swing
      `(lfo · calc_depth / 2).clamp(−d + 1, d − 1)` (the clamp panics when
      `d < 1`). However deep the modulation, the read stays between one sample
      and `2d − 1` samples behind. */
  function VoiceDelay(lfoValue: real, calcDepth: real, d: real): (v: real)
    requires d >= 1.0
    ensures 1.0 <= v <= 2.0 * d - 1.0
    ensures -d + 1.0 <= lfoValue * calcDepth / 2.0 <= d - 1.0 ==> v == d + lfoValue * calcDepth / 2.0
    ensures lfoValue * calcDepth == 0.0 ==> v == d
  {
    d + Clamp(lfoValue * calcDepth / 2.0, -d + 1.0, d - 1.0)
  }

  /** The delay-line input `x + wet · feedback · last`, where `last` is the front of
      the feedback register. */
  function FeedbackInput(x: real, wet: real, feedback: real, last: real): real {
    x + wet * feedback * last
  }

  /** The output `dry · x + wet / 3 · sum`, divided by `wet + dry` when that sum
      exceeds one. */
  function Mix(x: real, sum: real, wet: real, dry: real): real {
    var out := dry * x + wet * 1.0 / 3.0 * sum;
    if wet + dry > 1.0 then out / (wet + dry) else out
  }

  /** With the gains `set_params` derives from `mix` (wet = mix, dry = 1 − mix),
      the output is a crossfade between the dry input and the voices' average,
      never renormalised. */
  lemma MixIsCrossfade(x: real, sum: real, mix: real)
    ensures Mix(x, sum, mix, 1.0 - mix) == (1.0 - mix) * x + mix * (sum / 3.0)
  {
  }

  /** With non-negative gains the output never exceeds the larger of the dry
      input and the voices' average in magnitude: the renormalisation keeps the
      two gains' sum at most one. */
  lemma MixBounded(x: real, sum: real, wet: real, dry: real, bound: real)
    requires wet >= 0.0 && dry >= 0.0
    requires -bound <= x <= bound && -bound <= sum / 3.0 <= bound
    ensures -bound <= Mix(x, sum, wet, dry) <= bound
  {
    var avg := sum / 3.0;
    var out := dry * x + wet * 1.0 / 3.0 * sum;
    ThirdOfProduct(wet, sum);
    ScaleBound(dry, x, bound);
    ScaleBound(wet, avg, bound);
    var gains := wet + dry;
    assert gains * bound == wet * bound + dry * bound;
    assert -gains * bound == -(wet * bound) - dry * bound;
    assert out == dry * x + wet * avg;
    assert out <= gains * bound;
    assert -gains * bound <= out;
    if gains > 1.0 {
      DivideBound(out, gains, bound);
      assert Mix(x, sum, wet, dry) == out / gains;
    } else {
      ScaleBound(bound, gains, 1.0);
      assert Mix(x, sum, wet, dry) == out;
    }
  }

  lemma ThirdOfProduct(w: real, s: real)
    ensures w * 1.0 / 3.0 * s == w * (s / 3.0)
  {
  }

  lemma ScaleBound(p: real, a: real, bound: real)
    requires p >= 0.0 && -bound <= a <= bound
    ensures -p * bound <= p * a <= p * bound
  {
    assert p * (bound - a) >= 0.0;
    assert p * (a + bound) >= 0.0;
  }

  lemma DivideBound(v: real, s: real, bound: real)
    requires s > 0.0 && -s * bound <= v <= s * bound
    ensures -bound <= v / s <= bound
  {
    assert v / s * s == v;
  }

  class Chorus {
    var leftDelays: seq<FractionalDelay.Delay>
    var rightDelays: seq<FractionalDelay.Delay>
    var leftLfos: seq<Lfo.Lfo>
    var rightLfos: seq<Lfo.Lfo>
    var leftFeedbackBuffer: seq<real>
    var rightFeedbackBuffer: seq<real>
    var delayMs: real
    var delaySamples: real
    var feedback: real
    var depth: real
    var sampleRate: real
    var calcDepth: real
    var mono: bool
    var wet: real
    var dry: real

    /** Five delay lines and five LFOs per side, all distinct objects. */
    ghost predicate Owned()
      reads this`leftDelays, this`rightDelays, this`leftLfos, this`rightLfos
    {
      |leftDelays| == Voices && |rightDelays| == Voices &&
      |leftLfos| == Voices && |rightLfos| == Voices &&
      Distinct(leftDelays) && Distinct(rightDelays) && Disjoint(leftDelays, rightDelays) &&
      Distinct(leftLfos) && Distinct(rightLfos) && Disjoint(leftLfos, rightLfos)
    }

    /** The owned components, and LFOs that can advance. The delay lines need no
        invariant here: resizing makes them consistent, and processing asks for
        the three voices it reads to be ready. */
    ghost predicate Valid()
      reads this`leftDelays, this`rightDelays, this`leftLfos, this`rightLfos, leftLfos, rightLfos
    {
      Owned() &&
      (forall i :: 0 <= i < Voices ==> leftLfos[i].Valid() && rightLfos[i].Valid())
    }

    /** The three voices of one side can run and the swing clamp is defined. */
    ghost predicate CanProcess(delays: seq<FractionalDelay.Delay>, register: seq<real>)
      reads this`delaySamples, delays
    {
      delaySamples >= 1.0 && |register| > 0 && |delays| >= 3 &&
      delays[0].Ready() && delays[1].Ready() && delays[2].Ready()
    }

    /** The LFOs that modulate the right side: the left ones in mono mode. */
    function RightModulators(): seq<Lfo.Lfo>
      reads this`mono, this`leftLfos, this`rightLfos
    {
      if mono then leftLfos else rightLfos
    }

    /** The delay a voice reads at, from its LFO's current value. */
    function ReadDelay(m: Libm, lfo: Lfo.Lfo): real
      requires delaySamples >= 1.0
      reads this`delaySamples, this`calcDepth, lfo
    {
      VoiceDelay(lfo.NextValue(m), calcDepth, delaySamples)
    }

    /** The sum of the three voices of one side for the delay-line input `input`. */
    ghost function VoiceSum(m: Libm, delays: seq<FractionalDelay.Delay>, lfos: seq<Lfo.Lfo>,
                            input: real): real
      requires delaySamples >= 1.0 && |delays| >= 3 && |lfos| >= 3
      requires delays[0].Ready() && delays[1].Ready() && delays[2].Ready()
      reads this`delaySamples, this`calcDepth, delays, lfos
    {
      FractionalDelay.Read(delays[0].State(), input, ReadDelay(m, lfos[0])) +
      FractionalDelay.Read(delays[1].State(), input, ReadDelay(m, lfos[1])) +
      FractionalDelay.Read(delays[2].State(), input, ReadDelay(m, lfos[2]))
    }

    /** `Chorus::new`: five delay lines of `sample_rate as usize` samples and five
        LFOs per side; `leftPhases` and `rightPhases` stand for the random start
        phases drawn for the left and the right LFOs. */
    constructor (sampleRate: real, delayMs: real, feedback: real, depth: real, rate: real,
                 wet: real, dry: real, leftPhases: seq<real>, rightPhases: seq<real>)
      requires sampleRate > 0.0
      requires |leftPhases| == Voices && forall i :: 0 <= i < Voices ==> 0.0 <= leftPhases[i] < TwoPi
      requires |rightPhases| == Voices && forall i :: 0 <= i < Voices ==> 0.0 <= rightPhases[i] < TwoPi
      ensures Valid()
      ensures this.sampleRate == sampleRate && this.delayMs == delayMs && this.feedback == feedback
      ensures this.depth == depth && calcDepth == 0.0 && this.wet == wet && this.dry == dry && !mono
      ensures delaySamples == DelaySamples(delayMs, sampleRate)
      ensures leftFeedbackBuffer == Zeros(ToUsize(sampleRate)) && rightFeedbackBuffer == Zeros(ToUsize(sampleRate))
      ensures NewLines(leftDelays, ToUsize(sampleRate), delaySamples)
      ensures NewLines(rightDelays, ToUsize(sampleRate), delaySamples)
      ensures NewLfoBank(leftLfos, sampleRate, rate, leftPhases)
      ensures NewLfoBank(rightLfos, sampleRate, rate, rightPhases)
      ensures delaySamples >= 1.0 && ToUsize(sampleRate) > 0 ==>
        CanProcess(leftDelays, leftFeedbackBuffer) && CanProcess(rightDelays, rightFeedbackBuffer)
    {
      var n := ToUsize(sampleRate);
      var d := DelaySamples(delayMs, sampleRate);
      var ld, rd, ll, rl := NewBanks(n, d, sampleRate, rate, leftPhases, rightPhases);
      var lf := ZeroFilled(n);
      var rf := ZeroFilled(n);
      leftDelays, rightDelays, leftLfos, rightLfos := ld, rd, ll, rl;
      leftFeedbackBuffer, rightFeedbackBuffer := lf, rf;
      this.sampleRate := sampleRate;
      this.feedback := feedback;
      this.depth := depth;
      calcDepth := 0.0;
      this.wet := wet;
      this.dry := dry;
      mono := false;
      this.delayMs := delayMs;
      delaySamples := d;
    }

    /** `set_params`: the sample rate goes to every LFO, the nominal delay to every
        delay line's `delay` field, the rate to every LFO; `mix` becomes
        `wet = mix, dry = 1 − mix`. Phases and delay-line contents are kept. The
        bank loops run before the scalar fields are stored; they touch none of
        them. */
    method SetParams(sampleRate: real, delay: real, feedback: real, depth: real, rate: real,
                     mix: real, mono: bool)
      requires Valid() && sampleRate > 0.0
      modifies this`sampleRate, this`feedback, this`depth, this`calcDepth, this`wet, this`dry
      modifies this`mono, this`delayMs, this`delaySamples
      modifies leftLfos, rightLfos, leftDelays, rightDelays
      ensures Valid()
      ensures this.sampleRate == sampleRate && this.feedback == feedback && this.depth == depth
      ensures delaySamples == DelaySamples(delay, sampleRate) && delayMs == delay
      ensures calcDepth == CalcDepth(depth, sampleRate)
      ensures wet == mix && dry == 1.0 - mix && this.mono == mono
      ensures forall i :: 0 <= i < Voices ==>
        leftLfos[i].sampleRate == sampleRate && rightLfos[i].sampleRate == sampleRate &&
        leftLfos[i].rate == rate && rightLfos[i].rate == rate &&
        leftLfos[i].phase == old(leftLfos[i].phase) && rightLfos[i].phase == old(rightLfos[i].phase)
      ensures forall i :: 0 <= i < Voices ==>
        leftDelays[i].delay == DelaySamples(delay, sampleRate) && rightDelays[i].delay == DelaySamples(delay, sampleRate) &&
        leftDelays[i].State() == old(leftDelays[i].State()) && rightDelays[i].State() == old(rightDelays[i].State()) &&
        leftDelays[i].bufferSize == old(leftDelays[i].bufferSize) && rightDelays[i].bufferSize == old(rightDelays[i].bufferSize) &&
        leftDelays[i].sampleRate == old(leftDelays[i].sampleRate) && rightDelays[i].sampleRate == old(rightDelays[i].sampleRate)
    {
      var d := delay / 1000.0 * sampleRate;
      ConfigureLfos(sampleRate, rate);
      SetDelayTimes(d);
      StoreParams(sampleRate, d, feedback, depth, mix, mono, delay);
    }

    /** The scalar stores of `set_params`. */
    method StoreParams(sampleRate: real, d: real, feedback: real, depth: real, mix: real, mono: bool,
                       delay: real)
      modifies this`sampleRate, this`feedback, this`depth, this`calcDepth, this`wet, this`dry
      modifies this`mono, this`delayMs, this`delaySamples
      ensures this.sampleRate == sampleRate && this.feedback == feedback && this.depth == depth
      ensures delaySamples == d && delayMs == delay
      ensures calcDepth == CalcDepth(depth, sampleRate)
      ensures wet == mix && dry == 1.0 - mix && this.mono == mono
    {
      this.sampleRate := sampleRate;
      this.feedback := feedback;
      this.depth := depth;
      calcDepth := depth / 1000.0 * sampleRate;
      wet := mix;
      dry := 1.0 - mix;
      this.mono := mono;
      delayMs := delay;
      delaySamples := d;
    }

    /** The LFO loops of `set_params`: every LFO of both sides gets the sample
        rate, then every LFO gets the rate. */
    method ConfigureLfos(sampleRate: real, rate: real)
      requires Owned() && sampleRate > 0.0
      modifies leftLfos, rightLfos
      ensures forall i :: 0 <= i < Voices ==>
        leftLfos[i].sampleRate == sampleRate && rightLfos[i].sampleRate == sampleRate &&
        leftLfos[i].rate == rate && rightLfos[i].rate == rate &&
        leftLfos[i].phase == old(leftLfos[i].phase) && rightLfos[i].phase == old(rightLfos[i].phase)
    {
      SetSampleRates(leftLfos, sampleRate);
      SetSampleRates(rightLfos, sampleRate);
      SetRates(leftLfos, rate);
      SetRates(rightLfos, rate);
    }

    /** The delay loops of `set_params`: every delay line of the left side, then
        of the right side, gets `d` as its `delay` field. */
    method SetDelayTimes(d: real)
      requires Owned()
      modifies leftDelays, rightDelays
      ensures forall i :: 0 <= i < Voices ==>
        leftDelays[i].delay == d && rightDelays[i].delay == d &&
        leftDelays[i].State() == old(leftDelays[i].State()) && rightDelays[i].State() == old(rightDelays[i].State()) &&
        leftDelays[i].bufferSize == old(leftDelays[i].bufferSize) && rightDelays[i].bufferSize == old(rightDelays[i].bufferSize) &&
        leftDelays[i].sampleRate == old(leftDelays[i].sampleRate) && rightDelays[i].sampleRate == old(rightDelays[i].sampleRate)
    {
      SetDelays(leftDelays, d);
      SetDelays(rightDelays, d);
    }

    /** `resize_buffers`: every delay line is resized in place to
        `sample_rate as usize` samples (cursors kept) and both feedback registers
        are replaced by silence of that length. */
    method ResizeBuffers(sampleRate: real)
      requires Owned()
      modifies this`leftFeedbackBuffer, this`rightFeedbackBuffer, leftDelays, rightDelays
      ensures Owned()
      ensures leftFeedbackBuffer == Zeros(ToUsize(sampleRate)) && rightFeedbackBuffer == Zeros(ToUsize(sampleRate))
      ensures forall i :: 0 <= i < Voices ==>
        var n := FractionalDelay.MaxDelay * ToUsize(sampleRate);
        leftDelays[i].State() == FractionalDelay.Ring(
          Resized(old(leftDelays[i].xBuffer), n), Resized(old(leftDelays[i].yBuffer), n), old(leftDelays[i].writeIndex)) &&
        rightDelays[i].State() == FractionalDelay.Ring(
          Resized(old(rightDelays[i].xBuffer), n), Resized(old(rightDelays[i].yBuffer), n), old(rightDelays[i].writeIndex))
      ensures forall i :: 0 <= i < Voices ==>
        leftDelays[i].delay == old(leftDelays[i].delay) && leftDelays[i].sampleRate == old(leftDelays[i].sampleRate) &&
        rightDelays[i].delay == old(rightDelays[i].delay) && rightDelays[i].sampleRate == old(rightDelays[i].sampleRate)
      ensures forall i :: 0 <= i < Voices ==>
        var n := FractionalDelay.MaxDelay * ToUsize(sampleRate);
        leftDelays[i].bufferSize == n && rightDelays[i].bufferSize == n &&
        (leftDelays[i].Ready() <==> old(leftDelays[i].writeIndex) < n) &&
        (rightDelays[i].Ready() <==> old(rightDelays[i].writeIndex) < n)
    {
      var n := ToUsize(sampleRate);
      leftFeedbackBuffer := ZeroFilled(n);
      rightFeedbackBuffer := ZeroFilled(n);
      ResizeBank(leftDelays, n);
      ResizeBank(rightDelays, n);
    }

    /** The three voices of one side: each of the first three delay lines takes
        `input` and is read at the delay its LFO sets; the result is the sum of the
        three reads. */
    method ProcessVoices(m: Libm, input: real, delays: seq<FractionalDelay.Delay>, lfos: seq<Lfo.Lfo>)
      returns (delayed: real)
      requires delaySamples >= 1.0 && |delays| >= 3 && |lfos| >= 3
      requires delays[0].Ready() && delays[1].Ready() && delays[2].Ready()
      requires delays[0] != delays[1] && delays[0] != delays[2] && delays[1] != delays[2]
      modifies {delays[0], delays[1], delays[2]}`xBuffer, {delays[0], delays[1], delays[2]}`yBuffer, {delays[0], delays[1], delays[2]}`writeIndex
      ensures delays[0].Ready() && delays[1].Ready() && delays[2].Ready()
      ensures forall i :: 0 <= i < 3 ==>
        delays[i].bufferSize == old(delays[i].bufferSize) && delays[i].delay == old(delays[i].delay) &&
        delays[i].sampleRate == old(delays[i].sampleRate)
      ensures delays[0].State() == FractionalDelay.Advance(old(delays[0].State()), input, old(ReadDelay(m, lfos[0])))
      ensures delays[1].State() == FractionalDelay.Advance(old(delays[1].State()), input, old(ReadDelay(m, lfos[1])))
      ensures delays[2].State() == FractionalDelay.Advance(old(delays[2].State()), input, old(ReadDelay(m, lfos[2])))
      ensures delayed == old(VoiceSum(m, delays, lfos, input))
    {
      var d1 := ReadDelay(m, lfos[0]);
      var d2 := ReadDelay(m, lfos[1]);
      var d3 := ReadDelay(m, lfos[2]);
      ghost var sum := VoiceSum(m, delays, lfos, input);
      ghost var s1, s2, s3 := delays[0].State(), delays[1].State(), delays[2].State();
      assert sum == FractionalDelay.Read(s1, input, d1) + FractionalDelay.Read(s2, input, d2)
                  + FractionalDelay.Read(s3, input, d3);
      delayed := 0.0;
      var v1 := delays[0].ProcessSample(input, d1);
      delayed := delayed + v1;
      var v2 := delays[1].ProcessSample(input, d2);
      delayed := delayed + v2;
      var v3 := delays[2].ProcessSample(input, d3);
      delayed := delayed + v3;
    }

    /** `process_left`: the three left voices each take the input plus feedback;
        the front of the feedback register is overwritten (never rotated) with
        the voices' average, and the output is the mix. */
    method ProcessLeft(m: Libm, x: real) returns (y: real)
      requires Owned() && CanProcess(leftDelays, leftFeedbackBuffer)
      modifies {leftDelays[0], leftDelays[1], leftDelays[2]}`xBuffer, {leftDelays[0], leftDelays[1], leftDelays[2]}`yBuffer, {leftDelays[0], leftDelays[1], leftDelays[2]}`writeIndex
      modifies this`leftFeedbackBuffer
      ensures Owned() && CanProcess(leftDelays, leftFeedbackBuffer)
      ensures var input := old(FeedbackInput(x, wet, feedback, leftFeedbackBuffer[0]));
        leftDelays[0].State() == FractionalDelay.Advance(old(leftDelays[0].State()), input, old(ReadDelay(m, leftLfos[0]))) &&
        leftDelays[1].State() == FractionalDelay.Advance(old(leftDelays[1].State()), input, old(ReadDelay(m, leftLfos[1]))) &&
        leftDelays[2].State() == FractionalDelay.Advance(old(leftDelays[2].State()), input, old(ReadDelay(m, leftLfos[2])))
      ensures var input := old(FeedbackInput(x, wet, feedback, leftFeedbackBuffer[0]));
        var sum := old(VoiceSum(m, leftDelays, leftLfos, input));
        y == old(Mix(x, sum, wet, dry)) && leftFeedbackBuffer == old(leftFeedbackBuffer)[0 := sum / 3.0]
    {
      var input := FeedbackInput(x, wet, feedback, leftFeedbackBuffer[0]);
      var delayed := ProcessVoices(m, input, leftDelays, leftLfos);
      leftFeedbackBuffer := leftFeedbackBuffer[0 := delayed / 3.0];
      y := Mix(x, delayed, wet, dry);
    }

    /** `process_right`: as the left side on the right delay lines, modulated by
        the left LFOs in mono mode. */
    method ProcessRight(m: Libm, x: real) returns (y: real)
      requires Owned() && CanProcess(rightDelays, rightFeedbackBuffer)
      modifies {rightDelays[0], rightDelays[1], rightDelays[2]}`xBuffer, {rightDelays[0], rightDelays[1], rightDelays[2]}`yBuffer, {rightDelays[0], rightDelays[1], rightDelays[2]}`writeIndex
      modifies this`rightFeedbackBuffer
      ensures Owned() && CanProcess(rightDelays, rightFeedbackBuffer)
      ensures var input := old(FeedbackInput(x, wet, feedback, rightFeedbackBuffer[0]));
        rightDelays[0].State() == FractionalDelay.Advance(old(rightDelays[0].State()), input, old(ReadDelay(m, RightModulators()[0]))) &&
        rightDelays[1].State() == FractionalDelay.Advance(old(rightDelays[1].State()), input, old(ReadDelay(m, RightModulators()[1]))) &&
        rightDelays[2].State() == FractionalDelay.Advance(old(rightDelays[2].State()), input, old(ReadDelay(m, RightModulators()[2])))
      ensures var input := old(FeedbackInput(x, wet, feedback, rightFeedbackBuffer[0]));
        var sum := old(VoiceSum(m, rightDelays, RightModulators(), input));
        y == old(Mix(x, sum, wet, dry)) && rightFeedbackBuffer == old(rightFeedbackBuffer)[0 := sum / 3.0]
    {
      var input := FeedbackInput(x, wet, feedback, rightFeedbackBuffer[0]);
      var delayed := ProcessVoices(m, input, rightDelays, RightModulators());
      rightFeedbackBuffer := rightFeedbackBuffer[0 := delayed / 3.0];
      y := Mix(x, delayed, wet, dry);
    }

    /** `update_modulators`: every LFO of both sides advances one step. */
    method UpdateModulators()
      requires Valid()
      modifies leftLfos, rightLfos
      ensures Valid()
      ensures forall i :: 0 <= i < Voices ==>
        leftLfos[i].phase == Lfo.Advance(old(leftLfos[i].phase), Lfo.Increment(old(leftLfos[i].rate), old(leftLfos[i].sampleRate))) &&
        rightLfos[i].phase == Lfo.Advance(old(rightLfos[i].phase), Lfo.Increment(old(rightLfos[i].rate), old(rightLfos[i].sampleRate)))
      ensures forall i :: 0 <= i < Voices ==>
        leftLfos[i].rate == old(leftLfos[i].rate) && leftLfos[i].sampleRate == old(leftLfos[i].sampleRate) &&
        rightLfos[i].rate == old(rightLfos[i].rate) && rightLfos[i].sampleRate == old(rightLfos[i].sampleRate)
    {
      AdvanceBank(leftLfos);
      AdvanceBank(rightLfos);
    }
  }

  /** The delay lines and LFOs of both sides of `Chorus::new`: five
      `Delay::new(n, d)` and five LFOs starting at the drawn phases per side, all
      distinct objects. */
  method NewBanks(n: nat, d: real, sampleRate: real, rate: real, leftPhases: seq<real>, rightPhases: seq<real>)
    returns (leftDelays: seq<FractionalDelay.Delay>, rightDelays: seq<FractionalDelay.Delay>,
             leftLfos: seq<Lfo.Lfo>, rightLfos: seq<Lfo.Lfo>)
    requires sampleRate > 0.0
    requires |leftPhases| == Voices && forall i :: 0 <= i < Voices ==> 0.0 <= leftPhases[i] < TwoPi
    requires |rightPhases| == Voices && forall i :: 0 <= i < Voices ==> 0.0 <= rightPhases[i] < TwoPi
    ensures Distinct(leftDelays) && Distinct(rightDelays) && Disjoint(leftDelays, rightDelays)
    ensures Distinct(leftLfos) && Distinct(rightLfos) && Disjoint(leftLfos, rightLfos)
    ensures NewLines(leftDelays, n, d) && NewLines(rightDelays, n, d)
    ensures NewLfoBank(leftLfos, sampleRate, rate, leftPhases) && NewLfoBank(rightLfos, sampleRate, rate, rightPhases)
  {
    leftDelays := NewDelays(n, d);
    leftLfos := NewLfos(sampleRate, rate, leftPhases);
    rightDelays := NewDelays(n, d);
    rightLfos := NewLfos(sampleRate, rate, rightPhases);
    forall i, j | 0 <= i < Voices && 0 <= j < Voices
      ensures leftDelays[i] != rightDelays[j] && leftLfos[i] != rightLfos[j]
    {
    }
  }

  /** Five delay lines as `Delay::new(n, d)` leaves them: `MAX_DELAY·n` zeros in
      each ring, the cursor at 0, sample rate `n` and nominal delay `d`; each is
      ready to process exactly when `n > 0`. */
  ghost predicate NewLines(ds: seq<FractionalDelay.Delay>, n: nat, d: real)
    reads ds
  {
    |ds| == Voices &&
    forall i :: 0 <= i < Voices ==>
      ds[i].State() == FractionalDelay.Ring(Zeros(FractionalDelay.MaxDelay * n), Zeros(FractionalDelay.MaxDelay * n), 0) &&
      ds[i].bufferSize == FractionalDelay.MaxDelay * n && ds[i].sampleRate == n as real && ds[i].delay == d &&
      ds[i].Valid() && (ds[i].Ready() <==> n > 0)
  }

  /** One side's five delay lines, each `Delay::new(n, d)`. */
  method NewDelays(n: nat, d: real) returns (ds: seq<FractionalDelay.Delay>)
    ensures Distinct(ds) && NewLines(ds, n, d)
    ensures forall i :: 0 <= i < Voices ==> fresh(ds[i])
  {
    ds := [];
    while |ds| < Voices
      invariant |ds| <= Voices && Distinct(ds)
      invariant forall j :: 0 <= j < |ds| ==> fresh(ds[j])
      invariant forall j :: 0 <= j < |ds| ==>
        ds[j].State() == FractionalDelay.Ring(Zeros(FractionalDelay.MaxDelay * n), Zeros(FractionalDelay.MaxDelay * n), 0) &&
        ds[j].bufferSize == FractionalDelay.MaxDelay * n && ds[j].sampleRate == n as real && ds[j].delay == d &&
        ds[j].Valid() && (ds[j].Ready() <==> n > 0)
    {
      var line := new FractionalDelay.Delay(n, d);
      DistinctSnoc(ds, line);
      ds := ds + [line];
    }
  }

  /** Five LFOs as `LFO::new_random_phase(sampleRate, rate)` leaves them, at the
      start phases `phases`. */
  ghost predicate NewLfoBank(lfos: seq<Lfo.Lfo>, sampleRate: real, rate: real, phases: seq<real>)
    reads lfos
  {
    |lfos| == Voices && |phases| == Voices &&
    forall i :: 0 <= i < Voices ==>
      lfos[i].Valid() && lfos[i].phase == phases[i] && lfos[i].rate == rate && lfos[i].sampleRate == sampleRate
  }

  /** One side's five LFOs, `LFO::new_random_phase(sample_rate, rate)` with the
      start phases `phases`. */
  method NewLfos(sampleRate: real, rate: real, phases: seq<real>) returns (lfos: seq<Lfo.Lfo>)
    requires sampleRate > 0.0
    requires |phases| == Voices && forall i :: 0 <= i < Voices ==> 0.0 <= phases[i] < TwoPi
    ensures Distinct(lfos) && NewLfoBank(lfos, sampleRate, rate, phases)
    ensures forall i :: 0 <= i < Voices ==> fresh(lfos[i])
  {
    lfos := [];
    while |lfos| < Voices
      invariant |lfos| <= Voices && Distinct(lfos)
      invariant forall j :: 0 <= j < |lfos| ==> fresh(lfos[j])
      invariant forall j :: 0 <= j < |lfos| ==>
        lfos[j].Valid() && lfos[j].phase == phases[j] && lfos[j].rate == rate && lfos[j].sampleRate == sampleRate
    {
      var lfo := new Lfo.Lfo.RandomPhase(sampleRate, rate, phases[|lfos|]);
      DistinctSnoc(lfos, lfo);
      lfos := lfos + [lfo];
    }
  }

  /** One side's LFOs all take the sample rate `sampleRate`. */
  method SetSampleRates(lfos: seq<Lfo.Lfo>, sampleRate: real)
    requires sampleRate > 0.0
    modifies lfos
    ensures forall i :: 0 <= i < |lfos| ==>
      lfos[i].Valid() && lfos[i].sampleRate == sampleRate &&
      lfos[i].rate == old(lfos[i].rate) && lfos[i].phase == old(lfos[i].phase)
  {
    var i := 0;
    while i < |lfos|
      invariant 0 <= i <= |lfos|
      invariant forall j :: 0 <= j < i ==> lfos[j].sampleRate == sampleRate
      invariant forall j :: 0 <= j < |lfos| ==> lfos[j].rate == old(lfos[j].rate) && lfos[j].phase == old(lfos[j].phase)
    {
      lfos[i].sampleRate := sampleRate;
      i := i + 1;
    }
  }

  /** One side's LFOs all take the rate `rate`. */
  method SetRates(lfos: seq<Lfo.Lfo>, rate: real)
    modifies lfos
    ensures forall i :: 0 <= i < |lfos| ==>
      lfos[i].rate == rate &&
      lfos[i].sampleRate == old(lfos[i].sampleRate) && lfos[i].phase == old(lfos[i].phase)
  {
    var i := 0;
    while i < |lfos|
      invariant 0 <= i <= |lfos|
      invariant forall j :: 0 <= j < i ==> lfos[j].rate == rate
      invariant forall j :: 0 <= j < |lfos| ==> lfos[j].sampleRate == old(lfos[j].sampleRate) && lfos[j].phase == old(lfos[j].phase)
    {
      lfos[i].rate := rate;
      i := i + 1;
    }
  }

  /** One side's delay lines all take `d` as their `delay` field. */
  method SetDelays(delays: seq<FractionalDelay.Delay>, d: real)
    modifies delays
    ensures forall i :: 0 <= i < |delays| ==>
      delays[i].delay == d && delays[i].State() == old(delays[i].State()) &&
      delays[i].bufferSize == old(delays[i].bufferSize) && delays[i].sampleRate == old(delays[i].sampleRate)
  {
    var i := 0;
    while i < |delays|
      invariant 0 <= i <= |delays|
      invariant forall j :: 0 <= j < i ==> delays[j].delay == d
      invariant forall j :: 0 <= j < |delays| ==>
        delays[j].State() == old(delays[j].State()) && delays[j].bufferSize == old(delays[j].bufferSize) &&
        delays[j].sampleRate == old(delays[j].sampleRate)
    {
      delays[i].delay := d;
      i := i + 1;
    }
  }

  /** One side's delay lines are each resized to `MAX_DELAY · n` samples. */
  method ResizeBank(delays: seq<FractionalDelay.Delay>, n: nat)
    requires Distinct(delays)
    modifies delays
    ensures forall i :: 0 <= i < |delays| ==>
      delays[i].State() == FractionalDelay.Ring(
        Resized(old(delays[i].xBuffer), FractionalDelay.MaxDelay * n),
        Resized(old(delays[i].yBuffer), FractionalDelay.MaxDelay * n), old(delays[i].writeIndex))
    ensures forall i :: 0 <= i < |delays| ==>
      delays[i].delay == old(delays[i].delay) && delays[i].sampleRate == old(delays[i].sampleRate)
    ensures forall i :: 0 <= i < |delays| ==>
      delays[i].bufferSize == FractionalDelay.MaxDelay * n && delays[i].Valid() &&
      (delays[i].Ready() <==> old(delays[i].writeIndex) < FractionalDelay.MaxDelay * n)
  {
    var i := 0;
    while i < |delays|
      invariant 0 <= i <= |delays|
      invariant forall j :: 0 <= j < i ==>
        delays[j].State() == FractionalDelay.Ring(
          Resized(old(delays[j].xBuffer), FractionalDelay.MaxDelay * n),
          Resized(old(delays[j].yBuffer), FractionalDelay.MaxDelay * n), old(delays[j].writeIndex))
      invariant forall j :: 0 <= j < i ==>
        delays[j].bufferSize == FractionalDelay.MaxDelay * n && delays[j].Valid()
      invariant forall j :: i <= j < |delays| ==>
        delays[j].xBuffer == old(delays[j].xBuffer) && delays[j].yBuffer == old(delays[j].yBuffer)
      invariant forall j :: 0 <= j < |delays| ==>
        delays[j].delay == old(delays[j].delay) && delays[j].sampleRate == old(delays[j].sampleRate) &&
        delays[j].writeIndex == old(delays[j].writeIndex)
    {
      delays[i].ResizeBuffers(n);
      i := i + 1;
    }
  }

  /** Every LFO of one side advances one step. */
  method AdvanceBank(lfos: seq<Lfo.Lfo>)
    requires Distinct(lfos) && forall i :: 0 <= i < |lfos| ==> lfos[i].sampleRate > 0.0
    modifies lfos
    ensures forall i :: 0 <= i < |lfos| ==>
      lfos[i].rate == old(lfos[i].rate) && lfos[i].sampleRate == old(lfos[i].sampleRate)
    ensures forall i :: 0 <= i < |lfos| ==>
      lfos[i].phase == Lfo.Advance(old(lfos[i].phase), Lfo.Increment(old(lfos[i].rate), old(lfos[i].sampleRate)))
  {
    var i := 0;
    while i < |lfos|
      invariant 0 <= i <= |lfos|
      invariant forall j :: 0 <= j < |lfos| ==>
        lfos[j].rate == old(lfos[j].rate) && lfos[j].sampleRate == old(lfos[j].sampleRate)
      invariant forall j :: 0 <= j < i ==>
        lfos[j].phase == Lfo.Advance(old(lfos[j].phase), Lfo.Increment(old(lfos[j].rate), old(lfos[j].sampleRate)))
      invariant forall j :: i <= j < |lfos| ==> lfos[j].phase == old(lfos[j].phase)
    {
      lfos[i].UpdateLfo();
      i := i + 1;
    }
  }
}
