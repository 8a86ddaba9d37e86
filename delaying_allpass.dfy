/** The delaying all-pass stage of phaser_vst/src/delayingallpass.rs: per channel,
    `y = −g·x + x[D] + g·y[D]` read from input and output histories of one second,
    before the new input and output are pushed. */
module DelayingAllpass {
  import opened Numeric
  import opened Buffers
  import ShiftDelay

  type Registers = ShiftDelay.Registers

  /** `((delay_ms / 1000) · sample_rate).round() as usize`. */
  function DelaySamples(delayMs: real, sampleRate: real): (d: nat)
    ensures delayMs * sampleRate <= 0.0 ==> d == 0
  {
    RoundToUsize(delayMs / 1000.0 * sampleRate)
  }

  /** The taps index histories that are read before they are pushed, so tap `D`
      is the sample `D + 1` steps old. */
  function Output(r: Registers, x: real, d: nat, g: real): real
    requires ShiftDelay.Fits(r, d)
  {
    -g * x + r.xs[d] + g * r.ys[d]
  }

  /** One `process_left`/`process_right` call on one channel's histories. */
  function Tick(r: Registers, x: real, d: nat, g: real): (r': Registers)
    requires ShiftDelay.Fits(r, d)
    ensures ShiftDelay.Fits(r', d)
  {
    ShiftDelay.Registers(Push(r.xs, x), Push(r.ys, Output(r, x, d, g)))
  }

  function Run(r: Registers, xs: seq<real>, d: nat, g: real): (r': Registers)
    requires ShiftDelay.Fits(r, d)
    ensures ShiftDelay.Fits(r', d) && |r'.xs| == |r.xs|
    decreases |xs|
  {
    if xs == [] then r else Tick(Run(r, xs[..|xs| - 1], d, g), xs[|xs| - 1], d, g)
  }

  /** The next output of the Schroeder all-pass `y[n] = −g·x[n] + x[n − M] + g·y[n − M]`
      with `M = D + 1`, given the inputs up to step `n` and the outputs before it. */
  function AllpassSample(xs: seq<real>, prev: seq<real>, d: nat, g: real): real {
    -g * At(xs, |prev|) + At(xs, |prev| - d - 1) + g * At(prev, |prev| - d - 1)
  }

  /** The outputs of the all-pass recurrence from silence. */
  function Allpass(xs: seq<real>, d: nat, g: real): (ys: seq<real>)
    ensures |ys| == |xs|
    decreases |xs|
  {
    if xs == [] then []
    else
      var prev := Allpass(xs[..|xs| - 1], d, g);
      prev + [AllpassSample(xs, prev, d, g)]
  }

  /** From silent histories longer than the tap, one channel computes exactly the
      all-pass recurrence with a delay of `D + 1` samples. */
  lemma {:induction false} RunComputesAllpass(n: nat, xs: seq<real>, d: nat, g: real)
    requires d < n
    ensures Run(ShiftDelay.Registers(Zeros(n), Zeros(n)), xs, d, g)
         == ShiftDelay.Registers(PushAll(Zeros(n), xs), PushAll(Zeros(n), Allpass(xs, d, g)))
    decreases |xs|
  {
    if xs != [] {
      var init, x := xs[..|xs| - 1], xs[|xs| - 1];
      assert xs == init + [x];
      RunComputesAllpass(n, init, d, g);
      var prev := Allpass(init, d, g);
      var before := ShiftDelay.Registers(PushAll(Zeros(n), init), PushAll(Zeros(n), prev));
      OutputFromSilence(n, init, x, prev, d, g);
      PushAllSnoc(Zeros(n), init, x);
      PushAllSnoc(Zeros(n), prev, Output(before, x, d, g));
    }
  }

  /** Read from histories built from silence, the stage's output is the next
      sample of the recurrence. */
  lemma OutputFromSilence(n: nat, xs: seq<real>, x: real, prev: seq<real>, d: nat, g: real)
    requires d < n && |prev| == |xs|
    ensures Output(ShiftDelay.Registers(PushAll(Zeros(n), xs), PushAll(Zeros(n), prev)), x, d, g)
         == AllpassSample(xs + [x], prev, d, g)
  {
    TapsFromSilence(n, xs, x, prev, d);
    var r := ShiftDelay.Registers(PushAll(Zeros(n), xs), PushAll(Zeros(n), prev));
    var a, b := At(xs + [x], |prev| - d - 1), At(prev, |prev| - d - 1);
    OutputIs(r, x, d, g, a, b);
    SampleIs(xs + [x], prev, d, g, x, a, b);
  }

  lemma SampleIs(xs: seq<real>, prev: seq<real>, d: nat, g: real, x: real, a: real, b: real)
    requires At(xs, |prev|) == x && At(xs, |prev| - d - 1) == a && At(prev, |prev| - d - 1) == b
    ensures AllpassSample(xs, prev, d, g) == -g * x + a + g * b
  {
  }

  lemma OutputIs(r: Registers, x: real, d: nat, g: real, a: real, b: real)
    requires ShiftDelay.Fits(r, d) && r.xs[d] == a && r.ys[d] == b
    ensures Output(r, x, d, g) == -g * x + a + g * b
  {
  }

  lemma TapsFromSilence(n: nat, xs: seq<real>, x: real, prev: seq<real>, d: nat)
    requires d < n && |prev| == |xs|
    ensures PushAll(Zeros(n), xs)[d] == At(xs + [x], |prev| - d - 1)
    ensures PushAll(Zeros(n), prev)[d] == At(prev, |prev| - d - 1)
    ensures x == At(xs + [x], |prev|)
  {
    PushAllFromSilence(n, xs, d);
    PushAllFromSilence(n, prev, d);
  }

  /** With zero gain the stage is a pure delay of `D + 1` samples. */
  lemma {:induction false} AllpassWithoutGain(xs: seq<real>, d: nat, i: nat)
    requires i < |xs|
    ensures Allpass(xs, d, 0.0)[i] == At(xs, i - d - 1)
    decreases |xs|
  {
    var init := xs[..|xs| - 1];
    if i < |init| {
      AllpassWithoutGain(init, d, i);
      assert Allpass(xs, d, 0.0)[i] == Allpass(init, d, 0.0)[i];
      assert At(init, i - d - 1) == At(xs, i - d - 1);
    }
  }

  /** A constant signal that has settled (inputs and outputs all `v`) passes
      unchanged and leaves the histories as they were: unit gain at DC, for any
      gain `g`. */
  lemma SettledConstantPasses(n: nat, d: nat, g: real, v: real)
    requires d < n
    ensures var r := ShiftDelay.Registers(seq(n, _ => v), seq(n, _ => v));
      Output(r, v, d, g) == v && Tick(r, v, d, g) == r
  {
    var r := ShiftDelay.Registers(seq(n, _ => v), seq(n, _ => v));
    OutputIs(r, v, d, g, v, v);
    assert -g * v + v + g * v == v;
    PushConstant(r.xs, v);
  }

  /** Pushing a constant into a history of that constant changes nothing. */
  lemma PushConstant(s: seq<real>, v: real)
    requires |s| > 0 && forall i :: 0 <= i < |s| ==> s[i] == v
    ensures Push(s, v) == s
  {
    forall i | 0 <= i < |s|
      ensures Push(s, v)[i] == s[i]
    {
      if i > 0 {
        assert Push(s, v)[(i - 1) + 1] == s[i - 1];
      }
    }
  }

  class DelayingAllPass {
    var delaySamples: nat
    var delayMs: real
    var gain: real
    var sampleRate: real
    var leftYBuffer: seq<real>
    var rightYBuffer: seq<real>
    var leftXBuffer: seq<real>
    var rightXBuffer: seq<real>

    function Left(): Registers
      reads this
    {
      ShiftDelay.Registers(leftXBuffer, leftYBuffer)
    }

    function Right(): Registers
      reads this
    {
      ShiftDelay.Registers(rightXBuffer, rightYBuffer)
    }

    /** All four histories have one common length. */
    ghost predicate Valid()
      reads this
    {
      |leftXBuffer| == |leftYBuffer| == |rightXBuffer| == |rightYBuffer|
    }

    /** The tap lies inside the histories (indexing panics otherwise). */
    ghost predicate Ready()
      reads this
    {
      Valid() && delaySamples < |leftXBuffer|
    }

    /** `DelayingAllPass::new`: `sample_rate as usize` zeros per history. */
    constructor (sampleRate: real, delayMs: real, gain: real)
      ensures Valid()
      ensures delaySamples == DelaySamples(delayMs, sampleRate)
      ensures this.delayMs == delayMs && this.gain == gain && this.sampleRate == sampleRate
      ensures leftXBuffer == Zeros(ToUsize(sampleRate)) && leftYBuffer == Zeros(ToUsize(sampleRate))
      ensures rightXBuffer == Zeros(ToUsize(sampleRate)) && rightYBuffer == Zeros(ToUsize(sampleRate))
    {
      var n := ToUsize(sampleRate);
      var lx := ZeroFilled(n);
      var rx := ZeroFilled(n);
      var ly := ZeroFilled(n);
      var ry := ZeroFilled(n);
      this.sampleRate := sampleRate;
      this.delaySamples := RoundToUsize(delayMs / 1000.0 * sampleRate);
      this.delayMs := delayMs;
      leftYBuffer, rightYBuffer, leftXBuffer, rightXBuffer := ly, ry, lx, rx;
      this.gain := gain;
    }

    /** `new_samples`: re-initialise with the tap given in samples (truncated). */
    method NewSamples(sampleRate: real, delaySamples: real, gain: real)
      modifies this
      ensures Valid()
      ensures this.sampleRate == sampleRate && this.gain == gain
      ensures this.delaySamples == ToUsize(delaySamples) && delayMs == old(delayMs)
      ensures leftXBuffer == Zeros(ToUsize(sampleRate)) && leftYBuffer == Zeros(ToUsize(sampleRate))
      ensures rightXBuffer == Zeros(ToUsize(sampleRate)) && rightYBuffer == Zeros(ToUsize(sampleRate))
    {
      this.sampleRate := sampleRate;
      this.delaySamples := ToUsize(delaySamples);
      this.gain := gain;
      ResizeBuffers(sampleRate);
    }

    /** `resize_buffers`: fresh silent histories of `sample_rate as usize` samples;
        the tap is kept. */
    method ResizeBuffers(sampleRate: real)
      modifies this`sampleRate, this`leftXBuffer, this`leftYBuffer, this`rightXBuffer, this`rightYBuffer
      ensures Valid()
      ensures this.sampleRate == sampleRate
      ensures leftXBuffer == Zeros(ToUsize(sampleRate)) && leftYBuffer == Zeros(ToUsize(sampleRate))
      ensures rightXBuffer == Zeros(ToUsize(sampleRate)) && rightYBuffer == Zeros(ToUsize(sampleRate))
    {
      this.sampleRate := sampleRate;
      var n := ToUsize(sampleRate);
      leftYBuffer := ZeroFilled(n);
      rightYBuffer := ZeroFilled(n);
      leftXBuffer := ZeroFilled(n);
      rightXBuffer := ZeroFilled(n);
    }

    /** `set_params`: the tap from milliseconds at the stored sample rate. */
    method SetParams(delayMs: real, gain: real)
      modifies this`delaySamples, this`delayMs, this`gain
      ensures delaySamples == DelaySamples(delayMs, sampleRate)
      ensures this.delayMs == delayMs && this.gain == gain
    {
      delaySamples := RoundToUsize(delayMs / 1000.0 * sampleRate);
      this.delayMs := delayMs;
      this.gain := gain;
    }

    /** `process_left`: one all-pass step of the left histories only. */
    method ProcessLeft(x: real) returns (y: real)
      requires Ready()
      modifies this`leftXBuffer, this`leftYBuffer
      ensures Ready()
      ensures y == Output(old(Left()), x, delaySamples, gain)
      ensures Left() == Tick(old(Left()), x, delaySamples, gain)
    {
      y := -gain * x + leftXBuffer[delaySamples] + gain * leftYBuffer[delaySamples];
      leftXBuffer := RotateRight(leftXBuffer)[0 := x];
      leftYBuffer := RotateRight(leftYBuffer)[0 := y];
    }

    /** `process_right`: one all-pass step of the right histories only. */
    method ProcessRight(x: real) returns (y: real)
      requires Ready()
      modifies this`rightXBuffer, this`rightYBuffer
      ensures Ready()
      ensures y == Output(old(Right()), x, delaySamples, gain)
      ensures Right() == Tick(old(Right()), x, delaySamples, gain)
    {
      y := -gain * x + rightXBuffer[delaySamples] + gain * rightYBuffer[delaySamples];
      rightXBuffer := RotateRight(rightXBuffer)[0 := x];
      rightYBuffer := RotateRight(rightYBuffer)[0 := y];
    }
  }
}
