/** The shift-register delay of phaser/src/delay.rs (the chorus of
    biquad_filter/src/chorus.rs uses the same contract): input and output
    histories with the newest sample at index 0, aged by one sample per call. */
module ShiftDelay {
  import opened Numeric
  import opened Buffers

  /** Seconds of history each register holds. */
  const MaxDelay: nat := 3

  /** The two histories: inputs and outputs, newest first. */
  datatype Registers = Registers(xs: seq<real>, ys: seq<real>)

  predicate Fits(r: Registers, d: nat) {
    0 < |r.xs| && |r.xs| == |r.ys| && d < |r.xs|
  }

  /** The output of one `process_sample`: the input tap is read after `x` was
      pushed (so tap 0 is `x` itself and tap `d` the input `d` calls back), the
      output tap before the new output is. */
  function Output(r: Registers, x: real, d: nat, fb: real): real
    requires Fits(r, d)
  {
    (if d == 0 then x else r.xs[d - 1]) + fb * r.ys[d]
  }

  /** One `process_sample` on the histories. */
  function Tick(r: Registers, x: real, d: nat, fb: real): (r': Registers)
    requires Fits(r, d)
    ensures Fits(r', d)
  {
    Registers(Push(r.xs, x), Push(r.ys, Output(r, x, d, fb)))
  }

  /** The histories after the inputs `xs`, first to last, with a fixed delay. */
  function Run(r: Registers, xs: seq<real>, d: nat, fb: real): (r': Registers)
    requires Fits(r, d)
    ensures Fits(r', d) && |r'.xs| == |r.xs|
    decreases |xs|
  {
    if xs == [] then r else Tick(Run(r, xs[..|xs| - 1], d, fb), xs[|xs| - 1], d, fb)
  }

  /** The next output of the recurrence `y[n] = x[n − d] + fb·y[n − d − 1]`, given
      the inputs `xs` up to step `n` and the outputs `prev` before it. The feedback
      tap is one sample older than the input tap, because the output history is
      read before the new output is pushed. */
  function EchoSample(xs: seq<real>, prev: seq<real>, d: nat, fb: real): real {
    At(xs, |prev| - d) + fb * At(prev, |prev| - d - 1)
  }

  /** The outputs of the recurrence from silence. */
  function Echo(xs: seq<real>, d: nat, fb: real): (ys: seq<real>)
    ensures |ys| == |xs|
    decreases |xs|
  {
    if xs == [] then []
    else
      var prev := Echo(xs[..|xs| - 1], d, fb);
      prev + [EchoSample(xs, prev, d, fb)]
  }

  /** From silent registers longer than the delay, the histories are exactly the
      inputs pushed so far and the outputs of the echo recurrence. */
  lemma {:induction false} RunComputesEcho(n: nat, xs: seq<real>, d: nat, fb: real)
    requires d < n
    ensures Run(Registers(Zeros(n), Zeros(n)), xs, d, fb)
         == Registers(PushAll(Zeros(n), xs), PushAll(Zeros(n), Echo(xs, d, fb)))
    decreases |xs|
  {
    if xs != [] {
      var init, x := xs[..|xs| - 1], xs[|xs| - 1];
      assert xs == init + [x];
      RunComputesEcho(n, init, d, fb);
      var prev := Echo(init, d, fb);
      var before := Registers(PushAll(Zeros(n), init), PushAll(Zeros(n), prev));
      var y := Output(before, x, d, fb);
      OutputFromSilence(n, init, prev, x, d, fb);
      PushAllSnoc(Zeros(n), init, x);
      PushAllSnoc(Zeros(n), prev, y);
    }
  }

  /** The output tap of the histories built from silence is the recurrence, for
      any output history `prev` as long as the inputs. */
  lemma OutputFromSilence(n: nat, xs: seq<real>, prev: seq<real>, x: real, d: nat, fb: real)
    requires d < n && |prev| == |xs|
    ensures Output(Registers(PushAll(Zeros(n), xs), PushAll(Zeros(n), prev)), x, d, fb)
         == EchoSample(xs + [x], prev, d, fb)
  {
    TapsFromSilence(n, xs, x, prev, d);
    OutputOfTaps(PushAll(Zeros(n), xs), PushAll(Zeros(n), prev), xs, prev, x, d, fb);
  }

  /** Any histories whose taps hold the recurrence's operands produce its output. */
  lemma OutputOfTaps(rx: seq<real>, ry: seq<real>, xs: seq<real>, prev: seq<real>, x: real, d: nat, fb: real)
    requires Fits(Registers(rx, ry), d)
    requires Push(rx, x)[d] == At(xs + [x], |prev| - d) && ry[d] == At(prev, |prev| - d - 1)
    ensures Output(Registers(rx, ry), x, d, fb) == EchoSample(xs + [x], prev, d, fb)
  {
  }

  /** Both taps read the silence before the first sample as zero. */
  lemma TapsFromSilence(n: nat, xs: seq<real>, x: real, prev: seq<real>, d: nat)
    requires d < n && |prev| == |xs|
    ensures Push(PushAll(Zeros(n), xs), x)[d] == At(xs + [x], |prev| - d)
    ensures PushAll(Zeros(n), prev)[d] == At(prev, |prev| - d - 1)
  {
    PushAllSnoc(Zeros(n), xs, x);
    PushAllAt(Zeros(n), xs + [x], d);
    PushAllAt(Zeros(n), prev, d);
  }

  /** Without feedback the register is a pure delay of `d` samples (and with
      `d = 0`, the identity). */
  lemma {:induction false} EchoWithoutFeedback(xs: seq<real>, d: nat, i: nat)
    requires i < |xs|
    ensures Echo(xs, d, 0.0)[i] == At(xs, i - d)
    decreases |xs|
  {
    var init := xs[..|xs| - 1];
    if i < |init| {
      EchoWithoutFeedback(init, d, i);
      assert Echo(xs, d, 0.0)[i] == Echo(init, d, 0.0)[i];
      assert At(init, i - d) == At(xs, i - d);
    }
  }

  class Delay {
    var xBuffer: seq<real>
    var yBuffer: seq<real>
    var delay: nat
    var feedback: real

    /** Both histories as one value. */
    function History(): Registers
      reads this
    {
      Registers(xBuffer, yBuffer)
    }

    ghost predicate Valid()
      reads this
    {
      |xBuffer| == |yBuffer| && 0.0 <= feedback <= 1.0
    }

    /** `Delay::new`: `MAX_DELAY·sample_rate` zeros in each history, the feedback
        clamped to [0, 1]. */
    constructor (sampleRate: nat, delay: nat, feedback: real)
      ensures Valid()
      ensures xBuffer == Zeros(MaxDelay * sampleRate) && yBuffer == Zeros(MaxDelay * sampleRate)
      ensures this.delay == delay
      ensures this.feedback == Clamp(feedback, 0.0, 1.0)
    {
      var xs := ZeroFilled(MaxDelay * sampleRate);
      var ys := ZeroFilled(MaxDelay * sampleRate);
      xBuffer, yBuffer := xs, ys;
      this.delay := delay;
      this.feedback := if feedback > 1.0 then 1.0 else if feedback < 0.0 then 0.0 else feedback;
    }

    /** `resize_buffers`: fresh silent histories for the new rate. */
    method ResizeBuffers(sampleRate: nat)
      requires Valid()
      modifies this`xBuffer, this`yBuffer
      ensures Valid()
      ensures xBuffer == Zeros(MaxDelay * sampleRate) && yBuffer == Zeros(MaxDelay * sampleRate)
    {
      xBuffer := ZeroFilled(MaxDelay * sampleRate);
      yBuffer := ZeroFilled(MaxDelay * sampleRate);
    }

    /** `process_sample`: the tap `delay` must lie inside the histories (the
        `unwrap` panics otherwise). */
    method ProcessSample(x: real, delay: nat) returns (y: real)
      requires Valid() && Fits(History(), delay)
      modifies this`xBuffer, this`yBuffer
      ensures Valid()
      ensures y == Output(old(History()), x, delay, feedback)
      ensures History() == Tick(old(History()), x, delay, feedback)
    {
      xBuffer := RotateRight(xBuffer);
      xBuffer := xBuffer[0 := x];
      y := xBuffer[delay] + feedback * yBuffer[delay];
      yBuffer := RotateRight(yBuffer);
      yBuffer := yBuffer[0 := y];
    }
  }
}
