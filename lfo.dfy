/** The sine low-frequency oscillator of chorus/src/lfo.rs: a phase accumulator
    read without advancing, and advanced by an explicit call. */
module Lfo {
  import opened Libm
  import opened Numeric

  /** The phase step of one `update_lfo` call: `2π·rate/sample_rate`. */
  function Increment(rate: real, sampleRate: real): (inc: real)
    requires sampleRate > 0.0
    ensures rate >= 0.0 ==> inc >= 0.0
    ensures rate <= sampleRate && rate >= 0.0 ==> inc <= TwoPi
  {
    var inc := TwoPi * rate / sampleRate;
    IncrementBound(rate, sampleRate);
    inc
  }

  lemma IncrementBound(rate: real, sampleRate: real)
    requires sampleRate > 0.0
    ensures rate >= 0.0 ==> TwoPi * rate / sampleRate >= 0.0
    ensures rate <= sampleRate && rate >= 0.0 ==> TwoPi * rate / sampleRate <= TwoPi
  {
    if 0.0 <= rate <= sampleRate {
      assert rate / sampleRate <= 1.0;
      assert TwoPi * rate / sampleRate == TwoPi * (rate / sampleRate);
    }
  }

  /** One `update_lfo` step on the phase: add the increment, then subtract 2π once
      when the sum exceeds 2π (strictly). */
  function Advance(phase: real, inc: real): real {
    var p := phase + inc;
    if p > TwoPi then p - TwoPi else p
  }

  /** The step wraps at most once: the new phase is the sum, or the sum less 2π. */
  lemma AdvanceWrapsAtMostOnce(phase: real, inc: real)
    ensures Advance(phase, inc) == phase + inc || Advance(phase, inc) == phase + inc - TwoPi
    ensures phase + inc <= 2.0 * TwoPi ==> Advance(phase, inc) <= TwoPi
    ensures Advance(phase, inc) > TwoPi ==> phase + inc > 2.0 * TwoPi
  {
  }

  /** From the closed range [0, 2π], a step of at most 2π stays in [0, 2π]. */
  lemma AdvanceInRange(phase: real, inc: real)
    requires 0.0 <= phase <= TwoPi && 0.0 <= inc <= TwoPi
    ensures 0.0 <= Advance(phase, inc) <= TwoPi
  {
  }

  /** The range is closed: the test is `>`, so a phase of exactly 2π is kept. */
  lemma AdvanceCanReachTwoPi()
    ensures Advance(PI, PI) == TwoPi
  {
  }

  /** `n` consecutive `update_lfo` calls with a fixed increment. */
  function AdvanceN(phase: real, inc: real, n: nat): real {
    if n == 0 then phase else Advance(AdvanceN(phase, inc, n - 1), inc)
  }

  /** How many of those `n` steps wrapped. */
  function WrapCount(phase: real, inc: real, n: nat): (w: nat)
    ensures w <= n
  {
    if n == 0 then 0
    else WrapCount(phase, inc, n - 1) + (if AdvanceN(phase, inc, n - 1) + inc > TwoPi then 1 else 0)
  }

  /** Any number of steps keeps a phase that starts in [0, 2π] in [0, 2π]. */
  lemma {:induction false} AdvanceNInRange(phase: real, inc: real, n: nat)
    requires 0.0 <= phase <= TwoPi && 0.0 <= inc <= TwoPi
    ensures 0.0 <= AdvanceN(phase, inc, n) <= TwoPi
  {
    if n > 0 {
      AdvanceNInRange(phase, inc, n - 1);
      AdvanceInRange(AdvanceN(phase, inc, n - 1), inc);
    }
  }

  /** The start plus `n` increments, less `w` whole turns. */
  function Unwrapped(phase: real, inc: real, n: nat, w: nat): real {
    phase + n as real * inc - w as real * TwoPi
  }

  /** No drift is introduced by wrapping: after `n` steps the phase is the start
      plus `n` increments, less a whole number of turns. */
  lemma {:induction false} AdvanceNCongruent(phase: real, inc: real, n: nat)
    ensures AdvanceN(phase, inc, n) == Unwrapped(phase, inc, n, WrapCount(phase, inc, n))
  {
    if n > 0 {
      AdvanceNCongruent(phase, inc, n - 1);
      CongruentStep(phase, inc, n);
    }
  }

  /** One step keeps the phase congruent to the start plus the increments. */
  lemma CongruentStep(phase: real, inc: real, n: nat)
    requires n > 0
    requires AdvanceN(phase, inc, n - 1) == Unwrapped(phase, inc, n - 1, WrapCount(phase, inc, n - 1))
    ensures AdvanceN(phase, inc, n) == Unwrapped(phase, inc, n, WrapCount(phase, inc, n))
  {
    var prev := AdvanceN(phase, inc, n - 1);
    var w := WrapCount(phase, inc, n - 1);
    UnwrappedStep(phase, inc, n - 1, w);
    assert AdvanceN(phase, inc, n) == Advance(prev, inc);
    if prev + inc > TwoPi {
      assert WrapCount(phase, inc, n) == w + 1;
    } else {
      assert WrapCount(phase, inc, n) == w;
    }
  }

  /** One more increment, with or without one more turn taken off. */
  lemma UnwrappedStep(phase: real, inc: real, m: nat, w: nat)
    ensures Unwrapped(phase, inc, m, w) + inc == Unwrapped(phase, inc, m + 1, w)
    ensures Unwrapped(phase, inc, m, w) + inc - TwoPi == Unwrapped(phase, inc, m + 1, w + 1)
  {
    assert (m + 1) as real * inc == m as real * inc + inc;
    assert (w + 1) as real * TwoPi == w as real * TwoPi + TwoPi;
  }

  /** `next_value_range`'s linear map of a value in [-1, 1] onto `start..end`. */
  function Remap(value: real, start: real, end: real): (v: real)
    requires -1.0 <= value <= 1.0
    ensures start <= end ==> start <= v <= end
    ensures start >= end ==> end <= v <= start
    ensures value == -1.0 ==> v == start
    ensures value == 1.0 ==> v == end
    ensures start != end ==> (v == start <==> value == -1.0) && (v == end <==> value == 1.0)
  {
    var scaled := (value + 1.0) / 2.0;
    var span := end - start;
    FractionOfSpan(scaled, span);
    SpanEnds(scaled, span);
    assert scaled == 0.0 <==> value == -1.0;
    assert scaled == 1.0 <==> value == 1.0;
    scaled * span + start
  }

  class Lfo {
    var rate: real
    var phase: real
    var sampleRate: real

    ghost predicate Valid()
      reads this
    {
      sampleRate > 0.0
    }

    /** `LFO::new`: phase 0. */
    constructor (sampleRate: real, rate: real)
      requires sampleRate > 0.0
      ensures Valid()
      ensures this.sampleRate == sampleRate && this.rate == rate && phase == 0.0
    {
      this.sampleRate := sampleRate;
      this.rate := rate;
      phase := 0.0;
    }

    /** `LFO::new_with_phase`: the phase is stored as given. */
    constructor WithPhase(sampleRate: real, rate: real, phase: real)
      requires sampleRate > 0.0
      ensures Valid()
      ensures this.sampleRate == sampleRate && this.rate == rate && this.phase == phase
    {
      this.sampleRate := sampleRate;
      this.rate := rate;
      this.phase := phase;
    }

    /** `LFO::new_random_phase`: `drawn` stands for the draw of the thread-local
        random generator from `0.0..2π`. */
    constructor RandomPhase(sampleRate: real, rate: real, drawn: real)
      requires sampleRate > 0.0
      requires 0.0 <= drawn < TwoPi
      ensures Valid()
      ensures this.sampleRate == sampleRate && this.rate == rate && phase == drawn
      ensures 0.0 <= phase < TwoPi
    {
      this.sampleRate := sampleRate;
      this.rate := rate;
      phase := drawn;
    }

    /** `next_value`: the sine of the current phase; reading does not advance. */
    function NextValue(m: Libm): (v: real)
      reads this
      ensures -1.0 <= v <= 1.0
    {
      Sin(m, phase)
    }

    /** `next_value_range(start..end)`. */
    function NextValueRange(m: Libm, start: real, end: real): (v: real)
      reads this
      ensures start <= end ==> start <= v <= end
      ensures NextValue(m) == -1.0 ==> v == start
      ensures NextValue(m) == 1.0 ==> v == end
      ensures start != end ==> (v == start <==> NextValue(m) == -1.0) && (v == end <==> NextValue(m) == 1.0)
    {
      Remap(NextValue(m), start, end)
    }

    /** `update_lfo`: one phase step with the current rate and sample rate. */
    method UpdateLfo()
      requires Valid()
      modifies this`phase
      ensures phase == Advance(old(phase), Increment(rate, sampleRate))
    {
      phase := phase + TwoPi * rate / sampleRate;
      if phase > TwoPi {
        phase := phase - TwoPi;
      }
    }

    /** `set_sample_rate` (used by the flanger). */
    method SetSampleRate(sampleRate: real)
      requires sampleRate > 0.0
      modifies this`sampleRate
      ensures Valid() && this.sampleRate == sampleRate
    {
      this.sampleRate := sampleRate;
    }
  }
}
