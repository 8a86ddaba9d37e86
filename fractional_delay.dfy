/** The interpolating circular delay line of flanger/src/delay.rs (the chorus of
    chorus/src/chorus.rs uses the same contract): a write cursor over a ring of
    `buffer_size` input samples, read at a fractional distance behind the cursor
    with linear interpolation. */
module FractionalDelay {
  import opened Numeric
  import opened Buffers

  /** Seconds of history the ring holds. */
  const MaxDelay: nat := 1

  /** `((write_index + buffer_size) as f32 − delay) % buffer_size as f32`: the
      fractional position `delay` samples behind the cursor. When the delay
      exceeds `write_index + buffer_size` the dividend is negative and so is the
      result. */
  function ReadIndex(w: nat, n: nat, d: real): (r: real)
    requires n > 0
    ensures d <= (w + n) as real ==> 0.0 <= r < n as real
    ensures d > (w + n) as real ==> -(n as real) < r <= 0.0
  {
    FMod((w + n) as real - d, n as real)
  }

  /** The interpolated read at position `r`: `floor() as usize` (0 for a negative
      position), the sample after it (wrapping), weighted by `fract()`. */
  function Tap(buf: seq<real>, r: real): (y: real)
    requires |buf| > 0 && r < |buf| as real
  {
    var i := ToUsize(r);
    var f := Fract(r);
    buf[i] * (1.0 - f) + buf[(i + 1) % |buf|] * f
  }

  /** `calculate_read_index` (unused by `process_sample`): the cursor less the
      delay, wrapped once in either direction. */
  function CalculateReadIndex(w: nat, n: nat, d: real): (r: real)
    ensures (w as real) - d < 0.0 ==> r == (w as real) - d + n as real
    ensures 0.0 <= (w as real) - d <= n as real ==> r == (w as real) - d
  {
    var r := w as real - d;
    if r < 0.0 then r + n as real
    else if r > n as real then r - n as real
    else r
  }

  /** For every non-negative delay the ring can serve, the unused helper and the
      modulo formula agree. */
  lemma CalculateReadIndexAgrees(w: nat, n: nat, d: real)
    requires w < n && 0.0 <= d <= (w + n) as real
    ensures CalculateReadIndex(w, n, d) == ReadIndex(w, n, d)
  {
    FModOneWrap((w + n) as real - d, n as real);
  }

  /** `Tap` is the interpolation of `process_sample`, given its two parts. */
  lemma TapIs(buf: seq<real>, r: real, i: nat, f: real)
    requires |buf| > 0 && r < |buf| as real && i == ToUsize(r) && f == Fract(r)
    ensures Tap(buf, r) == buf[i] * (1.0 - f) + buf[(i + 1) % |buf|] * f
  {
  }

  /** A read exactly on a sample returns that sample, with no smearing into its
      neighbour. */
  lemma TapOnSample(buf: seq<real>, j: nat)
    requires j < |buf|
    ensures Tap(buf, j as real) == buf[j]
  {
    assert Trunc(j as real) == j;
    assert Fract(j as real) == 0.0;
  }

  /** A read between two samples lies between them (linear interpolation). */
  lemma TapInterpolates(buf: seq<real>, r: real)
    requires |buf| > 0 && 0.0 <= r < |buf| as real
    ensures var i := ToUsize(r);
      var lo, hi := buf[i], buf[(i + 1) % |buf|];
      (lo <= hi ==> lo <= Tap(buf, r) <= hi) && (hi <= lo ==> hi <= Tap(buf, r) <= lo)
  {
    var i := ToUsize(r);
    var f := Fract(r);
    Between(buf[i], buf[(i + 1) % |buf|], f);
  }

  lemma Between(lo: real, hi: real, f: real)
    requires 0.0 <= f < 1.0
    ensures lo <= hi ==> lo <= lo * (1.0 - f) + hi * f <= hi
    ensures hi <= lo ==> hi <= lo * (1.0 - f) + hi * f <= lo
  {
    assert lo * (1.0 - f) + hi * f == lo + (hi - lo) * f;
    FractionOfSpan(f, hi - lo);
  }

  /** A whole-sample delay `k` (up to a full ring past the cursor) reads the sample
      written `k` steps before the cursor position. */
  lemma WholeDelayReadsPast(buf: seq<real>, w: nat, k: nat)
    requires w < |buf| && k <= w + |buf|
    ensures Tap(buf, ReadIndex(w, |buf|, k as real)) == buf[(w + |buf| - k) % |buf|]
  {
    var n := |buf|;
    FModOfNat(w + n - k, n);
    assert (w + n) as real - k as real == (w + n - k) as real;
    TapOnSample(buf, (w + n - k) % n);
  }

  /** A delay of zero returns the sample just written. */
  lemma ZeroDelayIsIdentity(buf: seq<real>, w: nat, x: real)
    requires w < |buf|
    ensures Tap(buf[w := x], ReadIndex(w, |buf|, 0.0)) == x
  {
    var written := buf[w := x];
    WholeDelayReadsPast(written, w, 0);
    OneTurnLater(w, |buf|);
    assert written[w] == x;
  }

  lemma OneTurnLater(w: nat, n: nat)
    requires w < n
    ensures (w + n - 0) % n == w
  {
  }

  /** The ring after `process_sample` has written the samples of `xs`, one per
      step, starting at cursor `w`. */
  function WriteAll(buf: seq<real>, w: nat, xs: seq<real>): (r: seq<real>)
    requires w < |buf|
    ensures |r| == |buf|
    decreases |xs|
  {
    if xs == [] then buf
    else WriteAll(buf, w, xs[..|xs| - 1])[(w + |xs| - 1) % |buf| := xs[|xs| - 1]]
  }

  lemma WriteAllSnoc(buf: seq<real>, w: nat, xs: seq<real>, x: real)
    requires w < |buf|
    ensures WriteAll(buf, w, xs + [x]) == WriteAll(buf, w, xs)[(w + |xs|) % |buf| := x]
  {
    assert (xs + [x])[..|xs|] == xs;
  }

  /** The last `|buf|` samples written are all still in the ring, each `k` slots
      behind the last write. */
  lemma {:induction false} WriteAllKeepsRecent(buf: seq<real>, w: nat, xs: seq<real>, k: nat)
    requires w < |buf| && k < |xs| && k < |buf|
    ensures WriteAll(buf, w, xs)[(w + |xs| - 1 - k) % |buf|] == xs[|xs| - 1 - k]
    decreases |xs|
  {
    if k > 0 {
      var init := xs[..|xs| - 1];
      WriteAllKeepsRecent(buf, w, init, k - 1);
      DistinctSlots(w + |xs| - 1, k, |buf|);
      assert init[|init| - 1 - (k - 1)] == xs[|xs| - 1 - k];
    }
  }

  /** Slots fewer than a full turn apart are distinct. */
  lemma DistinctSlots(a: nat, k: nat, n: nat)
    requires 0 < k < n && k <= a
    ensures a % n != (a - k) % n
  {
    var q, r := a / n, a % n;
    if r >= k {
      DivModUnique(a - k, n, q, r - k);
    } else {
      DivModUnique(a - k, n, q - 1, r - k + n);
    }
  }

  /** Stepping back `k < n` slots from the cursor `a % n` on the ring. */
  lemma BackOnRing(a: nat, k: nat, n: nat)
    requires k <= a && k < n
    ensures (a % n + n - k) % n == (a - k) % n
  {
    var q, r := a / n, a % n;
    if r >= k {
      DivModUnique(r + n - k, n, 1, r - k);
      DivModUnique(a - k, n, q, r - k);
    } else {
      DivModUnique(r + n - k, n, 0, r + n - k);
      DivModUnique(a - k, n, q - 1, r + n - k);
    }
  }

  /** The delay-line property: after the samples `xs` have gone through
      `process_sample`, a whole-sample delay `k` shorter than the ring returns the
      input of `k` steps earlier. */
  lemma WholeDelayRecallsInput(buf: seq<real>, w: nat, xs: seq<real>, k: nat)
    requires w < |buf| && k < |xs| && k < |buf|
    ensures var cursor := (w + |xs| - 1) % |buf|;
      Tap(WriteAll(buf, w, xs), ReadIndex(cursor, |buf|, k as real)) == xs[|xs| - 1 - k]
  {
    var n := |buf|;
    var ring := WriteAll(buf, w, xs);
    var cursor := (w + |xs| - 1) % n;
    WholeDelayReadsPast(ring, cursor, k);
    BackOnRing(w + |xs| - 1, k, n);
    WriteAllKeepsRecent(buf, w, xs, k);
  }

  /** A delay longer than `write_index + buffer_size` makes the position negative:
      the read is pinned to the first two samples and extrapolates with a weight
      in (−1, 0]. */
  lemma OverlongDelayReadsFront(buf: seq<real>, w: nat, d: real)
    requires |buf| > 0 && d > (w + |buf|) as real
    ensures var f := Fract(ReadIndex(w, |buf|, d));
      -1.0 < f <= 0.0 &&
      Tap(buf, ReadIndex(w, |buf|, d)) == buf[0] * (1.0 - f) + buf[1 % |buf|] * f
  {
  }

  /** The state of a delay line as one value: the input ring, the output ring and
      the write cursor. */
  datatype Ring = Ring(xs: seq<real>, ys: seq<real>, w: nat)

  /** A ring `process_sample` can run on: non-empty, both rings of one size, the
      cursor inside. */
  predicate RingReady(r: Ring) {
    |r.xs| == |r.ys| && r.w < |r.xs|
  }

  /** The output of `process_sample(x, d)`: the ring with `x` written at the
      cursor, read `d` samples behind it. */
  function Read(r: Ring, x: real, d: real): real
    requires RingReady(r)
  {
    Tap(r.xs[r.w := x], ReadIndex(r.w, |r.xs|, d))
  }

  /** The state after `process_sample(x, d)`. */
  function Advance(r: Ring, x: real, d: real): (r': Ring)
    requires RingReady(r)
    ensures RingReady(r') && |r'.xs| == |r.xs|
  {
    Ring(r.xs[r.w := x], r.ys[r.w := Read(r, x, d)], (r.w + 1) % |r.xs|)
  }

  /** The state after the samples `xs` with the delays `ds`, first to last.
      Successive steps write successive inputs: the input ring is `WriteAll` from
      the first cursor, and the cursor has moved `|xs|` slots. */
  function AdvanceAll(r: Ring, xs: seq<real>, ds: seq<real>): (r': Ring)
    requires RingReady(r) && |ds| == |xs|
    ensures RingReady(r') && |r'.xs| == |r.xs|
    ensures r'.xs == WriteAll(r.xs, r.w, xs)
    ensures r'.w == (r.w + |xs|) % |r.xs|
    decreases |xs|
  {
    if xs == [] then r
    else
      var init := xs[..|xs| - 1];
      CursorStep(r.w + |init|, |r.xs|);
      Advance(AdvanceAll(r, init, ds[..|ds| - 1]), xs[|xs| - 1], ds[|ds| - 1])
  }

  /** The cursor after a slot inside the ring is the next slot, or the first. */
  lemma NextSlot(w: nat, n: nat)
    requires w < n
    ensures (w + 1) % n == if w + 1 < n then w + 1 else 0
  {
    if w + 1 < n {
      DivModUnique(w + 1, n, 0, w + 1);
    } else {
      DivModUnique(w + 1, n, 1, 0);
    }
  }

  /** One more step moves the wrapped cursor one slot on, wrapping again. */
  lemma CursorStep(a: nat, n: nat)
    requires n > 0
    ensures (a % n + 1) % n == (a + 1) % n
  {
    var q, r := a / n, a % n;
    if r + 1 < n {
      DivModUnique(a + 1, n, q, r + 1);
      DivModUnique(r + 1, n, 0, r + 1);
    } else {
      DivModUnique(a + 1, n, q + 1, 0);
      DivModUnique(r + 1, n, 1, 0);
    }
  }

  /** Whatever the delays of the steps before, a whole-sample delay `k` shorter
      than the ring returns the input of `k` steps earlier. */
  lemma DelayLineRecallsInput(r: Ring, xs: seq<real>, ds: seq<real>, s: Ring, x: real, k: nat)
    requires RingReady(r) && |ds| == |xs| && k <= |xs| && k < |r.xs|
    requires s == AdvanceAll(r, xs, ds)
    ensures Read(s, x, k as real) == (xs + [x])[|xs| - k]
  {
    RingRecallsInput(r.xs, r.w, xs, s, x, k);
  }

  /** Any ring whose inputs are `xs` written from cursor `w`. */
  lemma RingRecallsInput(buf: seq<real>, w: nat, xs: seq<real>, s: Ring, x: real, k: nat)
    requires w < |buf| && RingReady(s) && k <= |xs| && k < |buf|
    requires s.xs == WriteAll(buf, w, xs) && s.w == (w + |xs|) % |buf|
    ensures Read(s, x, k as real) == (xs + [x])[|xs| - k]
  {
    var n := |buf|;
    var all := xs + [x];
    WriteAllSnoc(buf, w, xs, x);
    var cursor := (w + |all| - 1) % n;
    ReadAt(s, x, k as real, WriteAll(buf, w, all), ReadIndex(cursor, n, k as real));
    WholeDelayRecallsInput(buf, w, all, k);
    assert all[|all| - 1 - k] == (xs + [x])[|xs| - k];
  }

  lemma ReadAt(s: Ring, x: real, d: real, ring: seq<real>, r: real)
    requires RingReady(s) && ring == s.xs[s.w := x] && r == ReadIndex(s.w, |s.xs|, d)
    ensures Read(s, x, d) == Tap(ring, r)
  {
  }

  class Delay {
    var xBuffer: seq<real>
    var yBuffer: seq<real>
    var bufferSize: nat
    var writeIndex: nat
    var sampleRate: real
    /** The delay field the chorus stores into; `process_sample` takes its delay
        as an argument instead. */
    var delay: real

    /** The delay line's state as one value. */
    function State(): Ring
      reads this
    {
      Ring(xBuffer, yBuffer, writeIndex)
    }

    ghost predicate Valid()
      reads this
    {
      |xBuffer| == bufferSize && |yBuffer| == bufferSize
    }

    /** The state `process_sample` can run in: a non-empty ring and the cursor
        inside it (otherwise the indexing panics). */
    ghost predicate Ready()
      reads this
    {
      Valid() && writeIndex < bufferSize
    }

    /** `Delay::new`: `MAX_DELAY·sample_rate` zeros and the cursor at 0. */
    constructor (sampleRate: nat, delay: real)
      ensures Valid()
      ensures bufferSize == MaxDelay * sampleRate && writeIndex == 0
      ensures xBuffer == Zeros(bufferSize) && yBuffer == Zeros(bufferSize)
      ensures this.sampleRate == sampleRate as real && this.delay == delay
      ensures sampleRate > 0 ==> Ready()
    {
      var n := MaxDelay * sampleRate;
      xBuffer := seq(n, _ => 0.0);
      yBuffer := seq(n, _ => 0.0);
      bufferSize := n;
      writeIndex := 0;
      this.sampleRate := sampleRate as real;
      this.delay := delay;
    }

    /** `resize_buffers`: both rings are resized in place (the kept prefix keeps
        its samples) and the cursor is left where it was, so the delay stays
        usable only when the cursor still lies inside the new ring. */
    method ResizeBuffers(sampleRate: nat)
      modifies this`xBuffer, this`yBuffer, this`bufferSize
      ensures Valid()
      ensures bufferSize == MaxDelay * sampleRate
      ensures xBuffer == Resized(old(xBuffer), bufferSize)
      ensures yBuffer == Resized(old(yBuffer), bufferSize)
      ensures Ready() <==> writeIndex < MaxDelay * sampleRate
    {
      var n := MaxDelay * sampleRate;
      xBuffer := Resized(xBuffer, n);
      yBuffer := Resized(yBuffer, n);
      bufferSize := n;
    }

    /** `process_sample`: write `x` at the cursor, read it back `delaySamples`
        behind, record the output, advance the cursor. */
    method ProcessSample(x: real, delaySamples: real) returns (y: real)
      requires Ready()
      modifies this`xBuffer, this`yBuffer, this`writeIndex
      ensures Ready()
      ensures y == Read(old(State()), x, delaySamples)
      ensures State() == Advance(old(State()), x, delaySamples)
    {
      ghost var before := State();
      xBuffer := xBuffer[writeIndex := x];
      var readIndex := FMod((writeIndex + bufferSize) as real - delaySamples, bufferSize as real);
      var readIndexFloor := ToUsize(readIndex);
      var readIndexFrac := Fract(readIndex);
      y := xBuffer[readIndexFloor] * (1.0 - readIndexFrac)
        + xBuffer[(readIndexFloor + 1) % bufferSize] * readIndexFrac;
      TapIs(xBuffer, readIndex, readIndexFloor, readIndexFrac);
      ReadAt(before, x, delaySamples, xBuffer, readIndex);
      yBuffer := yBuffer[writeIndex := y];
      NextSlot(writeIndex, bufferSize);
      writeIndex := (writeIndex + 1) % bufferSize;
    }
  }
}
