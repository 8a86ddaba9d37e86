/** The sample histories kept in a `VecDeque<f32>`: filled with zeros at
    construction, then on every sample rotated right by one with the new sample
    written to the front. */
module Buffers {

  /** `n` zero samples. */
  ghost function Zeros(n: nat): (s: seq<real>)
    ensures |s| == n
    ensures forall i :: 0 <= i < n ==> s[i] == 0.0
  {
    seq(n, _ => 0.0)
  }

  /** The construction loop `for _ in 0..n { buf.push_front(0.0) }`. */
  method ZeroFilled(n: nat) returns (s: seq<real>)
    ensures |s| == n
    ensures forall i :: 0 <= i < n ==> s[i] == 0.0
    ensures s == Zeros(n)
  {
    s := [];
    var i := 0;
    while i < n
      invariant 0 <= i <= n
      invariant |s| == i
      invariant forall j :: 0 <= j < i ==> s[j] == 0.0
    {
      s := [0.0] + s;
      i := i + 1;
    }
  }

  /** `VecDeque::rotate_right(1)`: the last element moves to the front. */
  function RotateRight(s: seq<real>): (r: seq<real>)
    requires |s| > 0
    ensures |r| == |s|
    ensures r[0] == s[|s| - 1]
    ensures forall k :: 0 <= k < |s| - 1 ==> r[k + 1] == s[k]
  {
    [s[|s| - 1]] + s[..|s| - 1]
  }

  /** `buf.rotate_right(1); buf[0] = x;`: the history ages by one sample, the
      oldest sample is dropped and `x` becomes the newest. */
  function Push(s: seq<real>, x: real): (r: seq<real>)
    requires |s| > 0
    ensures |r| == |s|
    ensures r[0] == x
    ensures forall k :: 0 <= k < |s| - 1 ==> r[k + 1] == s[k]
  {
    RotateRight(s)[0 := x]
  }

  /** `after` is `before` with `x` pushed, stated sample by sample. */
  predicate Pushed(after: seq<real>, before: seq<real>, x: real) {
    |after| == |before| > 0 && after[0] == x &&
    forall k :: 1 <= k < |after| ==> after[k] == before[k - 1]
  }

  /** `Pushed` holds exactly of the result of `Push`. */
  lemma PushedIsPush(after: seq<real>, before: seq<real>, x: real)
    requires |before| > 0
    ensures Pushed(after, before, x) <==> after == Push(before, x)
  {
    if Pushed(after, before, x) {
      var p := Push(before, x);
      forall k | 0 <= k < |after|
        ensures after[k] == p[k]
      {
        if k > 0 {
          assert p[(k - 1) + 1] == before[k - 1];
        }
      }
    }
  }

  /** The history after pushing the samples of `xs`, first to last. */
  function PushAll(s: seq<real>, xs: seq<real>): (r: seq<real>)
    requires |s| > 0
    ensures |r| == |s|
    ensures |xs| > 0 ==> r[0] == xs[|xs| - 1]
  {
    if xs == [] then s else Push(PushAll(s, xs[..|xs| - 1]), xs[|xs| - 1])
  }

  /** After pushing `xs`, index `k` holds the sample pushed `k` pushes before the
      last one, or, when fewer were pushed, a sample of the original history. */
  lemma {:induction false} PushAllAt(s: seq<real>, xs: seq<real>, k: nat)
    requires |s| > 0 && k < |s|
    ensures PushAll(s, xs)[k] == if k < |xs| then xs[|xs| - 1 - k] else s[k - |xs|]
    decreases |xs|
  {
    if xs != [] && k > 0 {
      var init := xs[..|xs| - 1];
      var before := PushAll(s, init);
      assert PushAll(s, xs) == Push(before, xs[|xs| - 1]);
      assert PushAll(s, xs)[k] == before[k - 1];
      PushAllAt(s, init, k - 1);
      if k - 1 < |init| {
        assert init[|init| - 1 - (k - 1)] == xs[|xs| - 1 - k];
      }
    }
  }

  /** A history of zeros stays zero beyond the samples pushed into it. */
  lemma ZeroHistoryAt(n: nat, xs: seq<real>, k: nat)
    requires 0 < n && |xs| <= k < n
    ensures PushAll(Zeros(n), xs)[k] == 0.0
  {
    PushAllAt(Zeros(n), xs, k);
  }

  /** `Vec::resize(n, 0.0)`: the first `min(|s|, n)` samples are kept and any
      new tail is zeros. */
  function Resized(s: seq<real>, n: nat): (r: seq<real>)
    ensures |r| == n
    ensures forall k :: 0 <= k < n && k < |s| ==> r[k] == s[k]
    ensures forall k :: |s| <= k < n ==> r[k] == 0.0
  {
    if n <= |s| then s[..n] else s + seq(n - |s|, _ => 0.0)
  }

  /** `s[i]`, or silence before the start of `s`. */
  function At(s: seq<real>, i: int): real {
    if 0 <= i < |s| then s[i] else 0.0
  }

  /** Pushing one more sample is one more `Push`. */
  lemma PushAllSnoc(s: seq<real>, xs: seq<real>, x: real)
    requires |s| > 0
    ensures PushAll(s, xs + [x]) == Push(PushAll(s, xs), x)
  {
    assert (xs + [x])[..|xs|] == xs;
  }

  /** A history started from silence holds, `k` slots back, the sample pushed
      `k` pushes before the last one, or silence before the first. */
  lemma PushAllFromSilence(n: nat, xs: seq<real>, k: nat)
    requires k < n
    ensures PushAll(Zeros(n), xs)[k] == At(xs, |xs| - 1 - k)
  {
    PushAllAt(Zeros(n), xs, k);
  }
}
