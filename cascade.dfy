/** A bank of biquad stages run in series on one channel, as the phaser of
    phaser_vst/src/phaser.rs and the disperser of
    phase-disperser/src/disperser.rs do: each stage's output is the next
    stage's input, and every stage keeps its own history for that channel. */
module Cascade {
  import opened Libm
  import opened Biquad
  import opened Ownership

  /** Which channel history of a `BiquadFilter` a call steps. */
  datatype Side = Left | Right {
    function Other(): Side {
      if Left? then Right else Left
    }
  }

  function Channel(f: BiquadFilter, side: Side): ChannelState
    reads f`left, f`right
  {
    if side.Left? then f.left else f.right
  }

  /** The channel history of every stage of a bank. */
  ghost function States(fs: seq<BiquadFilter>, side: Side): (ss: seq<ChannelState>)
    reads fs`left, fs`right
    ensures |ss| == |fs|
    ensures forall j :: 0 <= j < |fs| ==> ss[j] == Channel(fs[j], side)
  {
    if fs == [] then [] else States(fs[..|fs| - 1], side) + [Channel(fs[|fs| - 1], side)]
  }

  /** The coefficients of every stage of a bank. */
  ghost function Coefficients(fs: seq<BiquadFilter>): (cs: seq<BiquadCoefficients>)
    reads fs`coeffs
    ensures |cs| == |fs|
    ensures forall j :: 0 <= j < |fs| ==> cs[j] == fs[j].coeffs
  {
    if fs == [] then [] else Coefficients(fs[..|fs| - 1]) + [fs[|fs| - 1].coeffs]
  }

  /** The output of the first `n` stages, with coefficients `cs` and histories
      `ss`, run in index order on the input `x`. */
  function Run(cs: seq<BiquadCoefficients>, ss: seq<ChannelState>, n: nat, x: real): real
    requires n <= |cs| && n <= |ss|
  {
    if n == 0 then x else Step(cs[n - 1], ss[n - 1], Run(cs, ss, n - 1, x)).1
  }

  /** The history stage `k` keeps after that run: one step on the output of the
      stages before it. */
  function StageAfter(cs: seq<BiquadCoefficients>, ss: seq<ChannelState>, x: real, k: nat): ChannelState
    requires k < |cs| && k < |ss|
  {
    Step(cs[k], ss[k], Run(cs, ss, k, x)).0
  }

  /** Stages that all pass DC at unit gain, each resting at level `v`, pass a
      constant `v` through unchanged and stay at rest: the allpass banks do not
      colour a steady level. */
  lemma {:induction false} SteadyLevelPasses(cs: seq<BiquadCoefficients>, ss: seq<ChannelState>, n: nat, v: real)
    requires n <= |cs| && n <= |ss|
    requires forall j :: 0 <= j < n ==> UnityDc(cs[j]) && PlainOutput(cs[j]) && ss[j] == Steady(v, v)
    ensures Run(cs, ss, n, v) == v
    ensures forall k :: 0 <= k < n ==> StageAfter(cs, ss, v, k) == Steady(v, v)
  {
    if n > 0 {
      SteadyLevelPasses(cs, ss, n - 1, v);
      UnityDcFixedPoint(cs[n - 1], v);
    }
  }

  /** The bank `fs` after a run on `side` of input `x` through its first `n`
      stages with coefficients `cs`, from the histories `states`: the run stages
      hold their history after the run, the later ones are as they were. */
  ghost predicate Stepped(fs: seq<BiquadFilter>, side: Side, cs: seq<BiquadCoefficients>, n: nat,
                          states: seq<ChannelState>, x: real)
    reads fs`left, fs`right
  {
    n <= |cs| && n <= |fs| == |states| &&
    (forall j :: 0 <= j < n ==> Channel(fs[j], side) == StageAfter(cs, states, x, j)) &&
    (forall j :: n <= j < |fs| ==> Channel(fs[j], side) == states[j])
  }

  /** `for i in 0..count { output = stage[i].process_left(output) }` with the
      stages' coefficients as they are; the right histories are outside the frame. */
  method RunLeft(fs: seq<BiquadFilter>, count: nat, x: real) returns (y: real)
    requires count <= |fs| && Unique(fs)
    modifies fs`left
    ensures y == Run(old(Coefficients(fs)), old(States(fs, Left)), count, x)
    ensures Stepped(fs, Left, old(Coefficients(fs)), count, old(States(fs, Left)), x)
  {
    ghost var cs, ss := Coefficients(fs), States(fs, Left);
    assert Processed(fs, Left, cs, 0, cs, ss, x);
    y := x;
    var i := 0;
    while i < count
      invariant i <= count
      invariant Processed(fs, Left, cs, i, cs, ss, x)
      invariant y == Run(cs, ss, i, x)
    {
      y := StepStageLeft(fs, cs, ss, x, i, y);
      i := i + 1;
    }
    assert i == count;
  }

  /** One pass of that loop: stage `i` steps on the output of the stages before it. */
  method StepStageLeft(fs: seq<BiquadFilter>, ghost cs: seq<BiquadCoefficients>, ghost ss: seq<ChannelState>,
                       ghost x: real, i: nat, y: real) returns (z: real)
    requires i < |cs| == |fs| && Unique(fs)
    requires Processed(fs, Left, cs, i, cs, ss, x) && y == Run(cs, ss, i, x)
    modifies fs`left
    ensures Processed(fs, Left, cs, i + 1, cs, ss, x) && z == Run(cs, ss, i + 1, x)
  {
    UniqueAt(fs, i);
    z := fs[i].ProcessLeft(y);
  }

  /** The same loop over `process_right`. */
  method RunRight(fs: seq<BiquadFilter>, count: nat, x: real) returns (y: real)
    requires count <= |fs| && Unique(fs)
    modifies fs`right
    ensures y == Run(old(Coefficients(fs)), old(States(fs, Right)), count, x)
    ensures Stepped(fs, Right, old(Coefficients(fs)), count, old(States(fs, Right)), x)
  {
    ghost var cs, ss := Coefficients(fs), States(fs, Right);
    assert Processed(fs, Right, cs, 0, cs, ss, x);
    y := x;
    var i := 0;
    while i < count
      invariant i <= count
      invariant Processed(fs, Right, cs, i, cs, ss, x)
      invariant y == Run(cs, ss, i, x)
    {
      y := StepStageRight(fs, cs, ss, x, i, y);
      i := i + 1;
    }
    assert i == count;
  }

  /** One pass of that loop: stage `i` steps on the output of the stages before it. */
  method StepStageRight(fs: seq<BiquadFilter>, ghost cs: seq<BiquadCoefficients>, ghost ss: seq<ChannelState>,
                        ghost x: real, i: nat, y: real) returns (z: real)
    requires i < |cs| == |fs| && Unique(fs)
    requires Processed(fs, Right, cs, i, cs, ss, x) && y == Run(cs, ss, i, x)
    modifies fs`right
    ensures Processed(fs, Right, cs, i + 1, cs, ss, x) && z == Run(cs, ss, i + 1, x)
  {
    UniqueAt(fs, i);
    z := fs[i].ProcessRight(y);
  }

  /** The coefficients of bank `fs` after its first `n` stages were given the
      first `n` entries of `cs`: those stages hold them, the later ones still
      hold `coeffs`. */
  ghost predicate Retuned(fs: seq<BiquadFilter>, cs: seq<BiquadCoefficients>, n: nat, coeffs: seq<BiquadCoefficients>)
    reads fs`coeffs
  {
    n <= |cs| && n <= |fs| == |coeffs| &&
    (forall j :: 0 <= j < n ==> fs[j].coeffs == cs[j]) &&
    (forall j :: n <= j < |fs| ==> fs[j].coeffs == coeffs[j])
  }

  /** The bank after a retuning run: `Retuned` and `Stepped` together. */
  ghost predicate Processed(fs: seq<BiquadFilter>, side: Side, cs: seq<BiquadCoefficients>, n: nat,
                            coeffs: seq<BiquadCoefficients>, states: seq<ChannelState>, x: real)
    reads fs`coeffs, fs`left, fs`right
  {
    Retuned(fs, cs, n, coeffs) && Stepped(fs, side, cs, n, states, x)
  }

  /** `for i in 0..n { stage[i].set(cs[i]); output = stage[i].process_left(output) }`:
      each stage is given its new coefficients just before it steps. */
  method RetuneRunLeft(fs: seq<BiquadFilter>, cs: seq<BiquadCoefficients>, x: real) returns (y: real)
    requires |cs| <= |fs| && Unique(fs)
    modifies fs`coeffs, fs`left
    ensures y == Run(cs, old(States(fs, Left)), |cs|, x)
    ensures Processed(fs, Left, cs, |cs|, old(Coefficients(fs)), old(States(fs, Left)), x)
  {
    ghost var coeffs, ss := Coefficients(fs), States(fs, Left);
    assert Processed(fs, Left, cs, 0, coeffs, ss, x);
    y := x;
    var i := 0;
    while i < |cs|
      invariant i <= |cs|
      invariant Processed(fs, Left, cs, i, coeffs, ss, x)
      invariant y == Run(cs, ss, i, x)
    {
      y := RetuneStageLeft(fs, cs, coeffs, ss, x, i, y);
      i := i + 1;
    }
    assert i == |cs|;
  }

  /** The same loop over `process_right`. */
  method RetuneRunRight(fs: seq<BiquadFilter>, cs: seq<BiquadCoefficients>, x: real) returns (y: real)
    requires |cs| <= |fs| && Unique(fs)
    modifies fs`coeffs, fs`right
    ensures y == Run(cs, old(States(fs, Right)), |cs|, x)
    ensures Processed(fs, Right, cs, |cs|, old(Coefficients(fs)), old(States(fs, Right)), x)
  {
    ghost var coeffs, ss := Coefficients(fs), States(fs, Right);
    assert Processed(fs, Right, cs, 0, coeffs, ss, x);
    y := x;
    var i := 0;
    while i < |cs|
      invariant i <= |cs|
      invariant Processed(fs, Right, cs, i, coeffs, ss, x)
      invariant y == Run(cs, ss, i, x)
    {
      y := RetuneStageRight(fs, cs, coeffs, ss, x, i, y);
      i := i + 1;
    }
    assert i == |cs|;
  }

  /** One turn of that loop: stage `i` takes `cs[i]`, then steps its left history
      on the output `y` of the stages before it. */
  method RetuneStageLeft(fs: seq<BiquadFilter>, cs: seq<BiquadCoefficients>, ghost coeffs: seq<BiquadCoefficients>,
                         ghost ss: seq<ChannelState>, ghost x: real, i: nat, y: real) returns (z: real)
    requires i < |cs| <= |fs| && Unique(fs)
    requires Processed(fs, Left, cs, i, coeffs, ss, x) && y == Run(cs, ss, i, x)
    modifies fs`coeffs, fs`left
    ensures Processed(fs, Left, cs, i + 1, coeffs, ss, x) && z == Run(cs, ss, i + 1, x)
  {
    UniqueAt(fs, i);
    fs[i].SetCoefficients(cs[i]);
    z := fs[i].ProcessLeft(y);
  }

  method RetuneStageRight(fs: seq<BiquadFilter>, cs: seq<BiquadCoefficients>, ghost coeffs: seq<BiquadCoefficients>,
                          ghost ss: seq<ChannelState>, ghost x: real, i: nat, y: real) returns (z: real)
    requires i < |cs| <= |fs| && Unique(fs)
    requires Processed(fs, Right, cs, i, coeffs, ss, x) && y == Run(cs, ss, i, x)
    modifies fs`coeffs, fs`right
    ensures Processed(fs, Right, cs, i + 1, coeffs, ss, x) && z == Run(cs, ss, i + 1, x)
  {
    UniqueAt(fs, i);
    fs[i].SetCoefficients(cs[i]);
    z := fs[i].ProcessRight(y);
  }

  /** Fresh stages, one per entry of `cs`: each built by `BiquadFilter::new`,
      given the rate `rate` and the coefficients `cs[i]`, its histories silent. */
  method NewBank(cs: seq<BiquadCoefficients>, rate: real) returns (bank: seq<BiquadFilter>)
    ensures |bank| == |cs| && Unique(bank)
    ensures forall i :: 0 <= i < |cs| ==> fresh(bank[i])
    ensures forall i :: 0 <= i < |cs| ==>
      bank[i].coeffs == cs[i] && bank[i].sampleRate == rate &&
      bank[i].left == ZeroState && bank[i].right == ZeroState
  {
    bank := [];
    for i := 0 to |cs|
      invariant |bank| == i && Unique(bank)
      invariant forall j :: 0 <= j < i ==> fresh(bank[j])
      invariant forall j :: 0 <= j < i ==>
        bank[j].coeffs == cs[j] && bank[j].sampleRate == rate &&
        bank[j].left == ZeroState && bank[j].right == ZeroState
    {
      var stage := NewStage(cs[i], rate);
      UniqueSnoc(bank, stage);
      bank := bank + [stage];
    }
  }

  /** One stage of a new bank: `BiquadFilter::new()`, then the rate, then the design. */
  method NewStage(c: BiquadCoefficients, rate: real) returns (stage: BiquadFilter)
    ensures fresh(stage)
    ensures stage.coeffs == c && stage.sampleRate == rate && stage.left == ZeroState && stage.right == ZeroState
  {
    stage := new BiquadFilter();
    stage.SetSampleRate(rate);
    stage.SetCoefficients(c);
  }

  /** `for i in 0..n { stage[i].set(cs[i]) }`: the first `|cs|` stages take new
      coefficients; histories and the later stages are untouched. */
  method Retune(fs: seq<BiquadFilter>, cs: seq<BiquadCoefficients>)
    requires |cs| <= |fs| && Unique(fs)
    modifies fs`coeffs
    ensures Retuned(fs, cs, |cs|, old(Coefficients(fs)))
  {
    ghost var coeffs := Coefficients(fs);
    for i := 0 to |cs|
      invariant forall j :: 0 <= j < i ==> fs[j].coeffs == cs[j]
      invariant forall j :: i <= j < |fs| ==> fs[j].coeffs == coeffs[j]
    {
      UniqueAt(fs, i);
      fs[i].SetCoefficients(cs[i]);
    }
  }

  /** `for i in lo..hi { stage[i].reset_filter() }`: those stages fall silent on
      both channels, the others keep their histories; an empty range when
      `hi <= lo`. */
  method ResetRange(fs: seq<BiquadFilter>, lo: nat, hi: nat)
    requires hi <= |fs| && Unique(fs)
    modifies fs`left, fs`right
    ensures forall j :: 0 <= j < |fs| ==>
      if lo <= j < hi then fs[j].left == ZeroState && fs[j].right == ZeroState
      else fs[j].left == old(States(fs, Left))[j] && fs[j].right == old(States(fs, Right))[j]
  {
    ghost var ls, rs := States(fs, Left), States(fs, Right);
    if lo < hi {
      for i := lo to hi
        invariant forall j :: 0 <= j < |fs| ==>
          if lo <= j < i then fs[j].left == ZeroState && fs[j].right == ZeroState
          else fs[j].left == ls[j] && fs[j].right == rs[j]
      {
        UniqueAt(fs, i);
        fs[i].ResetFilter();
      }
    }
  }

  /** A retuning of the first `|cs|` stages followed by a reset of stages
      `lo..hi`: each stage ends with its new design or its old one, and with
      silent or kept histories, independently of the other. */
  method RetuneAndReset(fs: seq<BiquadFilter>, cs: seq<BiquadCoefficients>, lo: nat, hi: nat)
    requires |cs| <= |fs| && hi <= |fs| && Unique(fs)
    modifies fs`coeffs, fs`left, fs`right
    ensures forall j :: 0 <= j < |fs| ==> fs[j].coeffs == if j < |cs| then cs[j] else old(fs[j].coeffs)
    ensures forall j :: 0 <= j < |fs| ==>
      if lo <= j < hi then fs[j].left == ZeroState && fs[j].right == ZeroState
      else fs[j].left == old(fs[j].left) && fs[j].right == old(fs[j].right)
  {
    Retune(fs, cs);
    ResetRange(fs, lo, hi);
  }
}
