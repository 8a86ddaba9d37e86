/** The mid/side mixer of mid-side-mixer/src/mid_side_mixer.rs: a stereo pair
    is split into its mid (the average) and its sides (the differences), and
    each output is the mid scaled by `mid_mix` plus its own side scaled by
    `side_mix`. The sides are the full differences, not halved. */
module MidSideMixer {

  /** The mid signal: the average of the two channels. */
  function Mid(left: real, right: real): real {
    (left + right) * 0.5
  }

  /** The left side `left − right`; the right side is its negation. */
  function LeftSide(left: real, right: real): real {
    left - right
  }

  function RightSide(left: real, right: real): real {
    right - left
  }

  /** The output pair for one input pair: the sum of the outputs carries only
      the mid, scaled by `midMix`, and their difference only the side,
      scaled by `sideMix` (twice, since the side is not halved). */
  function Mix(left: real, right: real, midMix: real, sideMix: real): (out: (real, real))
    ensures out.0 + out.1 == (left + right) * midMix
    ensures out.0 - out.1 == 2.0 * (left - right) * sideMix
  {
    var mid := Mid(left, right);
    (mid * midMix + LeftSide(left, right) * sideMix, mid * midMix + RightSide(left, right) * sideMix)
  }

  /** The sum and the difference pin the pair down: any pair with the sum and
      difference of `Mix` is the mixed pair. */
  lemma MixDetermined(left: real, right: real, midMix: real, sideMix: real, out: (real, real))
    requires out.0 + out.1 == (left + right) * midMix
    requires out.0 - out.1 == 2.0 * (left - right) * sideMix
    ensures out == Mix(left, right, midMix, sideMix)
  {
    var m := Mix(left, right, midMix, sideMix);
    assert 2.0 * out.0 == 2.0 * m.0;
    assert 2.0 * out.1 == 2.0 * m.1;
  }

  /** Swapping the input channels swaps the outputs. */
  lemma MixSwaps(left: real, right: real, midMix: real, sideMix: real)
    ensures Mix(right, left, midMix, sideMix) == (Mix(left, right, midMix, sideMix).1, Mix(left, right, midMix, sideMix).0)
  {
  }

  /** A mono input has no side: both outputs are the input scaled by `midMix`. */
  lemma MixOfMono(v: real, midMix: real, sideMix: real)
    ensures Mix(v, v, midMix, sideMix) == (v * midMix, v * midMix)
  {
  }

  /** With the mid at full level and no side, both outputs are the average. */
  lemma MixMidOnly(left: real, right: real)
    ensures Mix(left, right, 1.0, 0.0) == ((left + right) / 2.0, (left + right) / 2.0)
  {
  }

  /** Because the sides are not halved, the input comes back unchanged at a
      side level of one half, and a side level of one widens it. */
  lemma MixReconstructs(left: real, right: real)
    ensures Mix(left, right, 1.0, 0.5) == (left, right)
    ensures Mix(left, right, 1.0, 1.0) == (1.5 * left - 0.5 * right, 1.5 * right - 0.5 * left)
  {
  }

  class MidSideMixer {
    var mid: real
    var lSide: real
    var rSide: real
    var midMix: real
    var sideMix: real

    /** `MidSideMixer::new`: every field zero. */
    constructor ()
      ensures mid == 0.0 && lSide == 0.0 && rSide == 0.0
      ensures midMix == 0.0 && sideMix == 0.0
    {
      mid, lSide, rSide := 0.0, 0.0, 0.0;
      midMix, sideMix := 0.0, 0.0;
    }

    /** `set_params`: stores the two levels and touches nothing else. */
    method SetParams(midMix: real, sideMix: real)
      modifies this`midMix, this`sideMix
      ensures this.midMix == midMix && this.sideMix == sideMix
    {
      this.midMix := midMix;
      this.sideMix := sideMix;
    }

    /** `process`: stores the mid and both sides of the input pair and returns
        the mixed pair at the current levels; the levels are untouched. */
    method Process(left: real, right: real) returns (yl: real, yr: real)
      modifies this`mid, this`lSide, this`rSide
      ensures mid == Mid(left, right) && lSide == LeftSide(left, right) && rSide == RightSide(left, right)
      ensures (yl, yr) == Mix(left, right, midMix, sideMix)
    {
      mid := (left + right) * 0.5;
      lSide := left - right;
      rSide := right - left;
      yl, yr := mid * midMix + lSide * sideMix, mid * midMix + rSide * sideMix;
      assert yl == Mix(left, right, midMix, sideMix).0;
      assert yr == Mix(left, right, midMix, sideMix).1;
    }
  }
}
