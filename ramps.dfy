// The three weight ramps of a timeline director: blend-in, blend-out and the
// seek cross-fade. In the original each is a coroutine, a `while (t < blendTime)`
// loop that yields once per frame and adds the frame's delta time to `t` when
// it resumes. Here each ramp is a small object: its constructor runs the loop
// up to its first yield (Unity runs a coroutine synchronously that far), and
// `Advance(dt)` is one resumption, up to the next yield or to the loop's end.
// The `...Weights` methods drive a ramp over a whole run of frames and prove
// what the run as a whole promises.

module Ramps {
  import opened Engine

  /** `Mathf.Clamp01`, over the reals. */
  function Clamp01(x: real): (r: real)
    ensures 0.0 <= r <= 1.0
    ensures 0.0 <= x <= 1.0 ==> r == x
    ensures x < 0.0 ==> r == 0.0
    ensures 1.0 < x ==> r == 1.0
  {
    if x < 0.0 then 0.0 else if 1.0 < x then 1.0 else x
  }

  /** The normalised progress `Clamp01(t / blendTime)` every ramp derives its
      weights from. */
  function Progress(t: real, blendTime: real): real
    requires blendTime != 0.0
  {
    Clamp01(t / blendTime)
  }

  lemma ProgressMonotonic(t0: real, t1: real, blendTime: real)
    requires 0.0 < blendTime && t0 <= t1
    ensures Progress(t0, blendTime) <= Progress(t1, blendTime)
  {
    assert t0 / blendTime <= t1 / blendTime by {
      assert t1 / blendTime - t0 / blendTime == (t1 - t0) / blendTime;
    }
  }

  /** Progress is less than 1 while the loop guard `t < blendTime` holds. */
  lemma ProgressBelowOne(t: real, blendTime: real)
    requires 0.0 < blendTime && t < blendTime
    ensures Progress(t, blendTime) < 1.0
  {
    assert t / blendTime < 1.0 by {
      assert t / blendTime * blendTime == t;
    }
  }

  /** A blend-out that starts at `t = blendTime - blendTime * fromWeight`
      sets `fromWeight` first, so the weight does not jump. */
  lemma BlendOutStartsAtFromWeight(blendTime: real, fromWeight: real)
    requires 0.0 < blendTime && 0.0 <= fromWeight <= 1.0
    ensures 1.0 - Progress(blendTime - blendTime * fromWeight, blendTime) == fromWeight
  {
    var rest := 1.0 - fromWeight;
    assert blendTime - blendTime * fromWeight == rest * blendTime;
    assert rest * blendTime / blendTime == rest;
    assert (blendTime - blendTime * fromWeight) / blendTime == rest;
    assert Progress(blendTime - blendTime * fromWeight, blendTime) == Clamp01(rest) == rest;
  }

  /** With a negative blend time the loop guard `t < blendTime` puts `t / blendTime`
      above 1, so progress is full. */
  lemma ProgressFullBelowNegative(t: real, blendTime: real)
    requires blendTime < 0.0 && t < blendTime
    ensures Progress(t, blendTime) == 1.0
  {
    assert t / blendTime > 1.0 by {
      assert t / blendTime * blendTime == t;
    }
  }

  /** The blend-out loop does not run at all: `t = blendTime - blendTime * fromWeight`
      already fails the guard `t < blendTime`. */
  predicate BlendOutEndsAtOnce(blendTime: real, fromWeight: real)
  {
    blendTime <= blendTime - blendTime * fromWeight
  }

  /** The static `_abortBlendIn` flag: one cell shared by every director. */
  class AbortFlag {
    var raised: bool

    constructor ()
      ensures !raised
    {
      raised := false;
    }
  }

  /** The coroutine `BlendIn`: ramps its output's weight from 0 up to 1. */
  class BlendInRamp {
    const blendTime: real
    const output: Output
    var t: real
    var weight: real  // the weight this ramp set last
    var done: bool

    ghost predicate Valid()
      reads this
    {
      && 0.0 <= t
      && 0.0 <= weight <= 1.0
      && (!done ==> t < blendTime && weight == Progress(t, blendTime))
      && (done ==> weight == 1.0)
    }

    /** Starting the coroutine: the weight is set to 0 and the shared abort
        flag is lowered, then the loop runs its first pass. */
    constructor Start(output: Output, blendTime: real, flag: AbortFlag)
      modifies output, flag
      ensures this.output == output && this.blendTime == blendTime
      ensures Valid() && t == 0.0
      ensures done <==> blendTime <= 0.0
      ensures !done ==> weight == 0.0
      ensures output.weight == weight && output.valid == old(output.valid)
      ensures !flag.raised
    {
      this.output := output;
      this.blendTime := blendTime;
      t := 0.0;
      new;
      output.weight := 0.0;
      flag.raised := false;
      if t < blendTime {
        weight := Progress(t, blendTime);
        output.weight := weight;
        done := false;
      } else {
        weight := 1.0;
        output.weight := 1.0;
        done := true;
      }
    }

    /** One resumption: `t += dt`, then either the next weight, or the end of
        the loop (time is up, or the shared flag asked for an abort, which
        lowers it again), after which the weight is set to 1. */
    method Advance(dt: real, flag: AbortFlag)
      requires Valid() && !done && 0.0 <= dt
      modifies this, output, flag
      ensures Valid() && t == old(t) + dt
      ensures old(weight) <= weight
      ensures output.weight == weight && output.valid == old(output.valid)
      ensures done <==> old(flag.raised) || blendTime <= t
      ensures flag.raised <==> old(flag.raised) && blendTime <= t
    {
      t := t + dt;
      if t < blendTime && !flag.raised {
        ProgressMonotonic(old(t), t, blendTime);
        weight := Progress(t, blendTime);
        output.weight := weight;
      } else {
        if t < blendTime {
          flag.raised := false;
        }
        weight := 1.0;
        output.weight := 1.0;
        done := true;
      }
    }
  }

  /** The coroutine `BlendOut`: ramps its output's weight from `fromWeight`
      down to 0, stopping early when the output becomes invalid. */
  class BlendOutRamp {
    const blendTime: real
    const output: Output
    var t: real
    var weight: real  // the weight this ramp set last (0 before its first)
    var done: bool

    ghost predicate Valid()
      reads this
    {
      && 0.0 <= weight <= 1.0
      && (!done ==> t < blendTime && blendTime != 0.0 && weight == 1.0 - Progress(t, blendTime))
    }

    /** Starting the coroutine: `t = blendTime - blendTime * fromWeight`, then
        the loop's first pass. */
    constructor Start(output: Output, blendTime: real, fromWeight: real)
      modifies output
      ensures this.output == output && this.blendTime == blendTime
      ensures Valid() && t == blendTime - blendTime * fromWeight
      ensures done <==> BlendOutEndsAtOnce(blendTime, fromWeight) || !output.valid
      ensures output.valid == old(output.valid)
      ensures output.valid ==> output.weight == weight
      ensures !output.valid ==> output.weight == old(output.weight)
      ensures done && output.valid ==> weight == 0.0
      ensures output.valid && 0.0 < blendTime && 0.0 <= fromWeight <= 1.0 ==> weight == fromWeight
    {
      this.output := output;
      this.blendTime := blendTime;
      t := blendTime - blendTime * fromWeight;
      new;
      weight := 0.0;
      Pass();
      if output.valid && 0.0 < blendTime && 0.0 <= fromWeight <= 1.0 && t < blendTime {
        BlendOutStartsAtFromWeight(blendTime, fromWeight);
      }
    }

    /** One resumption: `t += dt`, then the loop's next pass. */
    method Advance(dt: real)
      requires Valid() && !done && 0.0 <= dt
      modifies this, output
      ensures Valid() && t == old(t) + dt
      ensures weight <= old(weight)
      ensures done <==> blendTime <= t || !output.valid
      ensures output.valid == old(output.valid)
      ensures output.valid ==> output.weight == weight
      ensures !output.valid ==> output.weight == old(output.weight) && weight == old(weight)
      ensures done && output.valid ==> weight == 0.0
    {
      t := t + dt;
      if 0.0 < blendTime {
        ProgressMonotonic(old(t), t, blendTime);
      } else {
        ProgressFullBelowNegative(old(t), blendTime);
        if t < blendTime {
          ProgressFullBelowNegative(t, blendTime);
        }
      }
      Pass();
    }

    /** From the loop's guard to the next yield, or past the loop: the final
        weight 0 is set only on a valid output. */
    method Pass()
      requires 0.0 <= weight <= 1.0
      requires t < blendTime ==> blendTime != 0.0
      modifies this, output
      ensures Valid() && t == old(t)
      ensures done <==> blendTime <= t || !output.valid
      ensures output.valid == old(output.valid)
      ensures output.valid ==> output.weight == weight
      ensures !output.valid ==> output.weight == old(output.weight) && weight == old(weight)
      ensures !done ==> weight == 1.0 - Progress(t, blendTime)
      ensures done && output.valid ==> weight == 0.0
    {
      if t < blendTime && output.valid {
        weight := 1.0 - Progress(t, blendTime);
        output.weight := weight;
        done := false;
      } else {
        if output.valid {
          weight := 0.0;
          output.weight := 0.0;
        }
        done := true;
      }
    }
  }

  /** The coroutine `SeekBlend`: cross-fades the director's mixer from the
      clone (still playing the pre-seek position) to the original playable. */
  class SeekRamp {
    const blendTime: real
    var t: real
    var cloneWeight: real     // `_decreasingWeight`
    var originalWeight: real  // `_increasingWeight`
    var done: bool

    ghost predicate Valid()
      reads this
    {
      && 0.0 <= t
      && 0.0 <= originalWeight <= 1.0
      && cloneWeight + originalWeight == 1.0
      && (!done ==> t < blendTime && originalWeight == Progress(t, blendTime))
      && (done ==> originalWeight == 1.0)
    }

    /** Starting the coroutine: the clone takes over (weights 1 and 0), then
        the loop runs its first pass. */
    constructor Start(blendTime: real)
      ensures this.blendTime == blendTime
      ensures Valid() && t == 0.0
      ensures done <==> blendTime <= 0.0
      ensures !done ==> cloneWeight == 1.0 && originalWeight == 0.0
    {
      this.blendTime := blendTime;
      t := 0.0;
      cloneWeight := 1.0;
      originalWeight := 0.0;
      new;
      Pass();
    }

    /** One resumption: `t += dt`, then the loop's next pass. */
    method Advance(dt: real)
      requires Valid() && !done && 0.0 <= dt
      modifies this
      ensures Valid() && t == old(t) + dt
      ensures old(originalWeight) <= originalWeight
      ensures done <==> blendTime <= t
    {
      t := t + dt;
      ProgressMonotonic(old(t), t, blendTime);
      Pass();
    }

    /** From the loop's guard to the next yield, or past the loop, where the
        original gets weight 1 and the clone 0. */
    method Pass()
      requires 0.0 <= t
      modifies this
      ensures Valid() && t == old(t)
      ensures done <==> blendTime <= t
    {
      if t < blendTime {
        originalWeight := Progress(t, blendTime);
        cloneWeight := 1.0 - originalWeight;
        done := false;
      } else {
        cloneWeight := 0.0;
        originalWeight := 1.0;
        done := true;
      }
    }
  }

  /** The total of a run of frame times. */
  function Sum(dts: seq<real>): real
  {
    if dts == [] then 0.0 else Sum(dts[..|dts| - 1]) + dts[|dts| - 1]
  }

  lemma {:induction false} SumPrefix(dts: seq<real>, i: nat)
    requires i <= |dts|
    requires forall k :: 0 <= k < |dts| ==> 0.0 <= dts[k]
    ensures 0.0 <= Sum(dts[..i]) <= Sum(dts)
  {
    if i < |dts| {
      var front := dts[..|dts| - 1];
      assert front[..i] == dts[..i];
      SumPrefix(front, i);
    } else {
      assert dts[..i] == dts;
      if dts != [] {
        SumPrefix(dts[..|dts| - 1], |dts| - 1);
        assert dts[..|dts| - 1][..|dts| - 1] == dts[..|dts| - 1];
      }
    }
  }

  lemma SumStep(dts: seq<real>, i: nat)
    requires i < |dts|
    ensures Sum(dts[..i + 1]) == Sum(dts[..i]) + dts[i]
  {
    assert dts[..i + 1][..i] == dts[..i];
  }

  /** The weights the blend-in coroutine sets over a run of frames lasting
      `dts`, one per pass of its loop (the first inside the call that starts
      it), when some other director's `Stop` raises the shared abort flag
      before the frames marked in `raises`. */
  method BlendInWeights(blendTime: real, dts: seq<real>, raises: seq<bool>)
    returns (weights: seq<real>, finished: bool)
    requires |raises| == |dts|
    requires forall k :: 0 <= k < |dts| ==> 0.0 <= dts[k]
    ensures 1 <= |weights| <= |dts| + 1
    ensures 0.0 < blendTime ==> weights[0] == 0.0
    ensures forall k :: 0 <= k < |weights| ==> 0.0 <= weights[k] <= 1.0
    ensures forall k, l :: 0 <= k <= l < |weights| ==> weights[k] <= weights[l]
    ensures finished <==> weights[|weights| - 1] == 1.0
    ensures finished <==> blendTime <= Sum(dts) || exists k :: 0 <= k < |raises| && raises[k]
  {
    var flag := new AbortFlag();
    var output := new Output(true, 0.0);
    var ramp := new BlendInRamp.Start(output, blendTime, flag);
    weights := [ramp.weight];
    var i := 0;
    while i < |dts| && !ramp.done
      invariant 0 <= i <= |dts|
      invariant ramp.Valid() && ramp.blendTime == blendTime
      invariant |weights| == i + 1 && weights[i] == ramp.weight
      invariant 0.0 < blendTime ==> weights[0] == 0.0
      invariant forall k :: 0 <= k < |weights| ==> 0.0 <= weights[k] <= 1.0
      invariant forall k, l :: 0 <= k <= l < |weights| ==> weights[k] <= weights[l]
      invariant !ramp.done ==> !flag.raised && ramp.t == Sum(dts[..i])
      invariant !ramp.done ==> forall k :: 0 <= k < i ==> !raises[k]
      invariant ramp.done ==> blendTime <= Sum(dts[..i]) || exists k :: 0 <= k < i && raises[k]
    {
      if raises[i] {
        flag.raised := true;
      }
      SumStep(dts, i);
      ramp.Advance(dts[i], flag);
      weights := weights + [ramp.weight];
      i := i + 1;
    }
    finished := ramp.done;
    SumPrefix(dts, i);
    if !finished {
      ProgressBelowOne(ramp.t, blendTime);
      assert dts[..i] == dts;
    }
  }

  /** The weights the blend-out coroutine sets on an output that stays valid,
      starting from `fromWeight`, over a run of frames lasting `dts`. */
  method BlendOutWeights(blendTime: real, fromWeight: real, dts: seq<real>)
    returns (weights: seq<real>, finished: bool)
    requires forall k :: 0 <= k < |dts| ==> 0.0 <= dts[k]
    ensures 1 <= |weights| <= |dts| + 1
    ensures 0.0 < blendTime && 0.0 <= fromWeight <= 1.0 ==> weights[0] == fromWeight
    ensures forall k :: 0 <= k < |weights| ==> 0.0 <= weights[k] <= 1.0
    ensures forall k, l :: 0 <= k <= l < |weights| ==> weights[l] <= weights[k]
    ensures finished ==> weights[|weights| - 1] == 0.0
    ensures finished <==> blendTime <= blendTime - blendTime * fromWeight + Sum(dts)
  {
    var output := new Output(true, 0.0);
    var ramp := new BlendOutRamp.Start(output, blendTime, fromWeight);
    var start := ramp.t;
    weights := [ramp.weight];
    var i := 0;
    while i < |dts| && !ramp.done
      invariant 0 <= i <= |dts|
      invariant ramp.Valid() && ramp.blendTime == blendTime
      invariant ramp.output == output && output.valid
      invariant |weights| == i + 1 && weights[i] == ramp.weight
      invariant 0.0 < blendTime && 0.0 <= fromWeight <= 1.0 ==> weights[0] == fromWeight
      invariant forall k :: 0 <= k < |weights| ==> 0.0 <= weights[k] <= 1.0
      invariant forall k, l :: 0 <= k <= l < |weights| ==> weights[l] <= weights[k]
      invariant ramp.t == start + Sum(dts[..i])
      invariant ramp.done <==> blendTime <= ramp.t
      invariant ramp.done ==> ramp.weight == 0.0
    {
      SumStep(dts, i);
      ramp.Advance(dts[i]);
      weights := weights + [ramp.weight];
      i := i + 1;
    }
    finished := ramp.done;
    SumPrefix(dts, i);
    if !finished {
      assert dts[..i] == dts;
    }
  }

  /** The mixer weights the seek cross-fade sets over a run of frames lasting
      `dts`: clone and original always share the full weight, and the original
      ends with all of it. */
  method SeekWeights(blendTime: real, dts: seq<real>)
    returns (cloneWeights: seq<real>, originalWeights: seq<real>, finished: bool)
    requires forall k :: 0 <= k < |dts| ==> 0.0 <= dts[k]
    ensures |cloneWeights| == |originalWeights|
    ensures 1 <= |originalWeights| <= |dts| + 1
    ensures 0.0 < blendTime ==> cloneWeights[0] == 1.0 && originalWeights[0] == 0.0
    ensures forall k :: 0 <= k < |originalWeights| ==>
      cloneWeights[k] + originalWeights[k] == 1.0 && 0.0 <= originalWeights[k] <= 1.0
    ensures forall k, l :: 0 <= k <= l < |originalWeights| ==> originalWeights[k] <= originalWeights[l]
    ensures finished ==> cloneWeights[|cloneWeights| - 1] == 0.0 && originalWeights[|originalWeights| - 1] == 1.0
    ensures finished <==> blendTime <= Sum(dts)
  {
    var ramp := new SeekRamp.Start(blendTime);
    cloneWeights, originalWeights := [ramp.cloneWeight], [ramp.originalWeight];
    var i := 0;
    while i < |dts| && !ramp.done
      invariant 0 <= i <= |dts|
      invariant ramp.Valid() && ramp.blendTime == blendTime
      invariant |cloneWeights| == |originalWeights| == i + 1
      invariant cloneWeights[i] == ramp.cloneWeight && originalWeights[i] == ramp.originalWeight
      invariant 0.0 < blendTime ==> cloneWeights[0] == 1.0 && originalWeights[0] == 0.0
      invariant forall k :: 0 <= k < |originalWeights| ==>
        cloneWeights[k] + originalWeights[k] == 1.0 && 0.0 <= originalWeights[k] <= 1.0
      invariant forall k, l :: 0 <= k <= l < |originalWeights| ==> originalWeights[k] <= originalWeights[l]
      invariant ramp.t == Sum(dts[..i])
      invariant ramp.done <==> blendTime <= ramp.t
    {
      SumStep(dts, i);
      ramp.Advance(dts[i]);
      cloneWeights := cloneWeights + [ramp.cloneWeight];
      originalWeights := originalWeights + [ramp.originalWeight];
      i := i + 1;
    }
    finished := ramp.done;
    SumPrefix(dts, i);
    if !finished {
      assert dts[..i] == dts;
    }
  }
}
