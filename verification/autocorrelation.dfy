/** The sums behind `findPitch` (services/pitchy_shim.ts): the energy the RMS
    gate measures and the lag-by-lag autocorrelation, with the inequalities
    that make the zero lag the largest one. Samples are exact reals. */
module Autocorrelation {


  /** data[lo]^2 + ... + data[hi-1]^2, accumulated left to right as the RMS loop does. */
  function SquareSum(data: seq<real>, lo: nat, hi: nat): real
    requires lo <= hi <= |data|
    decreases hi - lo
  {
    if lo == hi then 0.0 else SquareSum(data, lo, hi - 1) + data[hi - 1] * data[hi - 1]
  }

  /** The sum of squares of the whole frame. */
  function Energy(data: seq<real>): real {
    SquareSum(data, 0, |data|)
  }

  /** data[0]*data[lag] + ... + data[m-1]*data[m-1+lag]. */
  function LagSum(data: seq<real>, lag: nat, m: nat): real
    requires lag + m <= |data|
  {
    if m == 0 then 0.0 else LagSum(data, lag, m - 1) + data[m - 1] * data[m - 1 + lag]
  }

  /** The correlation at `lag`: the products over the |data| - lag samples that overlap. */
  function Correlation(data: seq<real>, lag: nat): real
    requires lag <= |data|
  {
    LagSum(data, lag, |data| - lag)
  }

  /** The whole correlation array, one entry per lag 0 .. |data|-1. */
  function Correlogram(data: seq<real>): seq<real> {
    seq(|data|, k requires 0 <= k < |data| => Correlation(data, k))
  }

  /** How far the signal moves from sample i to sample i+1. */
  function Gap(data: seq<real>, i: nat): real
    requires i + 1 < |data|
  {
    data[i] - data[i + 1]
  }

  /** The square of the gap at i, multiplied out as a^2 + b^2 - 2ab
      (`StepSquareIsGapSquared`). */
  function StepSquare(data: seq<real>, i: nat): real
    requires i + 1 < |data|
  {
    data[i] * data[i] + data[i + 1] * data[i + 1] - 2.0 * (data[i] * data[i + 1])
  }

  /** The squared gaps between neighbouring samples, over the first m steps. */
  function StepSum(data: seq<real>, m: nat): real
    requires m + 1 <= |data|
  {
    if m == 0 then 0.0 else StepSum(data, m - 1) + StepSquare(data, m - 1)
  }

  lemma SquareIsNonNegative(x: real)
    ensures x * x >= 0.0
  {
  }

  /** A sum bounded below by the product of two factors of the same strict
      sign is positive. Squares are passed as the two factors g and h, which
      keeps the solver on its sign rules for products. */
  lemma ProductBelow(g: real, h: real, s: real)
    requires (g > 0.0 && h > 0.0) || (g < 0.0 && h < 0.0)
    requires g * h <= s
    ensures s > 0.0
  {
  }

  lemma {:induction false} SquareSumNonNegative(data: seq<real>, lo: nat, hi: nat)
    requires lo <= hi <= |data|
    ensures SquareSum(data, lo, hi) >= 0.0
    decreases hi - lo
  {
    if lo < hi {
      SquareSumNonNegative(data, lo, hi - 1);
      SquareIsNonNegative(data[hi - 1]);
    }
  }

  lemma {:induction false} StepSumNonNegative(data: seq<real>, m: nat)
    requires m + 1 <= |data|
    ensures StepSum(data, m) >= 0.0
  {
    if m > 0 {
      StepSumNonNegative(data, m - 1);
      StepSquareIsGapSquared(data, m - 1);
      SquareIsNonNegative(Gap(data, m - 1));
    }
  }

  /** Square sums over adjacent ranges add up. */
  lemma {:induction false} SquareSumSplit(data: seq<real>, lo: nat, mid: nat, hi: nat)
    requires lo <= mid <= hi <= |data|
    ensures SquareSum(data, lo, hi) == SquareSum(data, lo, mid) + SquareSum(data, mid, hi)
    decreases hi - mid
  {
    if mid < hi {
      SquareSumSplit(data, lo, mid, hi - 1);
    }
  }

  /** A square sum never exceeds the square sum over a range that contains it. */
  lemma SquareSumWithin(data: seq<real>, lo: nat, hi: nat)
    requires lo <= hi <= |data|
    ensures SquareSum(data, lo, hi) <= Energy(data)
  {
    SquareSumSplit(data, 0, lo, hi);
    SquareSumSplit(data, 0, hi, |data|);
    SquareSumNonNegative(data, 0, lo);
    SquareSumNonNegative(data, hi, |data|);
  }

  /** The zero-lag correlation is the sum the RMS gate computes. */
  lemma {:induction false} ZeroLagSumIsSquareSum(data: seq<real>, m: nat)
    requires m <= |data|
    ensures LagSum(data, 0, m) == SquareSum(data, 0, m)
  {
    if m > 0 {
      ZeroLagSumIsSquareSum(data, m - 1);
    }
  }

  lemma ZeroLagIsEnergy(data: seq<real>)
    ensures Correlation(data, 0) == Energy(data)
  {
    ZeroLagSumIsSquareSum(data, |data|);
  }

  /** 2ab <= a^2 + b^2, summed over the overlap of the frame with its shifted copy. */
  lemma {:induction false} LagSumBound(data: seq<real>, lag: nat, m: nat)
    requires lag + m <= |data|
    ensures 2.0 * LagSum(data, lag, m) <= SquareSum(data, 0, m) + SquareSum(data, lag, lag + m)
  {
    if m > 0 {
      LagSumBound(data, lag, m - 1);
      var a, b := data[m - 1], data[m - 1 + lag];
      NextLagPair(data, lag, m);
      TwiceProductBound(a, b);
      AddBounds(LagSum(data, lag, m - 1), a * b,
                SquareSum(data, 0, m - 1), a * a,
                SquareSum(data, lag, lag + m - 1), b * b);
    }
  }

  /** The three sums of the bound above, one pair further on. */
  lemma NextLagPair(data: seq<real>, lag: nat, m: nat)
    requires 0 < m && lag + m <= |data|
    ensures LagSum(data, lag, m) == LagSum(data, lag, m - 1) + data[m - 1] * data[m - 1 + lag]
    ensures SquareSum(data, 0, m) == SquareSum(data, 0, m - 1) + data[m - 1] * data[m - 1]
    ensures SquareSum(data, lag, lag + m) == SquareSum(data, lag, lag + m - 1) + data[m - 1 + lag] * data[m - 1 + lag]
  {
  }

  /** Two bounds of the shape 2l <= s + t add up. */
  lemma AddBounds(l: real, p: real, s: real, q: real, t: real, r: real)
    requires 2.0 * l <= s + t && 2.0 * p <= q + r
    ensures 2.0 * (l + p) <= (s + q) + (t + r)
  {
  }

  /** 2ab <= a^2 + b^2, since (a - b)^2 >= 0. */
  lemma TwiceProductBound(a: real, b: real)
    ensures 2.0 * (a * b) <= a * a + b * b
  {
    DifferenceSquared(a, b, a - b);
    SquareIsNonNegative(a - b);
  }

  /** No lag correlates the frame with itself more than the zero lag does. */
  lemma EnergyBoundsLags(data: seq<real>, lag: nat)
    requires lag < |data|
    ensures Correlation(data, lag) <= Correlation(data, 0)
  {
    var m := |data| - lag;
    LagSumBound(data, lag, m);
    SquareSumWithin(data, 0, m);
    SquareSumWithin(data, lag, |data|);
    ZeroLagIsEnergy(data);
  }

  /** 2ab = a^2 + b^2 - (a - b)^2, summed over neighbouring samples. */
  lemma {:induction false} LagOneIdentity(data: seq<real>, m: nat)
    requires m + 1 <= |data|
    ensures 2.0 * LagSum(data, 1, m) == SquareSum(data, 0, m) + SquareSum(data, 1, m + 1) - StepSum(data, m)
  {
    if m > 0 {
      LagOneIdentity(data, m - 1);
    }
  }

  lemma StepSquareIsGapSquared(data: seq<real>, i: nat)
    requires i + 1 < |data|
    ensures StepSquare(data, i) == Gap(data, i) * Gap(data, i)
  {
    var a, b, g := data[i], data[i + 1], Gap(data, i);
    assert g * g == a * a + b * b - 2.0 * (a * b) by {
      DifferenceSquared(a, b, g);
    }
  }

  /** (a - b)^2 = a^2 + b^2 - 2ab. */
  lemma DifferenceSquared(a: real, b: real, g: real)
    requires g == a - b
    ensures g * g == a * a + b * b - 2.0 * (a * b)
  {
  }

  /** A square sum with any weight in it has a sample that is not zero. */
  lemma NonZeroSample(data: seq<real>, hi: nat)
    requires hi <= |data|
    requires SquareSum(data, 0, hi) > 0.0
    ensures exists j :: 0 <= j < hi && (data[j] < 0.0 || data[j] > 0.0)
  {
  }

  /** A sample that differs from the first one is reached through some step
      between neighbours that changes value. */
  lemma {:induction false} ChainDiffers(data: seq<real>, j: nat)
    requires 0 < j < |data|
    requires data[j] < data[0] || data[j] > data[0]
    ensures exists i :: 0 <= i < j && (data[i] < data[i + 1] || data[i] > data[i + 1])
  {
    if data[j - 1] == data[j] {
      ChainDiffers(data, j - 1);
    }
  }

  /** Every single step contributes to the step sum. */
  lemma {:induction false} StepSumAtLeastStep(data: seq<real>, m: nat, i: nat)
    requires i < m && m + 1 <= |data|
    ensures Gap(data, i) * Gap(data, i) <= StepSum(data, m)
  {
    StepSumNonNegative(data, m - 1);
    StepSquareIsGapSquared(data, m - 1);
    SquareIsNonNegative(Gap(data, m - 1));
    if i < m - 1 {
      StepSumAtLeastStep(data, m - 1, i);
    }
  }

  /** A step between two different samples counts strictly. */
  lemma MovingStepSum(data: seq<real>, m: nat, i: nat)
    requires i < m && m + 1 <= |data|
    requires data[i] < data[i + 1] || data[i] > data[i + 1]
    ensures StepSum(data, m) > 0.0
  {
    StepSumAtLeastStep(data, m, i);
    ProductBelow(Gap(data, i), Gap(data, i), StepSum(data, m));
  }

  /** A frame with energy has a non-zero first sample or a step that moves. */
  lemma FlatOrMoving(data: seq<real>)
    requires |data| >= 2
    requires Energy(data) > 0.0
    ensures data[0] * data[0] + StepSum(data, |data| - 1) > 0.0
  {
    var n := |data|;
    NonZeroSample(data, n);
    var j :| 0 <= j < n && (data[j] < 0.0 || data[j] > 0.0);
    SquareIsNonNegative(data[0]);
    StepSumNonNegative(data, n - 1);
    if data[0] < 0.0 || data[0] > 0.0 {
      ProductBelow(data[0], data[0], data[0] * data[0] + StepSum(data, n - 1));
    } else {
      ChainDiffers(data, j);
      var i :| 0 <= i < j && (data[i] < data[i + 1] || data[i] > data[i + 1]);
      MovingStepSum(data, n - 1, i);
    }
  }

  /** A frame with any energy and at least two samples correlates strictly less at lag 1 than at lag 0. */
  lemma LagOneBelowEnergy(data: seq<real>)
    requires |data| >= 2
    requires Energy(data) > 0.0
    ensures Correlation(data, 1) < Correlation(data, 0)
  {
    var n := |data|;
    LagOneIdentity(data, n - 1);
    ZeroLagIsEnergy(data);
    SquareSumSplit(data, 0, n - 1, n);
    SquareSumSplit(data, 0, 1, n);
    assert SquareSum(data, 0, 1) == data[0] * data[0];
    SquareIsNonNegative(data[n - 1]);
    FlatOrMoving(data);
  }

  /** The RMS loop of `findPitch`: the running sum of squares. */
  method ComputeEnergy(data: seq<real>) returns (sum: real)
    ensures sum == Energy(data)
  {
    sum := 0.0;
    var i := 0;
    while i < |data|
      invariant i <= |data|
      invariant sum == SquareSum(data, 0, i)
    {
      sum := sum + data[i] * data[i];
      i := i + 1;
    }
  }

  /** The nested autocorrelation loops of `findPitch`: one correlation per lag. */
  method ComputeCorrelations(data: seq<real>) returns (corr: seq<real>)
    ensures |corr| == |data|
    ensures forall k :: 0 <= k < |data| ==> corr[k] == Correlation(data, k)
  {
    corr := [];
    var offset := 0;
    while offset < |data|
      invariant offset <= |data|
      invariant |corr| == offset
      invariant forall k :: 0 <= k < offset ==> corr[k] == Correlation(data, k)
    {
      var correlation := 0.0;
      var i := 0;
      while i < |data| - offset
        invariant i <= |data| - offset
        invariant correlation == LagSum(data, offset, i)
      {
        correlation := correlation + data[i] * data[i + offset];
        i := i + 1;
      }
      corr := corr + [correlation];
      offset := offset + 1;
    }
  }
}
