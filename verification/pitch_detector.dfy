/** `PitchDetector` of services/pitchy_shim.ts: the silence gate, the
    correlogram, the skip over the initial descent, the scan for the first
    strict maximum and the division into pitch and clarity. */
module PitchDetection {
  import opened Options
  import opened JsNumbers
  import opened Autocorrelation

  /** A detector built for frames of `bufferSize` samples. `findPitch` reads
      the length of the frame it is given, never `bufferSize`. */
  datatype PitchDetector = PitchDetector(bufferSize: int)
  {
    /** The `inputLength` getter. */
    function InputLength(): int {
      bufferSize
    }
  }

  /** The static factory `forFloat32Array`: a detector whose input length is the FFT size. */
  function ForFloat32Array(fftSize: int): (d: PitchDetector)
    ensures d.InputLength() == fftSize
  {
    PitchDetector(fftSize)
  }

  /** The pair `[pitch, clarity]` that `findPitch` returns. */
  datatype Estimate = Estimate(pitch: Num, clarity: real)

  /** `[0, 0]`: the answer for a quiet frame and for a frame without a peak. */
  const NoPitch := Estimate(Finite(0.0), 0.0)

  /** Frames whose RMS is below this level are too quiet. */
  const SilenceRms: real := 0.01

  /** sqrt(sum / n) < 0.01, squared: sum < 0.0001 * n. For an empty frame the
      source compares NaN, which is false, and so is 0 < 0 here. */
  predicate Silent(data: seq<real>) {
    Energy(data) < SilenceRms * SilenceRms * (|data| as real)
  }

  /** correlations[i] > correlations[i + 1], where a read past the end yields
      `undefined` and the comparison is false. */
  predicate Falls(corr: seq<real>, i: nat) {
    i + 1 < |corr| && corr[i] > corr[i + 1]
  }

  /** d is where `while (correlations[d] > correlations[d + 1]) d++` stops:
      the correlations fall at every step before d and not at d. */
  predicate DescentEnd(corr: seq<real>, d: nat) {
    (forall i :: 0 <= i < d ==> Falls(corr, i)) && !Falls(corr, d)
  }

  /** The descent loop, continued from d. */
  function SkipDescent(corr: seq<real>, d: nat): (e: nat)
    requires forall i :: 0 <= i < d ==> Falls(corr, i)
    ensures d <= e
    ensures DescentEnd(corr, e)
    decreases |corr| - d
  {
    if Falls(corr, d) then SkipDescent(corr, d + 1) else d
  }

  /** The descent loop from 0: it stops inside the array unless the array is empty. */
  function Descent(corr: seq<real>): (d: nat)
    ensures DescentEnd(corr, d)
    ensures d <= |corr|
    ensures |corr| > 0 ==> d < |corr|
  {
    var d := SkipDescent(corr, 0);
    DescentInside(corr, d);
    d
  }

  lemma DescentInside(corr: seq<real>, d: nat)
    requires DescentEnd(corr, d)
    ensures d <= |corr|
    ensures |corr| > 0 ==> d < |corr|
  {
    if d > 0 {
      assert Falls(corr, d - 1);
    }
  }

  /** Only one index ends the descent. */
  lemma DescentEndUnique(corr: seq<real>, d1: nat, d2: nat)
    requires DescentEnd(corr, d1) && DescentEnd(corr, d2)
    ensures d1 == d2
  {
  }

  /** k is the offset the scan from d settles on: the first index of the
      largest correlation in corr[d..], and that correlation beats the -1 the
      scan starts from. */
  predicate IsPeak(corr: seq<real>, d: nat, k: nat) {
    && d <= k < |corr|
    && corr[k] > -1.0
    && (forall j :: d <= j < |corr| ==> corr[j] <= corr[k])
    && (forall j :: d <= j < k ==> corr[j] < corr[k])
  }

  /** No correlation from d on beats the initial -1, so `bestOffset` stays -1. */
  predicate NoPeak(corr: seq<real>, d: nat) {
    forall j :: d <= j < |corr| ==> corr[j] <= -1.0
  }

  /** The running pair (bestOffset, maxCorrelation) of the scan. */
  datatype Scan = Scan(best: int, max: real)

  /** `let maxCorrelation = -1` and `let bestOffset = -1`. */
  const Unscanned := Scan(-1, -1.0)

  /** What the running pair says once the scan has read corr[d..i). */
  predicate Scanned(corr: seq<real>, d: nat, i: nat, s: Scan)
    requires d <= i <= |corr|
  {
    if s.best == -1 then
      s.max == -1.0 && forall j :: d <= j < i ==> corr[j] <= -1.0
    else
      && d <= s.best < i
      && s.max == corr[s.best]
      && corr[s.best] > -1.0
      && (forall j :: d <= j < i ==> corr[j] <= s.max)
      && (forall j :: d <= j < s.best ==> corr[j] < s.max)
  }

  /** The peak scan of `findPitch` from index i on: a strict improvement moves the best offset. */
  function ScanMax(corr: seq<real>, d: nat, i: nat, s: Scan): (r: Scan)
    requires d <= i <= |corr|
    requires Scanned(corr, d, i, s)
    ensures Scanned(corr, d, |corr|, r)
    decreases |corr| - i
  {
    if i == |corr| then s
    else if corr[i] > s.max then ScanMax(corr, d, i + 1, Scan(i, corr[i]))
    else ScanMax(corr, d, i + 1, s)
  }

  /** The scan settles on the peak, or on -1 when there is none. */
  lemma ScanFindsPeak(corr: seq<real>, d: nat)
    requires d <= |corr|
    ensures ScanMax(corr, d, d, Unscanned).best == -1 <==> NoPeak(corr, d)
    ensures ScanMax(corr, d, d, Unscanned).best != -1 ==>
              IsPeak(corr, d, ScanMax(corr, d, d, Unscanned).best as nat)
  {
    var r := ScanMax(corr, d, d, Unscanned);
    if r.best != -1 {
      assert corr[r.best] > -1.0;
    }
  }

  /** At most one offset is the peak. */
  lemma PeakUnique(corr: seq<real>, d: nat, k1: nat, k2: nat)
    requires IsPeak(corr, d, k1) && IsPeak(corr, d, k2)
    ensures k1 == k2
  {
  }

  /** Whenever some correlation beats -1 there is a peak. */
  lemma PeakExists(corr: seq<real>, d: nat)
    requires d <= |corr|
    requires !NoPeak(corr, d)
    ensures exists k :: IsPeak(corr, d, k)
  {
    ScanFindsPeak(corr, d);
    var k := ScanMax(corr, d, d, Unscanned).best as nat;
    assert IsPeak(corr, d, k);
  }

  /** The period `findPitch` settles on, as an offset into the correlogram;
      None where it returns `[0, 0]`. */
  function PeakOffset(data: seq<real>): (r: Option<nat>)
    ensures r.None? <==> Silent(data) || NoPeak(Correlogram(data), Descent(Correlogram(data)))
    ensures r.Some? ==> IsPeak(Correlogram(data), Descent(Correlogram(data)), r.value)
  {
    var corr := Correlogram(data);
    var d := Descent(corr);
    ScanFindsPeak(corr, d);
    if Silent(data) then None
    else
      var s := ScanMax(corr, d, d, Unscanned);
      if s.best == -1 then None else Some(s.best as nat)
  }

  /** A frame that passes the gate has positive energy, and at least one sample. */
  lemma AudibleHasEnergy(data: seq<real>)
    requires !Silent(data) && |data| > 0
    ensures Energy(data) > 0.0
  {
  }

  /** With two samples or more, an audible frame descends at least one step:
      corr[0] > corr[1], so the period is never 0. */
  lemma AudibleFrameDescends(data: seq<real>)
    requires !Silent(data) && |data| >= 2
    ensures Descent(Correlogram(data)) >= 1
  {
    var corr := Correlogram(data);
    LagOneBelowEnergy(data);
    assert Falls(corr, 0);
  }

  /** findPitch on a frame: `[0, 0]` without a period, else sampleRate over
      the period and the peak correlation over the zero-lag correlation. */
  function FindPitch(data: seq<real>, sampleRate: real): (e: Estimate)
    ensures Silent(data) || |data| == 0 ==> e == NoPitch
    ensures e.clarity <= 1.0
    ensures |data| >= 2 ==> e.pitch.Finite?
  {
    match PeakOffset(data)
    case None => NoPitch
    case Some(k) =>
      ClarityAtMostOne(data, k);
      assert |data| >= 2 ==> k >= 1 by {
        if |data| >= 2 { AudibleFrameDescends(data); }
      }
      Estimate(Divide(sampleRate, k as real), Clarity(data, k))
  }

  /** `maxCorrelation / correlations[0]`: the share of the zero-lag
      correlation that the peak reaches. */
  function Clarity(data: seq<real>, k: nat): (c: real)
    requires k < |data| && Correlation(data, 0) > 0.0
    ensures c * Correlation(data, 0) == Correlation(data, k)
  {
    DivisionRoundTrip(Correlation(data, k), Correlation(data, 0));
    Correlation(data, k) / Correlation(data, 0)
  }

  /** The peak correlation never exceeds the zero-lag correlation, which is positive. */
  lemma ClarityAtMostOne(data: seq<real>, k: nat)
    requires !Silent(data) && k < |data|
    ensures Correlation(data, 0) > 0.0
    ensures Correlation(data, k) / Correlation(data, 0) <= 1.0
  {
    EnergyBoundsLags(data, k);
    ZeroLagIsEnergy(data);
    DivisionAtMostOne(Correlation(data, k), Correlation(data, 0));
  }

  lemma DivisionAtMostOne(a: real, b: real)
    requires b > 0.0 && a <= b
    ensures a / b <= 1.0
  {
  }

  /** A voiced frame has energy, and its clarity is the peak correlation
      as a share of that energy. */
  lemma VoicedClarity(data: seq<real>, sampleRate: real)
    requires PeakOffset(data).Some?
    ensures Energy(data) > 0.0
    ensures FindPitch(data, sampleRate).clarity == Correlation(data, PeakOffset(data).value) / Energy(data)
  {
    ClarityAtMostOne(data, PeakOffset(data).value);
    ZeroLagIsEnergy(data);
  }

  /** The pitch of a voiced frame times its period gives the sample rate
      back; a period of 0, which divides by zero, happens only with one sample. */
  lemma VoicedPitch(data: seq<real>, sampleRate: real)
    requires PeakOffset(data).Some?
    ensures var k := PeakOffset(data).value;
            var e := FindPitch(data, sampleRate);
            && (k > 0 ==> e.pitch.Finite? && e.pitch.value * (k as real) == sampleRate)
            && (k == 0 ==> |data| == 1)
  {
    if |data| >= 2 {
      AudibleFrameDescends(data);
    }
  }

  lemma DivisionRoundTrip(a: real, b: real)
    requires b > 0.0
    ensures (a / b) * b == a
  {
  }

  /** The empty frame passes the RMS gate, since its RMS is NaN and `NaN <
      0.01` is false, but it has no energy and no period, so the answer is
      `[0, 0]` and `correlations[0]` is never divided by. */
  lemma EmptyFramePassesGate(sampleRate: real)
    ensures !Silent([]) && Energy([]) == 0.0
    ensures PeakOffset([]).None?
    ensures FindPitch([], sampleRate) == NoPitch
  {
  }

  /** Without a period the answer is `[0, 0]`. */
  lemma UnvoicedEstimate(data: seq<real>, sampleRate: real)
    requires PeakOffset(data).None?
    ensures FindPitch(data, sampleRate) == NoPitch
  {
  }

  /** One audible sample: the period is 0, so the pitch is sampleRate / 0 = Infinity, with clarity 1. */
  lemma OneSampleFrame(x: real, sampleRate: real)
    requires x * x >= SilenceRms * SilenceRms
    requires sampleRate > 0.0
    ensures FindPitch([x], sampleRate) == Estimate(PosInfinity, 1.0)
  {
    var data := [x];
    assert data[0] == x;
    assert SquareSum(data, 0, 1) == SquareSum(data, 0, 0) + data[0] * data[0];
    assert Energy(data) == x * x;
    var corr := Correlogram(data);
    assert LagSum(data, 0, 1) == LagSum(data, 0, 0) + data[0] * data[0];
    assert corr == [x * x];
    assert !Falls(corr, 0);
    assert Descent(corr) == 0;
    assert IsPeak(corr, 0, 0);
    assert PeakOffset(data) == Some(0);
  }

  /** [1, -0.5]: corr = [1.25, -0.5], the peak is at lag 1 and its clarity is -0.4, outside (0, 1]. */
  lemma NegativeClarity(sampleRate: real)
    ensures FindPitch([1.0, -0.5], sampleRate) == Estimate(Finite(sampleRate), -0.4)
  {
    var data := [1.0, -0.5];
    assert SquareSum(data, 0, 1) == 1.0;
    assert Energy(data) == 1.25;
    assert LagSum(data, 0, 1) == 1.0;
    assert LagSum(data, 1, 1) == -0.5;
    var corr := Correlogram(data);
    assert Correlation(data, 0) == 1.25 && Correlation(data, 1) == -0.5;
    assert corr == [1.25, -0.5];
    assert Falls(corr, 0) && !Falls(corr, 1);
    DescentEndUnique(corr, 1, Descent(corr));
    assert IsPeak(corr, 1, 1);
    assert PeakOffset(data) == Some(1);
  }

  /** [1, -2] is loud, but after the descent every correlation is below -1: `[0, 0]`. */
  lemma LoudFrameWithoutPeak(sampleRate: real)
    ensures FindPitch([1.0, -2.0], sampleRate) == NoPitch
  {
    var data := [1.0, -2.0];
    assert SquareSum(data, 0, 1) == 1.0;
    assert Energy(data) == 5.0;
    assert LagSum(data, 0, 1) == 1.0;
    var corr := Correlogram(data);
    assert Correlation(data, 0) == 5.0 && Correlation(data, 1) == -2.0;
    assert corr == [5.0, -2.0];
    assert Falls(corr, 0) && !Falls(corr, 1);
    DescentEndUnique(corr, 1, Descent(corr));
    assert NoPeak(corr, 1);
  }

  /** The descent loop of `findPitch`. */
  method FindDescentEnd(corr: seq<real>) returns (d: nat)
    ensures d == Descent(corr)
  {
    d := 0;
    while Falls(corr, d)
      invariant forall i :: 0 <= i < d ==> Falls(corr, i)
      invariant SkipDescent(corr, d) == SkipDescent(corr, 0)
      decreases |corr| - d
    {
      d := d + 1;
    }
  }

  /** The peak scan of `findPitch`, from the end of the descent. */
  method FindPeak(corr: seq<real>, d: nat) returns (bestOffset: int, maxCorrelation: real)
    requires d <= |corr|
    ensures Scan(bestOffset, maxCorrelation) == ScanMax(corr, d, d, Unscanned)
  {
    maxCorrelation := -1.0;
    bestOffset := -1;
    var i := d;
    while i < |corr|
      invariant d <= i <= |corr|
      invariant Scanned(corr, d, i, Scan(bestOffset, maxCorrelation))
      invariant ScanMax(corr, d, i, Scan(bestOffset, maxCorrelation)) == ScanMax(corr, d, d, Unscanned)
    {
      if corr[i] > maxCorrelation {
        maxCorrelation := corr[i];
        bestOffset := i;
      }
      i := i + 1;
    }
  }

  /** findPitch as the source writes it, loop by loop. */
  method DetectPitch(data: seq<real>, sampleRate: real) returns (pitch: Num, clarity: real)
    ensures Estimate(pitch, clarity) == FindPitch(data, sampleRate)
  {
    var sum := ComputeEnergy(data);
    if sum < SilenceRms * SilenceRms * (|data| as real) {
      return Finite(0.0), 0.0;
    }
    var corr := ComputeCorrelations(data);
    assert corr == Correlogram(data);
    var d := FindDescentEnd(corr);
    var bestOffset, maxCorrelation := FindPeak(corr, d);
    if bestOffset == -1 {
      return Finite(0.0), 0.0;
    }
    ClarityAtMostOne(data, bestOffset);
    pitch := Divide(sampleRate, bestOffset as real);
    clarity := maxCorrelation / corr[0];
  }
}
