/** The ball of components/GameContainer.tsx: its height, a percentage from
    the bottom of the screen, glides every 16 ms towards a target that a
    confident pitch sets on a logarithmic scale from 100 Hz (bottom) to
    800 Hz (top), and that is the middle of the screen otherwise. */
module BallMotion {
  import opened Options
  import opened JsNumbers
  import PitchSession

  /** The range of children's voices the screen covers. */
  const MinFreq: real := 100.0
  const MaxFreq: real := 800.0

  /** The clarity above which the game trusts the pitch. */
  const ActiveClarity: real := 0.85

  /** The ball starts here, and floats back here when no pitch is heard. */
  const Middle: real := 50.0

  /** How much of the remaining distance the ball covers per 16 ms tick. */
  const ActiveFactor: real := 0.15
  const IdleFactor: real := 0.05

  /** `clarity > 0.85 && pitch !== null`. */
  predicate IsActive(pitch: Option<Num>, clarity: real) {
    clarity > ActiveClarity && pitch.Some?
  }

  /** `Math.max(MIN_FREQ, Math.min(MAX_FREQ, p))`. */
  function Clamp(p: real): (c: real)
    ensures MinFreq <= c <= MaxFreq
    ensures MinFreq <= p <= MaxFreq ==> c == p
    ensures p <= MinFreq ==> c == MinFreq
    ensures p >= MaxFreq ==> c == MaxFreq
  {
    if p < MinFreq then MinFreq else if p > MaxFreq then MaxFreq else p
  }

  /** The same clamp on a JavaScript number: the infinities clamp to the
      ends of the range. NaN has no place on the screen. */
  function ClampPitch(p: Num): (c: real)
    requires !p.NaN?
    ensures MinFreq <= c <= MaxFreq
    ensures p.Finite? ==> c == Clamp(p.value)
    ensures p.PosInfinity? ==> c == MaxFreq
    ensures p.NegInfinity? ==> c == MinFreq
  {
    match p
    case Finite(v) => Clamp(v)
    case PosInfinity => MaxFreq
    case NegInfinity => MinFreq
  }

  /** `Math.log` is a parameter; all the motion needs of it is that it
      grows strictly on the positive numbers. */
  ghost predicate Increasing(ln: real -> real) {
    forall x: real, y: real :: 0.0 < x < y ==> ln(x) < ln(y)
  }

  /** How far up the logarithmic scale from MinFreq to MaxFreq a frequency lies, in percent. */
  function LogPosition(c: real, ln: real -> real): real
    requires Increasing(ln)
  {
    assert ln(MinFreq) < ln(MaxFreq);
    (ln(c) - ln(MinFreq)) / (ln(MaxFreq) - ln(MinFreq)) * 100.0
  }

  /** `targetY`: the log position of the clamped pitch while active, the middle otherwise. */
  function TargetY(pitch: Option<Num>, clarity: real, ln: real -> real): (t: real)
    requires Increasing(ln)
    requires pitch.Some? ==> !pitch.value.NaN?
    ensures 0.0 <= t <= 100.0
    ensures !IsActive(pitch, clarity) ==> t == Middle
  {
    if IsActive(pitch, clarity) then
      LogPositionBounds(ClampPitch(pitch.value), ln);
      LogPosition(ClampPitch(pitch.value), ln)
    else Middle
  }

  /** `interpolationFactor`. */
  function Factor(active: bool): (f: real)
    ensures 0.0 < f < 1.0
    ensures active <==> f > IdleFactor
  {
    if active then ActiveFactor else IdleFactor
  }

  /** `prev + (target - prev) * factor`: one smoothing step. */
  function Towards(prev: real, target: real, f: real): real {
    prev + (target - prev) * f
  }

  /** One tick of the interval on the current reading of the hook. */
  function BallStep(y: real, pitch: Option<Num>, clarity: real, ln: real -> real): real
    requires Increasing(ln)
    requires pitch.Some? ==> !pitch.value.NaN?
  {
    Towards(y, TargetY(pitch, clarity, ln), Factor(IsActive(pitch, clarity)))
  }

  /** What the hook reports at one tick of the interval. */
  datatype Reading = Reading(pitch: Option<Num>, clarity: real)

  predicate Placeable(r: Reading) {
    r.pitch.Some? ==> !r.pitch.value.NaN?
  }

  /** The ball's height after a tick per reading, starting from y. */
  function Glide(y: real, readings: seq<Reading>, ln: real -> real): real
    requires Increasing(ln)
    requires forall k :: 0 <= k < |readings| ==> Placeable(readings[k])
    decreases |readings|
  {
    if readings == [] then y
    else
      assert Placeable(readings[0]);
      Glide(BallStep(y, readings[0].pitch, readings[0].clarity, ln), readings[1..], ln)
  }

  /** `n` ticks towards a fixed target. */
  function Settle(y: real, target: real, f: real, n: nat): real {
    if n == 0 then y else Towards(Settle(y, target, f, n - 1), target, f)
  }

  lemma MulNonNeg(a: real, b: real)
    requires a >= 0.0 && b >= 0.0
    ensures a * b >= 0.0
  {
  }

  lemma MulNonPos(a: real, b: real)
    requires a <= 0.0 && b >= 0.0
    ensures a * b <= 0.0
  {
  }

  lemma RatioInUnit(n: real, d: real)
    requires 0.0 <= n <= d && d > 0.0
    ensures 0.0 <= n / d <= 1.0
  {
  }

  lemma RatioMonotone(n1: real, n2: real, d: real)
    requires n1 <= n2 && d > 0.0
    ensures n1 / d <= n2 / d
    ensures n1 < n2 ==> n1 / d < n2 / d
  {
  }

  /** The log position runs from 0 at MinFreq to 100 at MaxFreq. */
  lemma LogPositionBounds(c: real, ln: real -> real)
    requires Increasing(ln)
    requires MinFreq <= c <= MaxFreq
    ensures 0.0 <= LogPosition(c, ln) <= 100.0
    ensures c == MinFreq ==> LogPosition(c, ln) == 0.0
    ensures c == MaxFreq ==> LogPosition(c, ln) == 100.0
  {
    var lo, hi := ln(MinFreq), ln(MaxFreq);
    assert lo < hi;
    assert lo <= ln(c) <= hi;
    RatioInUnit(ln(c) - lo, hi - lo);
  }

  /** A higher frequency sits higher on the scale, strictly. */
  lemma LogPositionMonotone(c1: real, c2: real, ln: real -> real)
    requires Increasing(ln)
    requires MinFreq <= c1 < c2
    ensures LogPosition(c1, ln) < LogPosition(c2, ln)
  {
    var lo, hi := ln(MinFreq), ln(MaxFreq);
    assert ln(c1) < ln(c2);
    RatioMonotone(ln(c1) - lo, ln(c2) - lo, hi - lo);
  }

  /** The target is always on screen; it is the middle when the reading is
      not active, the bottom for 100 Hz and below, the top for 800 Hz and above. */
  lemma TargetOnScreen(pitch: Option<Num>, clarity: real, ln: real -> real)
    requires Increasing(ln)
    requires pitch.Some? ==> !pitch.value.NaN?
    ensures 0.0 <= TargetY(pitch, clarity, ln) <= 100.0
    ensures !IsActive(pitch, clarity) ==> TargetY(pitch, clarity, ln) == Middle
    ensures IsActive(pitch, clarity) && pitch.value.Finite? && pitch.value.value <= MinFreq ==>
              TargetY(pitch, clarity, ln) == 0.0
    ensures IsActive(pitch, clarity) && pitch.value.Finite? && pitch.value.value >= MaxFreq ==>
              TargetY(pitch, clarity, ln) == 100.0
  {
    if IsActive(pitch, clarity) {
      LogPositionBounds(ClampPitch(pitch.value), ln);
    }
  }

  /** Between 100 Hz and 800 Hz a higher pitch puts the target strictly
      higher, and outside that range the target does not move down as the pitch rises. */
  lemma TargetFollowsPitch(p1: real, p2: real, clarity: real, ln: real -> real)
    requires Increasing(ln)
    requires clarity > ActiveClarity
    requires p1 <= p2
    ensures TargetY(Some(Finite(p1)), clarity, ln) <= TargetY(Some(Finite(p2)), clarity, ln)
    ensures MinFreq <= p1 < p2 <= MaxFreq ==>
              TargetY(Some(Finite(p1)), clarity, ln) < TargetY(Some(Finite(p2)), clarity, ln)
  {
    if Clamp(p1) < Clamp(p2) {
      LogPositionMonotone(Clamp(p1), Clamp(p2), ln);
    }
  }

  /** A smoothing step lands between where the ball was and its target, and
      leaves the fraction 1 - f of the distance still to go. */
  lemma TowardsBetween(prev: real, target: real, f: real)
    requires 0.0 <= f <= 1.0
    ensures prev <= target ==> prev <= Towards(prev, target, f) <= target
    ensures target <= prev ==> target <= Towards(prev, target, f) <= prev
    ensures Towards(prev, target, f) - target == (1.0 - f) * (prev - target)
  {
    var g := target - prev;
    assert Towards(prev, target, f) == prev + g * f;
    assert target - Towards(prev, target, f) == g * (1.0 - f);
    if g >= 0.0 {
      MulNonNeg(g, f);
      MulNonNeg(g, 1.0 - f);
    } else {
      MulNonPos(g, f);
      MulNonPos(g, 1.0 - f);
    }
  }

  /** A tick keeps an on-screen ball on screen. */
  lemma StepStaysOnScreen(y: real, pitch: Option<Num>, clarity: real, ln: real -> real)
    requires Increasing(ln)
    requires pitch.Some? ==> !pitch.value.NaN?
    requires 0.0 <= y <= 100.0
    ensures 0.0 <= BallStep(y, pitch, clarity, ln) <= 100.0
  {
    TargetOnScreen(pitch, clarity, ln);
    TowardsBetween(y, TargetY(pitch, clarity, ln), Factor(IsActive(pitch, clarity)));
  }

  lemma {:induction false} GlideStaysOnScreen(y: real, readings: seq<Reading>, ln: real -> real)
    requires Increasing(ln)
    requires forall k :: 0 <= k < |readings| ==> Placeable(readings[k])
    requires 0.0 <= y <= 100.0
    ensures 0.0 <= Glide(y, readings, ln) <= 100.0
    decreases |readings|
  {
    if readings != [] {
      StepStaysOnScreen(y, readings[0].pitch, readings[0].clarity, ln);
      GlideStaysOnScreen(BallStep(y, readings[0].pitch, readings[0].clarity, ln), readings[1..], ln);
    }
  }

  /** From its starting height the ball never leaves the screen, whatever is sung. */
  lemma BallStaysOnScreen(readings: seq<Reading>, ln: real -> real)
    requires Increasing(ln)
    requires forall k :: 0 <= k < |readings| ==> Placeable(readings[k])
    ensures 0.0 <= Glide(Middle, readings, ln) <= 100.0
  {
    GlideStaysOnScreen(Middle, readings, ln);
  }

  /** Against a held target the ball never overshoots: from below it rises
      and stays below, tick after tick. */
  lemma {:induction false} SettleFromBelow(y: real, target: real, f: real, n: nat)
    requires 0.0 <= f <= 1.0
    requires y <= target
    ensures y <= Settle(y, target, f, n) <= target
    ensures n > 0 ==> Settle(y, target, f, n - 1) <= Settle(y, target, f, n)
  {
    if n > 0 {
      SettleFromBelow(y, target, f, n - 1);
      TowardsBetween(Settle(y, target, f, n - 1), target, f);
    }
  }

  /** From above it sinks and stays above. */
  lemma {:induction false} SettleFromAbove(y: real, target: real, f: real, n: nat)
    requires 0.0 <= f <= 1.0
    requires target <= y
    ensures target <= Settle(y, target, f, n) <= y
    ensures n > 0 ==> Settle(y, target, f, n) <= Settle(y, target, f, n - 1)
  {
    if n > 0 {
      SettleFromAbove(y, target, f, n - 1);
      TowardsBetween(Settle(y, target, f, n - 1), target, f);
    }
  }

  /** The game's test `clarity > 0.85 && pitch !== null` is the same test as
      `pitch !== null` on anything the hook reports, because the hook only
      sets a pitch at a clarity above the same 0.85; and such a pitch can
      always be placed on the screen. */
  lemma ActiveMeansPitch(s: PitchSession.Session)
    requires PitchSession.Valid(s)
    ensures IsActive(s.pitch, s.clarity) <==> s.pitch.Some?
    ensures Placeable(Reading(s.pitch, s.clarity))
  {
  }
}
