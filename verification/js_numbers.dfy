/** JavaScript numbers as they come out of a division over exact reals.
    `a / 0` is not an error in JavaScript: it yields an infinity, or NaN when
    `a` is also zero. The pitch detector divides by a lag that can be 0. */
module JsNumbers {

  datatype Num = Finite(value: real) | PosInfinity | NegInfinity | NaN

  /** IEEE division as JavaScript performs it, with signed zeros left out. */
  function Divide(a: real, b: real): (q: Num)
    ensures q.Finite? <==> b != 0.0
    ensures q.Finite? ==> q.value * b == a
    ensures q == NaN <==> a == 0.0 && b == 0.0
    ensures b == 0.0 && a > 0.0 ==> q == PosInfinity
    ensures b == 0.0 && a < 0.0 ==> q == NegInfinity
  {
    if b != 0.0 then Finite(a / b)
    else if a > 0.0 then PosInfinity
    else if a < 0.0 then NegInfinity
    else NaN
  }
}
