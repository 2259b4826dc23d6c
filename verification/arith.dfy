/** The one piece of JavaScript arithmetic the demo relies on beyond + - * /. */
module Arith {

  /** `Math.min` of two numbers: the smaller of the two, and one of them. */
  function Min(a: real, b: real): (m: real)
    ensures m <= a && m <= b
    ensures m == a || m == b
  {
    if a <= b then a else b
  }
}
