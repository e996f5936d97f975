/** Java's integer arithmetic, where it differs from Dafny's. */
module JavaArith {

  function Abs(a: int): (r: nat)
    ensures r == a || r == -a
  {
    if a < 0 then -a else a
  }

  /** Java's `int / int` for a positive divisor: the quotient is truncated toward
      zero, where Dafny's `/` rounds toward negative infinity. */
  function Div(a: int, b: int): (q: int)
    requires b > 0
    ensures Abs(q) == Abs(a) / b
    ensures q > 0 ==> a > 0
    ensures q < 0 ==> a < 0
  {
    if a >= 0 then a / b else -((-a) / b)
  }
}
