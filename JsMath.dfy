/** JavaScript number operators that differ from Dafny's, on integers. */
module JsMath {
  /** JavaScript `a % b` for `b > 0`: the remainder takes the sign of `a` (truncated division). */
  function JsRem(a: int, b: int): (r: int)
    requires b > 0
    ensures -b < r < b
    ensures a >= 0 ==> r == a % b
    ensures a < 0 ==> r <= 0
  {
    if a >= 0 then a % b else -((-a) % b)
  }

  /** Truncated remainder is odd in its first operand, unlike Dafny's Euclidean `%`. */
  lemma JsRemOdd(a: int, b: int)
    requires b > 0
    ensures JsRem(-a, b) == -JsRem(a, b)
  {
  }
}
