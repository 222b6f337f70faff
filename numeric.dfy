/** Python's numeric conversions, stated over the reals. */
module Numeric {
  /** `int(r)` in Python: truncation toward zero (Dafny's `Floor` rounds down). */
  function Trunc(r: real): (t: int)
    ensures r >= 0.0 ==> t as real <= r < t as real + 1.0
    ensures r < 0.0 ==> t as real - 1.0 < r <= t as real
  {
    if r >= 0.0 then r.Floor else -((-r).Floor)
  }

  /** A value strictly inside (-m, m) truncates to an integer strictly inside (-m, m). */
  lemma TruncInside(r: real, m: int)
    requires -(m as real) < r < m as real
    ensures -m < Trunc(r) < m
  {
  }
}
