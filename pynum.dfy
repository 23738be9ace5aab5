/**
 * Python's numeric conversions the apps rely on: `int(x)` of a float
 * (modelled as an exact real), which truncates toward zero.
 */
module PyNum {
  /** `int(x)`: truncation toward zero. */
  function Trunc(x: real): (r: int)
    ensures x >= 0.0 ==> 0 <= r && r as real <= x < r as real + 1.0
    ensures x < 0.0 ==> r <= 0 && r as real - 1.0 < x <= r as real
  {
    if x >= 0.0 then x.Floor else -((-x).Floor)
  }

  /** A truncated difference is at most zero exactly when the difference is below one. */
  lemma TruncNonPositive(x: real)
    ensures Trunc(x) <= 0 <==> x < 1.0
  {
  }
}
