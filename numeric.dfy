/** Python numeric built-ins used by the scoring code, over exact reals.

    Python floats become `real`; `int(x)` on a float truncates toward zero,
    `round(x, 2)` rounds to the nearest hundredth with ties to even, and
    `max(lo, min(hi, x))` is the clamp the source writes inline. */
module Numeric {

  /** `max(lo, min(hi, x))`, the inline clamp of agents.py. */
  function Clamp(lo: real, hi: real, x: real): (r: real)
    requires lo <= hi
    ensures lo <= r <= hi
    ensures lo <= x <= hi ==> r == x
    ensures x < lo ==> r == lo
    ensures hi < x ==> r == hi
  {
    var m := if hi < x then hi else x;
    if m < lo then lo else m
  }

  /** Python's `int(x)` on a float: truncation toward zero. */
  function Trunc(x: real): (r: int)
    ensures 0.0 <= x ==> 0 <= r && r as real <= x < r as real + 1.0
    ensures x < 0.0 ==> r <= 0 && r as real - 1.0 < x <= r as real
  {
    if 0.0 <= x then x.Floor else -((-x).Floor)
  }

  /** A value in [0, 101) truncates to a whole number in [0, 100]. */
  lemma TruncInRange(x: real)
    requires 0.0 <= x < 101.0
    ensures 0 <= Trunc(x) <= 100
  {
  }

  /** Python's `round(y)` on an exact value: nearest integer, ties to even. */
  function RoundHalfEven(y: real): (n: int)
    ensures -0.5 <= n as real - y <= 0.5
    ensures y.Floor <= n <= y.Floor + 1
    ensures y - y.Floor as real != 0.5 ==> -0.5 < n as real - y < 0.5
    ensures y - y.Floor as real == 0.5 ==> n % 2 == 0
  {
    var f := y.Floor;
    var d := y - f as real;
    if d < 0.5 then f
    else if d > 0.5 then f + 1
    else if f % 2 == 0 then f
    else f + 1
  }

  /** Python's `round(x, 2)`: the nearest hundredth, ties to even. */
  function Round2(x: real): (r: real)
    ensures -0.005 <= r - x <= 0.005
  {
    (RoundHalfEven(x * 100.0) as real) / 100.0
  }

  /** A value that is already a whole number of hundredths is left as it is. */
  lemma Round2OfHundredths(k: int)
    ensures Round2(k as real / 100.0) == k as real / 100.0
  {
    var y := (k as real / 100.0) * 100.0;
    assert y == k as real;
    assert y.Floor == k;
  }

  /** Rounding to hundredths maps [0.2, 0.8] into [0.2, 0.8]: both ends are
      whole hundredths, so rounding cannot step over them. */
  lemma Round2KeepsRange(x: real)
    requires 0.2 <= x <= 0.8
    ensures 0.2 <= Round2(x) <= 0.8
  {
    var y := x * 100.0;
    assert 20.0 <= y <= 80.0;
    var f := y.Floor;
    assert 20 <= f <= 80;
    var n := RoundHalfEven(y);
    if f == 80 {
      assert y == 80.0;
      assert n == 80;
    }
    assert 20 <= n <= 80;
  }
}
