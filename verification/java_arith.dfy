/** Java's integer division and its (int) cast of a floating-point value,
    both of which round toward zero rather than down. */
module JavaArith {

  function Abs(x: int): nat {
    if x < 0 then -x else x
  }

  function AbsReal(x: real): real {
    if x < 0.0 then -x else x
  }

  /** `a / d` on Java ints, for the positive divisors the chart uses: the
      quotient truncated toward zero, so the remainder `a - d * q` is
      smaller than `d` and never has the opposite sign of `a`. */
  function Quot(a: int, d: int): (q: int)
    requires d > 0
    ensures Abs(a - d * q) < d
    ensures a - d * q == 0 || (a - d * q < 0) == (a < 0)
  {
    if a < 0 then
      var m := (-a) / d;
      assert -a == d * m + (-a) % d;
      assert d * -m == -(d * m);
      -m
    else
      a / d
  }

  /** The `(int)` cast of a (non-NaN, in-range) double: the real value
      truncated toward zero. */
  function Truncate(x: real): (n: int)
    ensures Abs(n) as real <= AbsReal(x) < Abs(n) as real + 1.0
    ensures n == 0 || (n < 0) == (x < 0.0)
  {
    if x < 0.0 then -((-x).Floor) else x.Floor
  }

  lemma TruncateMonotone(x: real, y: real)
    requires x <= y
    ensures Truncate(x) <= Truncate(y)
  {
    if 0.0 <= x {
      assert x.Floor <= y.Floor by { FloorMonotone(x, y); }
    } else if y < 0.0 {
      assert (-y).Floor <= (-x).Floor by { FloorMonotone(-y, -x); }
    }
  }

  lemma FloorMonotone(x: real, y: real)
    requires x <= y
    ensures x.Floor <= y.Floor
  {
  }
}
