/** The numeric operations the report code applies to table cells: Python's float
    floor and `% 1`, `round()` (round half to even) and fixed-point formatting.
    Floats are modelled as exact reals. */
module Numbers {

  /** A table cell holding a number: an integer column or a float column. */
  datatype Num = IntNum(i: int) | FloatNum(x: real)

  /** The value of a cell as a real number. */
  function AsReal(n: Num): real {
    match n
    case IntNum(i) => i as real
    case FloatNum(x) => x
  }

  /** The text that `"{:0.2f}".format(x)` writes, kept symbolic: what matters to the
      report is which value is formatted, not the digits. */
  datatype Fixed2 = Fixed2(value: real)

  /** `x // 1` on a float: the largest integer not above `x`. */
  function Floor(x: real): (f: int)
    ensures f as real <= x < f as real + 1.0
  {
    x.Floor
  }

  /** `x % 1` on a float: the fractional part, in [0, 1). */
  function Frac(x: real): (r: real)
    ensures 0.0 <= r < 1.0
    ensures Floor(x) as real + r == x
  {
    x - Floor(x) as real
  }

  /** An integer is the floor of `x` exactly when it lies within the unit interval below `x`. */
  lemma FloorUnique(x: real, f: int)
    requires f as real <= x < f as real + 1.0
    ensures Floor(x) == f
  {
  }

  /** `round(x)` for a Python float: the nearest integer, ties going to the even one. */
  function RoundHalfEven(x: real): (n: int)
    ensures -0.5 <= n as real - x <= 0.5
    ensures (n as real - x == 0.5 || x - n as real == 0.5) ==> n % 2 == 0
  {
    var f := Floor(x);
    var d := x - f as real;
    if d < 0.5 then f
    else if d > 0.5 then f + 1
    else if f % 2 == 0 then f
    else f + 1
  }

  /** The two properties of `RoundHalfEven` fix its value: any nearest integer that
      is even on a tie is the one `round` returns. */
  lemma RoundHalfEvenUnique(x: real, n: int)
    requires -0.5 <= n as real - x <= 0.5
    requires (n as real - x == 0.5 || x - n as real == 0.5) ==> n % 2 == 0
    ensures RoundHalfEven(x) == n
  {
    var f := Floor(x);
    assert f - 1 < n < f + 2;
  }

  /** Rounding an integral value returns it unchanged. */
  lemma RoundOfInteger(i: int)
    ensures RoundHalfEven(i as real) == i
  {
    RoundHalfEvenUnique(i as real, i);
  }
}
