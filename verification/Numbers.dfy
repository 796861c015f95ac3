/** Python's `int(...)` and `round(...)` on exact reals. */
module Numbers {

  /** `int(r)`: truncation toward zero. */
  function Trunc(r: real): (n: int)
    ensures if r >= 0.0 then n as real <= r < n as real + 1.0 else n as real - 1.0 < r <= n as real
  {
    if r >= 0.0 then r.Floor else -((-r).Floor)
  }

  /** `round(r)`: nearest integer, halves to the even one. */
  function Round(r: real): (n: int)
    ensures r.Floor <= n <= r.Floor + 1
    ensures n as real - 0.5 <= r <= n as real + 0.5
    ensures r == n as real - 0.5 || r == n as real + 0.5 ==> n % 2 == 0
  {
    var f := r.Floor;
    var d := r - f as real;
    if d < 0.5 then f else if d > 0.5 then f + 1 else if f % 2 == 0 then f else f + 1
  }

  function Min(a: int, b: int): (m: int)
    ensures m <= a && m <= b && (m == a || m == b)
  {
    if a <= b then a else b
  }

  function Max(a: int, b: int): (m: int)
    ensures m >= a && m >= b && (m == a || m == b)
  {
    if a >= b then a else b
  }

  function MinReal(a: real, b: real): (m: real)
    ensures m <= a && m <= b && (m == a || m == b)
  {
    if a <= b then a else b
  }

  function MaxReal(a: real, b: real): (m: real)
    ensures m >= a && m >= b && (m == a || m == b)
  {
    if a >= b then a else b
  }
}
