/** Go's integer division and float-to-int conversion, which both round toward
    zero, written out over Dafny's unbounded integers and exact reals. */
module Numeric {

  function Abs(x: int): nat
  {
    if x < 0 then -x else x
  }

  /** Go's `a / b` on `int`: the quotient truncated toward zero (Dafny's own `/`
      is Euclidean). Go panics when `b` is zero, hence the precondition. */
  function GoDiv(a: int, b: int): int
    requires b != 0
  {
    var m := Abs(a) / Abs(b);
    if (a < 0) == (b < 0) then m else -m
  }

  /** The remainder of Go's division is smaller than the divisor and has the
      sign of the dividend: the quotient is truncated toward zero. */
  lemma GoDivTruncates(a: int, b: int)
    requires b != 0
    ensures var q := GoDiv(a, b);
            && Abs(a - q * b) < Abs(b)
            && (a >= 0 ==> a - q * b >= 0)
            && (a <= 0 ==> a - q * b <= 0)
  {
    var m := Abs(a) / Abs(b);
    QuotientRemainder(a, b, m, GoDiv(a, b));
  }

  lemma QuotientRemainder(a: int, b: int, m: int, q: int)
    requires b != 0 && m == Abs(a) / Abs(b)
    requires q == if (a < 0) == (b < 0) then m else -m
    ensures Abs(a - q * b) < Abs(b)
    ensures a >= 0 ==> a - q * b >= 0
    ensures a <= 0 ==> a - q * b <= 0
  {
    var d: int := Abs(b);
    EuclideanDivision(Abs(a), d);
    NegatedProducts(m, d);
    if b > 0 { assert b == d; } else { assert b == -d; }
    if (a < 0) == (b < 0) { assert q == m; } else { assert q == -m; }
    assert q * b == if a < 0 then -(m * d) else m * d;
  }

  lemma EuclideanDivision(x: nat, d: int)
    requires d > 0
    ensures x == (x / d) * d + x % d && 0 <= x % d < d
  {
  }

  lemma NegatedProducts(x: int, y: int)
    ensures (-x) * y == -(x * y) && x * (-y) == -(x * y) && (-x) * (-y) == x * y
  {
  }

  /** For the operands the cart normally holds, Go's and Dafny's division agree. */
  lemma GoDivAgreesOnNonNegatives(a: int, b: int)
    requires a >= 0 && b > 0
    ensures GoDiv(a, b) == a / b && GoDiv(a, b) >= 0
  {
  }

  /** Go's `int(x)` on a float: the integer part, truncated toward zero. */
  function GoTrunc(x: real): (n: int)
    ensures x >= 0.0 ==> n as real <= x < n as real + 1.0
    ensures x < 0.0 ==> n as real - 1.0 < x <= n as real
  {
    if x >= 0.0 then x.Floor else -((-x).Floor)
  }

  /** Converting an integer to a float and back gives it unchanged. */
  lemma GoTruncOfInt(n: int)
    ensures GoTrunc(n as real) == n
  {
  }
}
