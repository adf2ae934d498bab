/** The few pieces of Java semantics that the models share: exceptions as values,
    `(int)` casts of doubles and the division of `int`s. */
module JavaLang {

  /** The unchecked exceptions the modelled code throws or lets escape (`Arithmetic` is the
      `ArithmeticException` of an `int` division by zero). */
  datatype Exception =
    | IllegalArgument(message: string)
    | IndexOutOfBounds
    | NumberFormat
    | Arithmetic

  /** A call either returns a value or throws. */
  datatype Result<T> = Ok(value: T) | Throws(error: Exception)

  datatype Option<T> = None | Some(value: T)

  /** Java's `(int) d` for a double `d` within `int` range: rounds toward zero. */
  function TruncToInt(r: real): (n: int)
    ensures r >= 0.0 ==> n as real <= r < n as real + 1.0
    ensures r < 0.0 ==> n as real - 1.0 < r <= n as real
  {
    if r >= 0.0 then r.Floor else -((-r).Floor)
  }

  /** Java's `a / b` on `int`: the quotient rounded toward zero (Dafny's `/` is
      Euclidean, which differs when the dividend is negative). */
  function Div(a: int, b: int): (q: int)
    requires b != 0
    ensures a >= 0 && b > 0 ==> q == a / b
    ensures Abs(q) * Abs(b) <= Abs(a) < (Abs(q) + 1) * Abs(b)
  {
    var m := Abs(a) / Abs(b);
    QuotientBounds(Abs(a), Abs(b));
    if (a >= 0) == (b > 0) then m else -m
  }

  /** The quotient of naturals times the divisor stays within one divisor below the dividend. */
  lemma QuotientBounds(a: nat, b: nat)
    requires b > 0
    ensures (a / b) * b <= a < (a / b + 1) * b
  {
    assert a == (a / b) * b + a % b && 0 <= a % b < b;
    assert (a / b + 1) * b == (a / b) * b + b;
  }

  /** Unlike the Euclidean quotient, Java's quotient is odd in the dividend. */
  lemma DivNegatedDividend(a: int, b: int)
    requires b != 0
    ensures Div(-a, b) == -Div(a, b)
  {
  }

  function Abs(x: int): nat { if x < 0 then -x else x }
}
