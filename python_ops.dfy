/** The few pieces of Python's runtime semantics that the geometry code relies on:
    the exceptions it can raise, banker's rounding (`round` on a number) and
    floor division by two (`x // 2`). Floats are modelled as exact reals. */
module PythonOps {

  /** The exceptions the modelled code can raise. */
  datatype PyError =
    | ZeroDivisionError                  // `a / b` with `b == 0`
    | UnboundLocalError(name: string)    // a local read before any assignment

  /** A value, or the exception raised while computing it. */
  datatype Result<T> = Ok(value: T) | Err(error: PyError)

  /** `x // 2`: Python floors the quotient. Dafny's `/` is Euclidean, which for
      the positive divisor 2 is the same thing, negative `x` included. */
  function HalfFloor(x: int): (q: int)
    ensures 2 * q <= x <= 2 * q + 1
  {
    x / 2
  }

  /** `round(x)`: the integer nearest to `x`, ties going to the even neighbour. */
  function RoundHalfEven(x: real): (r: int)
    ensures x - 0.5 <= r as real <= x + 0.5
    ensures r as real == x - 0.5 || r as real == x + 0.5 ==> r % 2 == 0
  {
    var f := x.Floor;
    var frac := x - f as real;
    if frac < 0.5 then f
    else if frac > 0.5 then f + 1
    else if f % 2 == 0 then f
    else f + 1
  }

  /** An integer strictly closer than one half to `x` is what `round` returns. */
  lemma RoundNearest(x: real, n: int)
    requires x - 0.5 < n as real < x + 0.5
    ensures RoundHalfEven(x) == n
  {
    var r := RoundHalfEven(x);
    assert (r - n) as real < 1.0 && (n - r) as real < 1.0;
  }

  /** Rounding a whole number gives it back. */
  lemma RoundWhole(n: int)
    ensures RoundHalfEven(n as real) == n
  {
    RoundNearest(n as real, n);
  }

  /** Rounding never falls below an integer lower bound of its argument. */
  lemma RoundAtLeast(x: real, n: int)
    requires n as real <= x
    ensures n <= RoundHalfEven(x)
  {
    var r := RoundHalfEven(x);
    assert (n - r) as real <= 0.5;
  }
}
