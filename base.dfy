/** Shared wrappers, time units and the decimal rounding used by the sizer. */
module Base {

  /** A value that may be absent (Python's `None`). */
  datatype Option<+T> = None | Some(value: T)

  /** The result of a call that may raise: `Err` carries the exception text. */
  datatype Fallible<+T> = Ok(value: T) | Err(msg: string)

  /** A foreign call whose return value the model does not use. */
  datatype CallResult = Returned | Raised(msg: string)

  /** A UTC instant, in microseconds (the resolution of Python's datetime). */
  type Instant = int

  /** A UTC calendar date, as a day number. */
  type Date = int

  const MicrosPerMinute: int := 60_000_000

  const Scale: real := 1000000.0

  /** Half of the last decimal place kept by `Round6`. */
  const HalfStep: real := 1.0 / 2000000.0

  function Min(a: real, b: real): real { if a <= b then a else b }

  function Max(a: real, b: real): real { if a >= b then a else b }

  function Abs(a: real): real { if a >= 0.0 then a else -a }

  /** Multiplying by a non-negative factor keeps the order. */
  lemma MulMono(a: real, b: real, c: real)
    requires a <= b && c >= 0.0
    ensures a * c <= b * c
  {
  }

  /** Multiplication distributes over addition. */
  lemma Distrib(x: real, a: real, b: real)
    ensures x * a + x * b == x * (a + b)
  {
  }

  /** Python's `round(x, 6)`: nearest multiple of 10^-6, ties to the even multiple. */
  function Round6(x: real): (r: real)
    ensures -HalfStep <= r - x <= HalfStep
    ensures x <= 0.0 ==> r <= 0.0
    ensures x >= 0.0 ==> r >= 0.0
  {
    var y := x * Scale;
    var n := y.Floor;
    var f := y - n as real;
    var m := if f > 0.5 then n + 1
             else if f < 0.5 then n
             else if n % 2 == 0 then n else n + 1;
    assert 0.0 <= f < 1.0;
    assert -0.5 <= m as real - y <= 0.5;
    m as real / Scale
  }

  /** Rounding leaves a value that already has at most six decimals unchanged. */
  lemma Round6OnGrid(k: int)
    ensures Round6(k as real / Scale) == k as real / Scale
  {
    var y := (k as real / Scale) * Scale;
    assert y == k as real;
    assert y.Floor == k;
  }
}
