/** Shared vocabulary of the cppSfxr model: failure-carrying results, the
    truncating float-to-integer conversion of C, powers of two and bytes. */
module Common {

  /** What a throwing call of the source reports: either a value or the
      exception it raised. */
  datatype Result<T> = Ok(value: T) | Err(message: string)

  /** A call whose only outcome is whether it threw. */
  datatype Outcome = Pass | Fail(message: string)

  /** A byte of an output stream. */
  newtype uint8 = x: int | 0 <= x < 256

  /** C's `trunc` and its float-to-int casts: round toward zero. */
  function Trunc(x: real): (r: int)
    ensures 0.0 <= x ==> r as real <= x < r as real + 1.0
    ensures x < 0.0 ==> r as real - 1.0 < x <= r as real
  {
    if 0.0 <= x then x.Floor else -((-x).Floor)
  }

  /** Truncation is monotone and never moves past zero. */
  lemma TruncBounded(x: real, k: int)
    requires 0 <= k
    requires -(k as real) <= x <= k as real
    ensures -k <= Trunc(x) <= k
  {
  }

  /** Multiplying by the same natural number keeps the order. */
  lemma MulMonotone(a: nat, b: nat, m: nat)
    requires a <= b
    ensures a * m <= b * m
  {
  }

  /** `1 << n` for a non-negative shift. */
  function Pow2(n: nat): (r: nat)
    ensures 1 <= r
  {
    if n == 0 then 1 else 2 * Pow2(n - 1)
  }

  lemma {:induction false} Pow2Add(a: nat, b: nat)
    ensures Pow2(a) * Pow2(b) == Pow2(a + b)
  {
    if a > 0 {
      Pow2Add(a - 1, b);
    }
  }

  lemma {:induction false} Pow2Monotone(a: nat, b: nat)
    requires a <= b
    ensures Pow2(a) <= Pow2(b)
  {
    if a < b {
      Pow2Monotone(a, b - 1);
    }
  }
}
