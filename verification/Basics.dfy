/** Shared datatypes and the integer rounding of `reference/pm_model.py`. */
module Basics {

  datatype Option<+T> = None | Some(value: T)

  const BPS: int := 10_000
  /** USDC: 6 decimals. */
  const DEC: nat := 6
  const UNIT: int := 1_000_000
  const WAD: int := 1_000_000_000_000_000_000

  function Max(a: int, b: int): int {
    if a < b then b else a
  }

  function Min(a: int, b: int): int {
    if a < b then a else b
  }

  function MaxR(a: real, b: real): real {
    if a < b then b else a
  }

  function MinR(a: real, b: real): real {
    if a < b then a else b
  }

  /** Python's `-((-a) // b)`. For a positive divisor Dafny's `/` rounds down, as Python's `//` does. */
  function CeilDiv(a: int, b: int): (r: int)
    requires 0 < b
    ensures (r - 1) * b < a <= r * b
  {
    -((-a) / b)
  }

  /** Python's `a // b`, which rounds down whatever the signs. */
  function FloorDiv(a: int, b: int): int
    requires b != 0
  {
    if 0 < b then a / b else (-a) / (-b)
  }

  /** The quotient is the only integer within one divisor below the dividend. */
  lemma {:induction false} FloorBounds(a: int, b: int)
    requires 0 < b
    ensures (a / b) * b <= a < (a / b + 1) * b
  {
  }

  lemma {:induction false} MulLess(a: int, b: int, c: int)
    requires a < b && 0 < c
    ensures a * c < b * c
  {
  }

  lemma {:induction false} MulAtMost(a: int, b: int, c: int)
    requires a <= b && 0 <= c
    ensures a * c <= b * c
  {
  }

  /** Comparing an integer with a quotient rounded down. */
  lemma {:induction false} AtMostFloor(k: int, a: int, b: int)
    requires 0 < b
    ensures k <= a / b <==> k * b <= a
  {
    FloorBounds(a, b);
    if k <= a / b {
      MulAtMost(k, a / b, b);
    } else {
      MulAtMost(a / b + 1, k, b);
    }
  }

  /** Comparing an integer with a quotient rounded up. */
  lemma {:induction false} CeilAtMost(a: int, b: int, k: int)
    requires 0 < b
    ensures CeilDiv(a, b) <= k <==> a <= k * b
  {
    var r := CeilDiv(a, b);
    if r <= k {
      MulAtMost(r, k, b);
    } else {
      MulAtMost(k, r - 1, b);
    }
  }

  function Pow10(n: nat): (p: int)
    ensures 0 < p
  {
    if n == 0 then 1 else 10 * Pow10(n - 1)
  }

  /** `10 ** (54 - decimals)`: claims are exact integers at scale 1e54, cash is in native units. */
  function Scale(decimals: nat): (d: int)
    requires decimals <= 54
    ensures 0 < d
  {
    Pow10(54 - decimals)
  }

  lemma {:induction false} ProductNonNegative(a: real, b: real)
    requires 0.0 <= a && 0.0 <= b
    ensures 0.0 <= a * b
  {
  }

  lemma {:induction false} CancelFactor(x: real, h: real)
    requires 0.0 < h && 0.0 <= x * h
    ensures 0.0 <= x
  {
  }
}
