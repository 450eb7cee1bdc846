/** Exact integer scaling: products, floors and clamps shared by the brightness conversions. */
module Scaling {

  type Pos = x: int | 0 < x witness 1

  /** The product, by name, so that proofs can treat it as one number. */
  function Mul(x: int, y: int): int { x * y }

  /** max(low, min(high, value)) */
  function Clamp(value: int, low: int, high: int): int {
    var capped := if value < high then value else high;
    if low > capped then low else capped
  }

  lemma MulLe(x: int, y: int, d: Pos)
    ensures x <= y ==> Mul(x, d) <= Mul(y, d)
    ensures Mul(x + 1, d) == Mul(x, d) + d
  {
  }

  lemma MulConstants(x: int)
    ensures Mul(0, x) == 0 && Mul(100, x) == 100 * x && Mul(255, x) == 255 * x
    ensures Mul(x, 100) == 100 * x && Mul(x, 255) == 255 * x && Mul(x, 500) == 500 * x
  {
  }

  lemma FloorParts(n: int, d: Pos)
    ensures n == Mul(n / d, d) + n % d && 0 <= n % d < d
  {
  }

  lemma FloorMonotone(a: int, b: int, d: Pos)
    requires a <= b
    ensures a / d < b / d || (a / d == b / d && a % d <= b % d)
  {
    FloorParts(a, d);
    FloorParts(b, d);
    MulLe(b / d + 1, a / d, d);
    MulLe(b / d, a / d, d);
    hide Mul;
  }

  /** The floor of n / d is the one integer q with q * d <= n < (q + 1) * d. */
  lemma FloorIs(n: int, d: Pos, q: int)
    requires Mul(q, d) <= n < Mul(q, d) + d
    ensures n / d == q
  {
    FloorParts(n, d);
    MulLe(n / d + 1, q, d);
    MulLe(q + 1, n / d, d);
    MulLe(n / d, n / d, d);
    MulLe(q, q, d);
    hide Mul;
  }

  lemma FloorBounds(n: int, d: Pos, low: int, high: int)
    requires Mul(low, d) <= n <= Mul(high, d)
    ensures low <= n / d <= high
  {
    hide Mul;
    FloorIs(Mul(low, d), d, low);
    FloorIs(Mul(high, d), d, high);
    FloorMonotone(Mul(low, d), n, d);
    FloorMonotone(n, Mul(high, d), d);
  }
}
