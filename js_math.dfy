/**
 * The integer arithmetic of JavaScript's `Math.floor`, `Math.ceil`, `Math.round` and `%`,
 * stated exactly on integers and rationals `a / b` with a positive denominator.
 * Dafny's `/` and `%` are Euclidean; with a positive divisor `/` is floor division.
 */
module JsMath {

  /** `Math.floor(a / b)` for b > 0. */
  function FloorDiv(a: int, b: int): (q: int)
    requires b > 0
    ensures q * b <= a < q * b + b
  {
    a / b
  }

  /** `Math.ceil(a / b)` for b > 0. */
  function CeilDiv(a: int, b: int): (q: int)
    requires b > 0
    ensures q * b - b < a <= q * b
  {
    (a + b - 1) / b
  }

  /** `Math.round(a / b)` for b > 0: the integer nearest to a / b, halves rounded up. */
  function RoundDiv(a: int, b: int): (q: int)
    requires b > 0
    ensures 2 * q * b - b <= 2 * a < 2 * q * b + b
  {
    (2 * a + b) / (2 * b)
  }

  /** The quotient of JavaScript's `Math.trunc(a / b)` for b > 0: rounded toward zero. */
  function TruncDiv(a: int, b: int): (q: int)
    requires b > 0
    ensures a >= 0 ==> q * b <= a < q * b + b
    ensures a < 0 ==> q * b - b < a <= q * b
  {
    if a >= 0 then a / b else -((-a) / b)
  }

  /** JavaScript's `a % b` for b > 0: the remainder of truncating division takes the sign of a. */
  function Rem(a: int, b: int): (r: int)
    requires b > 0
    ensures a >= 0 ==> 0 <= r < b
    ensures a < 0 ==> -b < r <= 0
    ensures a == TruncDiv(a, b) * b + r
  {
    if a >= 0 then a % b else -((-a) % b)
  }

  /** On a non-negative number `%` agrees with the Euclidean remainder. */
  lemma RemOfNatural(a: int, b: int)
    requires b > 0 && a >= 0
    ensures Rem(a, b) == a % b == a - FloorDiv(a, b) * b
  {
  }

  /** Floor division of a nested quotient: floor(floor(a / b) / c) = floor(a / (b * c)). */
  lemma NestedFloorDiv(a: int, b: int, c: int)
    requires b > 0 && c > 0
    ensures FloorDiv(FloorDiv(a, b), c) == FloorDiv(a, b * c)
  {
    var q1 := FloorDiv(a, b);
    var q2 := FloorDiv(q1, c);
    assert q2 * c <= q1 < q2 * c + c;
    assert q1 * b <= a < q1 * b + b;
    assert q2 * c * b <= q1 * b by {
      MulMonotone(q2 * c, q1, b);
    }
    assert q1 * b + b <= (q2 * c + c) * b by {
      MulMonotone(q1 + 1, q2 * c + c, b);
    }
    assert (q2 * c + c) * b == q2 * (b * c) + b * c;
    assert q2 * c * b == q2 * (b * c);
    FloorDivUnique(a, b * c, q2);
  }

  /** The remainder of a non-negative number is the only r with a = q * b + r and 0 <= r < b. */
  lemma RemUnique(a: int, b: int, q: int, r: int)
    requires b > 0 && a >= 0
    requires a == q * b + r && 0 <= r < b
    ensures Rem(a, b) == r
  {
    FloorDivUnique(a, b, q);
  }

  lemma MulMonotone(x: int, y: int, k: int)
    requires x <= y && k > 0
    ensures x * k <= y * k
  {
  }

  /** The floor quotient is the only q with q * b <= a < q * b + b. */
  lemma FloorDivUnique(a: int, b: int, q: int)
    requires b > 0
    requires q * b <= a < q * b + b
    ensures FloorDiv(a, b) == q
  {
    var p := FloorDiv(a, b);
    if p < q {
      MulMonotone(p + 1, q, b);
    } else if p > q {
      MulMonotone(q + 1, p, b);
    }
  }
}
