/** Integer facts behind the row-major (NCHW) offset arithmetic of the tensor
    layout: multiplication is monotone, a mixed-radix digit pair is unique,
    and a digit pair stays below the product of the radices. */
module IndexArith {

  lemma MulMono(a: int, b: int, d: int)
    requires a <= b && d >= 0
    ensures a * d <= b * d
  {
    assert b * d - a * d == (b - a) * d;
  }

  /** `q * d + r` with `0 <= r < d` determines `q` and `r`. */
  lemma DigitsUnique(q1: int, r1: int, q2: int, r2: int, d: int)
    requires 0 <= r1 < d && 0 <= r2 < d
    requires q1 * d + r1 == q2 * d + r2
    ensures q1 == q2 && r1 == r2
  {
    if q1 < q2 {
      assert (q1 + 1) * d == q1 * d + d;
      MulMono(q1 + 1, q2, d);
    } else if q2 < q1 {
      assert (q2 + 1) * d == q2 * d + d;
      MulMono(q2 + 1, q1, d);
    }
  }

  lemma DivModOf(f: int, d: int, q: int, r: int)
    requires d > 0 && 0 <= r < d && f == q * d + r
    ensures f / d == q && f % d == r
  {
    DigitsUnique(f / d, f % d, q, r, d);
  }

  /** A digit pair `(x, y)` in radices `(X, Y)` encodes a number below `X * Y`. */
  lemma DigitsBound(x: int, X: int, y: int, Y: int)
    requires 0 <= x < X && 0 <= y < Y
    ensures 0 <= x * Y + y < X * Y
  {
    assert (x + 1) * Y == x * Y + Y;
    MulMono(x + 1, X, Y);
  }

  lemma PositiveFactors(a: nat, b: nat)
    requires a * b > 0
    ensures a > 0 && b > 0
  {
  }

  lemma QuotientBound(f: int, X: int, Y: int)
    requires Y > 0 && 0 <= f < X * Y
    ensures 0 <= f / Y < X
  {
    if f / Y >= X {
      MulMono(X, f / Y, Y);
    }
  }
}
