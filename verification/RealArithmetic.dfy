/** Products and quotients of reals under names, so that proofs can leave them folded. */
module RealArithmetic {

  function Times(x: real, y: real): real {
    x * y
  }

  function Over(x: real, d: real): real
    requires d != 0.0
  {
    x / d
  }

  function Max(a: real, b: real): real {
    if a < b then b else a
  }

  function Min(a: real, b: real): real {
    if b < a then b else a
  }

  function Abs(x: real): real {
    if x < 0.0 then -x else x
  }

  lemma ProductNegative(x: real, y: real)
    requires x > 0.0 && y < 0.0
    ensures x * y < 0.0
  {
  }

  lemma ProductPositive(x: real, y: real)
    requires x > 0.0 && y > 0.0
    ensures Times(x, y) > 0.0
  {
  }

  lemma ProductNotNegative(x: real, y: real)
    requires x >= 0.0 && y >= 0.0
    ensures x * y >= 0.0
    ensures Times(x, y) >= 0.0
  {
  }

  lemma SquareNotNegative(x: real)
    ensures x * x >= 0.0
    ensures Times(x, x) >= 0.0
  {
    if x >= 0.0 {
      ProductNotNegative(x, x);
    } else {
      ProductNotNegative(-x, -x);
    }
  }

  lemma QuotientBounds(x: real, d: real)
    requires d > 0.0 && 0.0 <= x <= d
    ensures 0.0 <= Over(x, d) <= 1.0
  {
  }

  lemma OverIsQuotient(x: real, d: real)
    ensures d != 0.0 ==> Over(x, d) == x / d
  {
  }

  lemma ProductMonotone(a: real, b: real, c: real, d: real)
    requires 0.0 <= a <= c && 0.0 <= b <= d
    ensures 0.0 <= Times(a, b) <= Times(c, d)
  {
    assert a * b <= a * d;
    assert a * d <= c * d;
  }

  /** root is the square root. */
  ghost predicate IsRoot(root: real -> real) {
    forall x :: x >= 0.0 ==> root(x) >= 0.0 && root(x) * root(x) == x
  }
}
