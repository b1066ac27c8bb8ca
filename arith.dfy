/** Facts of integer arithmetic that the solver does not find on its own:
    products and quotients by a positive factor. */
module Arith {

  lemma DoubleAssoc(x: int, y: int)
    ensures 2 * (x * y) == (2 * x) * y
  {
  }

  lemma MulStrict(n: nat, x: int, y: int)
    requires n > 0 && n * x < n * y
    ensures x < y
  {
  }

  lemma MulMono(n: nat, x: nat, y: nat)
    requires x <= y
    ensures n * x <= n * y
  {
  }

  lemma NatProduct(x: nat, y: nat)
    ensures x * y >= 0
  {
  }

  lemma DivNonneg(a: nat, d: nat)
    requires d > 0
    ensures a / d >= 0
  {
  }

  lemma DivBounds(a: nat, size: nat, limit: nat)
    requires size > 0 && a < size * limit
    ensures (a / size) * size <= a < (a / size) * size + size
    ensures (a / size) * size + size <= size * limit
  {
    var q := a / size;
    assert a == q * size + a % size;
    assert q * size == size * q;
    MulStrict(size, q, limit);
    MulMono(size, q + 1, limit);
    assert size * (q + 1) == q * size + size;
  }

  lemma DivMonotone(a: nat, b: nat, n: nat)
    requires a <= b && n > 0
    ensures a / n <= b / n
  {
    assert n * (a / n) <= a;
    assert b < n * (b / n) + n;
    assert n * (b / n) + n == n * (b / n + 1);
    MulStrict(n, a / n, b / n + 1);
  }
}
