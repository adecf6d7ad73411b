/** Smaller and larger of two numbers, and division facts the solver does not find by itself. */
module Arith {
  function Min(a: int, b: int): int {
    if a <= b then a else b
  }

  function Max(a: int, b: int): int {
    if a <= b then b else a
  }

  lemma MulAtLeast(a: nat, n: nat)
    requires a > 0
    ensures a * n >= n
  {
    assert (a - 1) * n >= 0;
  }

  /** Quotient and remainder are the only numbers with their property. */
  lemma DivMod(k: nat, q: nat, n: nat, r: nat)
    requires k == q * n + r && r < n
    ensures k / n == q && k % n == r
  {
    var q', r' := k / n, k % n;
    assert k == q' * n + r';
    assert (q - q') * n == r' - r;
    if q' < q {
      MulAtLeast(q - q', n);
    } else if q < q' {
      MulAtLeast(q' - q, n);
    }
  }

  /** Adding the divisor adds one to the quotient and leaves the remainder. */
  lemma DivModStep(k: nat, n: nat)
    requires n > 0
    ensures (k + n) / n == k / n + 1 && (k + n) % n == k % n
  {
    assert (k / n + 1) * n == (k / n) * n + n;
    DivMod(k + n, k / n + 1, n, k % n);
  }
}
