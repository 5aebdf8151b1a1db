/** The few facts about multiplication and division that the proofs share. */
module Arith {
  lemma MulAtLeast(n: nat, k: int)
    requires k >= 1
    ensures n * k >= n
  {
    assert n * k == n * (k - 1) + n;
  }

  lemma MulMonotone(n: nat, i: nat, j: nat)
    requires i <= j
    ensures n * i <= n * j
  {
    assert n * j == n * i + n * (j - i);
    if i < j { MulAtLeast(n, j - i); }
  }

  lemma NextMultiple(i: nat, j: nat, n: nat)
    requires n * i < n * j
    ensures n * (i + 1) <= n * j
  {
    if i < j { MulMonotone(n, i + 1, j); } else { MulMonotone(n, j, i); }
  }

  /** Quotient and remainder are unique. */
  lemma DivMod(x: nat, n: nat, q: nat, r: nat)
    requires x == n * q + r && r < n
    ensures x / n == q && x % n == r
  {
    var d := x / n;
    assert x == n * d + x % n;
    if d < q { MulMonotone(n, d + 1, q); }
    if q < d { MulMonotone(n, q + 1, d); }
  }

  /** Between two different multiples of n lie at least n steps. */
  lemma MultiplesStep(a: nat, b: nat, n: nat)
    requires n > 0 && a % n == 0 && b % n == 0 && a < b
    ensures a + n <= b && (a + n) % n == 0
  {
    var i, j := a / n, b / n;
    assert a == n * i && b == n * j;
    NextMultiple(i, j, n);
    assert a + n == n * (i + 1);
    DivMod(a + n, n, i + 1, 0);
  }
}
