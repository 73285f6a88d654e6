/** The few facts about quotients and remainders that the proofs need. */
module Remainders {

  lemma ProductGrows(a: int, b: int, n: nat)
    requires a <= b
    ensures a * n <= b * n
  {
    assert b * n - a * n == (b - a) * n;
  }

  lemma ProductIsNat(a: nat, n: nat)
    ensures a * n >= 0
  {
    ProductGrows(0, a, n);
  }

  lemma QuotientIsNat(x: nat, n: nat)
    requires n > 0
    ensures x / n >= 0 && 0 <= x % n < n
  {
  }

  /** Multiples of n are at least n apart. */
  lemma Apart(a: int, b: int, n: nat)
    ensures a < b ==> a * n + n <= b * n
  {
    if a < b {
      ProductGrows(a + 1, b, n);
      assert (a + 1) * n == a * n + n;
    }
  }

  /** Quotient and remainder are the only pair that recomposes x. */
  lemma Decompose(x: nat, n: nat, q: int, r: int)
    requires n > 0 && 0 <= r < n && x == q * n + r
    ensures x / n == q && x % n == r
  {
    var k, m := x / n, x % n;
    assert k * n + m == q * n + r;
    Apart(k, q, n);
    Apart(q, k, n);
  }

  lemma Recompose(x: nat, n: nat)
    requires n > 0
    ensures x == (x / n) * n + x % n && 0 <= x % n < n
  {
  }

  lemma ShiftByModulus(x: nat, n: nat)
    requires n > 0
    ensures (x + n) % n == x % n
  {
    Recompose(x, n);
    assert x + n == (x / n + 1) * n + x % n;
    Decompose(x + n, n, x / n + 1, x % n);
  }

  /** Two numbers less than n apart leave different remainders. */
  lemma {:induction false} CloseDiffer(x: nat, y: nat, n: nat)
    requires n > 0 && x < y < x + n
    ensures x % n != y % n
  {
    Recompose(x, n);
    Recompose(y, n);
    if x % n == y % n {
      assert y - x == (y / n) * n - (x / n) * n == (y / n - x / n) * n;
      if y / n <= x / n {
        ProductGrows(y / n, x / n, n);
      } else {
        ProductGrows(1, y / n - x / n, n);
      }
    }
  }
}
