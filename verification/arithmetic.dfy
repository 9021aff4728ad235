/** Quotients and remainders by a variable divisor. */
module Arithmetic {

  lemma Divided(a: nat, n: nat)
    requires n > 0
    ensures a == a / n * n + a % n && a % n < n
  {
  }

  lemma Spread(a: nat, b: nat, n: nat)
    requires a < b
    ensures b * n >= a * n + n
  {
    assert (b - a) * n == b * n - a * n;
    assert (b - a - 1) * n >= 0;
  }

  lemma SameQuotient(k: nat, f: nat, q: nat, r: nat, n: nat)
    requires k * n + f == q * n + r && f < n && r < n
    ensures k == q && f == r
  {
    if k < q { Spread(k, q, n); } else if q < k { Spread(q, k, n); }
  }

  lemma QuotientIs(k: nat, f: nat, n: nat)
    requires f < n
    ensures (k * n + f) / n == k && (k * n + f) % n == f
  {
    var a := k * n + f;
    Divided(a, n);
    SameQuotient(k, f, a / n, a % n, n);
  }

  lemma QuotientSmall(a: nat, n: nat, m: nat)
    requires n > 0 && a < m * n
    ensures a / n < m
  {
    Divided(a, n);
    var q := a / n;
    if m < q { Spread(m, q, n); }
  }

  /** Going once around a ring. */
  lemma ModOnce(a: nat, n: nat)
    requires a < 2 * n
    ensures a % n == if a < n then a else a - n
  {
    if a < n { QuotientIs(0, a, n); } else { QuotientIs(1, a - n, n); }
  }

  /** Whole turns do not change the remainder. */
  lemma ModTurn(a: nat, n: nat)
    requires n > 0
    ensures (a + n) % n == a % n
  {
    Divided(a, n);
    assert (a / n + 1) * n == a / n * n + n;
    QuotientIs(a / n + 1, a % n, n);
  }

  lemma QuotientOf(a: nat, k: nat, f: nat, n: nat)
    requires a == k * n + f && f < n
    ensures a / n == k && a % n == f
  {
    QuotientIs(k, f, n);
  }

  /** a is q whole turns of n, and r. */
  predicate Turns(a: nat, q: nat, r: nat, n: nat) {
    r < n && a == q * n + r
  }

  lemma TurnsOf(a: nat, n: nat)
    requires n > 0
    ensures Turns(a, a / n, a % n, n)
  {
    Divided(a, n);
  }

  /** Counting one back. */
  lemma TurnsBefore(a: nat, q: nat, r: nat, n: nat)
    requires Turns(a, q, r, n) && a > 0
    ensures if r > 0 then r < n && Turns(a - 1, q, r - 1, n) else q > 0 && n > 0 && Turns(a - 1, q - 1, n - 1, n)
  {
    if r == 0 { assert (q - 1) * n == q * n - n; }
  }

  lemma NoTurns(q: nat, r: nat, n: nat)
    requires Turns(0, q, r, n)
    ensures q == 0 && r == 0
  {
    if q > 0 { Spread(0, q, n); }
  }
}
