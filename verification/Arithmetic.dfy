/** Products, quotients and remainders. */
module Arithmetic {

  lemma Monotone(x: int, y: int, k: int)
    requires x <= y && k >= 0
    ensures x * k <= y * k
  {
  }

  lemma Small(d: int, m: int)
    requires m > 0 && -m < d * m < m
    ensures d == 0
  {
  }

  /** Quotient and remainder are unique. */
  lemma Euclid(a: int, b: int, m: int, r: int, s: int)
    requires m > 0 && 0 <= r < m && 0 <= s < m && a * m + r == b * m + s
    ensures a == b && r == s
  {
    assert (a - b) * m == s - r;
    Small(a - b, m);
  }

  lemma Quotient(x: int, m: int, q: int, r: int)
    requires m > 0 && 0 <= r < m && x == q * m + r
    ensures x / m == q && x % m == r
  {
    assert x == x / m * m + x % m;
    Euclid(x / m, q, m, x % m, r);
  }

  lemma QuotientBelow(x: nat, hi: nat, lo: nat)
    requires hi > 0 && lo > 0 && x < hi * lo
    ensures x / lo < hi
  {
    var q := x / lo;
    assert q * lo <= x;
    if q >= hi { Monotone(hi, q, lo); }
  }

  /** A number below hi * lo is its quotient and its remainder by lo. */
  lemma SplitNumber(x: nat, hi: nat, lo: nat)
    requires hi > 0 && lo > 0 && x < hi * lo
    ensures x == x / lo % hi * lo + x % lo && x % lo < lo
  {
    QuotientBelow(x, hi, lo);
    Keep(x / lo, hi);
  }

  lemma Keep(q: nat, hi: nat)
    requires q < hi
    ensures q % hi == q
  {
  }
}
