/** Facts about products and quotients, each small enough to be proved on its own. */
module Arith {

  lemma Distribute(p: int, q: int, d: int)
    ensures (p - q) * d == p * d - q * d
    ensures (p + q) * d == p * d + q * d
  {
  }

  lemma ProductSign(a: int, b: int)
    requires a >= 0 && b >= 0
    ensures a * b >= 0
  {
  }

  lemma ProductGrows(a: int, b: int, c: int)
    requires a <= b && c >= 0
    ensures a * c <= b * c
  {
    ProductSign(b - a, c);
    Distribute(b, a, c);
  }

  /** A gap of k whole units between two multiples of d. */
  lemma Gap(p: int, q: int, k: int, d: int)
    requires p >= q + k && d >= 0
    ensures p * d >= q * d + k * d
  {
    ProductGrows(q + k, p, d);
    Distribute(q, k, d);
  }

  lemma Quotient(a: int, d: int)
    requires d > 0
    ensures (a / d) * d <= a < (a / d) * d + d
    ensures a % d == a - (a / d) * d
    ensures a >= 0 ==> a / d >= 0
  {
  }

  /** A quotient is the only multiple that leaves a remainder below the divisor. */
  lemma QuotientIsUnique(a: int, d: int, q: int)
    requires d > 0 && q * d <= a < q * d + d
    ensures a / d == q
  {
    Quotient(a, d);
    if q > a / d { Gap(q, a / d, 1, d); }
    if q < a / d { Gap(a / d, q, 1, d); }
  }

  function Pow2(n: nat): nat { if n == 0 then 1 else 2 * Pow2(n - 1) }

  lemma {:induction false} Pow2Grows(m: nat, n: nat)
    requires m <= n
    ensures 1 <= Pow2(m) <= Pow2(n)
  {
    if m < n { Pow2Grows(m, n - 1); } else if m > 0 { Pow2Grows(m - 1, n - 1); }
  }
}
