/** Integer arithmetic as the original computes it, and the few nonlinear facts the rate proofs
    rest on. */
module Arith {

  const NANOS := 1_000_000_000

  function Max(a: int, b: int): int {
    if a >= b then a else b
  }

  function Min(a: int, b: int): int {
    if a <= b then a else b
  }

  /** Integer division as the original rounds it: toward zero. */
  function Quotient(a: int, b: int): int
    requires b > 0
  {
    if a >= 0 then a / b else -((-a) / b)
  }

  lemma QuotientMonotone(a: int, b: int)
    requires 0 <= a <= b
    ensures Quotient(a, NANOS) <= Quotient(b, NANOS)
  {
  }

  lemma QuotientSum(a: int, b: int)
    requires a >= 0 && b >= 0
    ensures Quotient(a, NANOS) + Quotient(b, NANOS) <= Quotient(a + b, NANOS)
  {
  }

  lemma Product(a: int, b: int, x: int, y: int)
    requires 0 <= a <= b && 0 <= x <= y
    ensures 0 <= a * x <= b * y
  {
  }

  lemma TimesMonotone(a: int, b: int, d: int)
    requires d >= 0
    ensures a <= b ==> a * d <= b * d
  {
  }

  lemma QuotientAtMost(a: int, d: int, q: nat)
    requires d > 0 && a <= q * d
    ensures Quotient(a, d) <= q
  {
    TimesMonotone(q + 1, Quotient(a, d), d);
    assert (q + 1) * d == q * d + d;
    assert a >= 0 ==> Quotient(a, d) * d <= a;
    assert a < 0 ==> Quotient(a, d) <= 0;
  }

  lemma QuotientExact(q: nat, d: int)
    requires d > 0
    ensures Quotient(q * d, d) == q
  {
    Product(0, q, 0, d);
    var r := q * d / d;
    TimesMonotone(q + 1, r, d);
    TimesMonotone(r + 1, q, d);
    assert (q + 1) * d == q * d + d;
    assert (r + 1) * d == r * d + d;
  }
}
