/** Products, quotients and remainders of unknown numbers, in steps the verifier can follow. */
module Arithmetic {
  function Mul(a: int, b: int): int { a * b }

  lemma MulAdds(a: int, b: int, c: int)
    ensures Mul(a, b + c) == Mul(a, b) + Mul(a, c) && Mul(b + c, a) == Mul(b, a) + Mul(c, a)
  {}

  lemma MulAssociates(a: int, b: int, c: int)
    ensures Mul(a, Mul(b, c)) == Mul(Mul(a, b), c)
  {}

  lemma MulCommutes(a: int, b: int)
    ensures Mul(a, b) == Mul(b, a)
  {}

  lemma MulGrows(a: nat, b: int)
    requires a > 0
    ensures b >= 1 ==> Mul(a, b) >= a
    ensures b <= -1 ==> Mul(a, b) <= 0 - a
    ensures b >= 0 ==> Mul(a, b) >= 0
  {
    if b >= 1 { MulAdds(a, b - 1, 1); assert a * (b - 1) >= 0; }
    if b <= -1 { MulAdds(a, b + 1, -1); assert a * (b + 1) <= 0; }
  }

  /** Quotient and remainder are what they should be. */
  lemma Splits(n: int, d: nat)
    requires d > 0
    ensures n == Mul(d, n / d) + n % d && 0 <= n % d < d && (n >= 0 ==> n / d >= 0)
  {}

  /** There is only one remainder. */
  lemma RemainderIs(n: int, d: nat, k: int, r: nat)
    requires d > 0 && n == Mul(d, k) + r && r < d
    ensures n % d == r
  {
    Splits(n, d);
    MulAdds(d, k, -(n / d));
    MulAdds(d, n / d, -(n / d));
    MulGrows(d, k - n / d);
  }

  lemma Negates(a: int, b: int)
    ensures Mul(a, -b) == -Mul(a, b)
  {}

  /** There is only one quotient. */
  lemma QuotientIs(n: int, d: nat, k: int, r: nat)
    requires d > 0 && n == Mul(d, k) + r && r < d
    ensures n / d == k
  {
    Splits(n, d);
    MulAdds(d, k, -(n / d));
    Negates(d, n / d);
    MulGrows(d, k - n / d);
  }

  lemma QuotientGrows(a: int, b: int, d: nat)
    requires d > 0 && a <= b
    ensures a / d <= b / d
  {
    Splits(a, d);
    Splits(b, d);
    MulAdds(d, a / d, -(b / d));
    Negates(d, b / d);
    MulGrows(d, a / d - b / d);
  }

  lemma OneMoreQuotient(a: int, d: nat)
    requires d > 0
    ensures (a + d) / d == a / d + 1
  {
    Splits(a, d);
    MulAdds(d, a / d, 1);
    assert Mul(d, 1) == d;
    QuotientIs(a + d, d, a / d + 1, a % d);
  }
}
