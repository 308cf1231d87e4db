/** Facts about products and truncated quotients that the solver should not rediscover. */
module Products {
  import opened Arith

  lemma Distributes(k: int, a: int, b: int)
    ensures k * (a + b) == k * a + k * b
    ensures k * (a - b) == k * a - k * b
  {
  }

  lemma Grows(k: nat, a: int, b: int)
    requires a <= b
    ensures k * a <= k * b
  {
    Distributes(k, b, a);
    SignOf(k, b - a);
  }

  lemma SignOf(k: nat, a: int)
    ensures a >= 0 ==> k * a >= 0
    ensures a <= 0 ==> k * a <= 0
  {
  }

  lemma GrowsStrictly(k: nat, a: int, b: int)
    requires k >= 1 && a < b
    ensures k * a < k * b
  {
    Grows(k, a + 1, b);
    Distributes(k, a, 1);
  }

  lemma Cancels(k: nat, a: int, b: int)
    requires k >= 1
    ensures k * a <= k * b <==> a <= b
    ensures k * a < k * b <==> a < b
  {
    if a <= b { Grows(k, a, b); } else { GrowsStrictly(k, b, a); }
    if a < b { GrowsStrictly(k, a, b); } else { Grows(k, b, a); }
  }

  lemma AbsOf(k: nat, y: int)
    ensures Abs(k * y) == k * Abs(y)
  {
    SignOf(k, y);
  }

  lemma Less(a: nat, b: nat, c: nat, d: nat)
    requires a < c && b < d
    ensures a * b < c * d
  {
    Grows(a, b, d);
    GrowsStrictly(d, a, c);
  }

  lemma Negates(k: int, y: int)
    ensures k * -y == -(k * y)
  {
  }

  lemma QuotientIsZero(a: nat, p: nat)
    requires p > 0
    ensures a / p == 0 <==> a < p
  {
  }

  /** Truncation moves toward zero by less than the divisor. */
  lemma Truncates(a: int, k: int)
    requires k >= 1
    ensures Abs(a) - k < k * Abs(DivC(a, k)) <= Abs(a)
    ensures a >= 0 ==> DivC(a, k) >= 0 && a - k < k * DivC(a, k) <= a
    ensures a <= 0 ==> DivC(a, k) <= 0 && a <= k * DivC(a, k) < a + k
  {
    var q := Abs(DivC(a, k));
    assert Abs(a) == k * q + Abs(a) % k;
    if a < 0 { Negates(k, q); }
  }

  lemma TruncationMirrors(a: int, k: int)
    requires k >= 1
    ensures DivC(-a, k) == -DivC(a, k)
  {
  }
}
