/** Facts about products, quotients and remainders. */
module Arithmetic {

  lemma DivMod(x: nat, d: nat)
    requires d > 0
    ensures x == d * (x / d) + x % d && 0 <= x % d < d
  {
  }

  lemma Scale(k: nat, a: nat, b: nat)
    requires a <= b
    ensures k * a <= k * b
  {
  }

  lemma Spread(d: nat, a: nat, b: nat)
    requires a < b
    ensures d * a + d <= d * b && a * d + d <= b * d
  {
    Scale(d, a + 1, b);
    assert d * (a + 1) == d * a + d;
  }

  lemma DivUnique(x: nat, d: nat, q: nat, r: nat)
    requires r < d && x == d * q + r
    ensures x / d == q
  {
    var p := x / d;
    DivMod(x, d);
    if p < q { Spread(d, p, q); } else if p > q { Spread(d, q, p); }
  }

  lemma DivOf(k: nat, d: nat, r: nat)
    requires r < d
    ensures (k * d + r) / d == k
  {
    assert k * d == d * k;
    DivUnique(k * d + r, d, k, r);
  }

  lemma DivMono(x: nat, y: nat, d: nat)
    requires d > 0 && x <= y
    ensures x / d <= y / d
  {
    DivMod(x, d);
    DivMod(y, d);
    if y / d < x / d { Spread(d, y / d, x / d); }
  }

  lemma AddMultiple(x: nat, k: nat, d: nat)
    requires d > 0
    ensures (x + d * k) / d == x / d + k
  {
    DivMod(x, d);
    assert d * (x / d + k) == d * (x / d) + d * k;
    DivUnique(x + d * k, d, x / d + k, x % d);
  }
}
