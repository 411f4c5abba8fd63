// Division, remainders and powers of ten, each fact on its own so that no proof
// elsewhere has to reason about products of variables.
module Arithmetic {

  function Pow10(n: nat): (p: nat)
    ensures p > 0
  {
    if n == 0 then 1 else 10 * Pow10(n - 1)
  }

  function Div(a: int, b: nat): (q: int)
    requires b > 0
    ensures a >= 0 ==> q >= 0
  {
    a / b
  }

  function Mod(a: int, b: nat): (r: int)
    requires b > 0
    ensures 0 <= r < b && (a >= 0 ==> r <= a)
  {
    a % b
  }

  lemma Associate(a: int, b: int, c: int)
    ensures a * (b * c) == (a * b) * c
  {
  }

  lemma Distribute(a: int, b: int, c: int)
    ensures (a + b) * c == a * c + b * c
    ensures c * (a + b) == c * a + c * b
  {
  }

  lemma Negate(a: int, b: int)
    ensures a * -b == -(a * b)
  {
  }

  lemma MulPositive(a: nat, b: nat)
    requires a > 0 && b > 0
    ensures a * b > 0
  {
  }

  lemma MulNonNegative(a: nat, b: nat)
    ensures a * b >= 0
  {
  }

  lemma MulBoth(a: nat, b: nat, c: nat, d: nat)
    requires a <= c && b <= d
    ensures a * b <= c * d
  {
    assert a * b <= a * d;
    assert a * d <= c * d;
  }

  lemma MulLess(a: nat, b: nat, c: nat)
    requires a < b && c > 0
    ensures a * c < b * c
  {
  }

  lemma DivMod(x: int, d: nat)
    requires d > 0
    ensures x == Div(x, d) * d + Mod(x, d)
  {
  }

  lemma DivUnique(x: int, d: nat, q: int, r: nat)
    requires r < d && x == q * d + r
    ensures Div(x, d) == q && Mod(x, d) == r
  {
    var e := x / d - q;
    assert x == (x / d) * d + x % d;
    assert e * d == r - x % d;
  }

  // x / d <= q exactly when x is below the next multiple.
  lemma DivAtMost(x: nat, d: nat, q: nat)
    requires d > 0
    ensures x / d <= q <==> x < (q + 1) * d
  {
    var r := x / d;
    assert x == r * d + x % d;
    if r <= q {
      assert r * d <= q * d;
    } else {
      assert (q + 1) * d <= r * d;
    }
  }

  lemma MulAtMost(n: nat, d: nat, limit: nat)
    requires d > 0
    ensures n * d <= limit <==> n <= limit / d
  {
    var q := limit / d;
    assert limit == q * d + limit % d;
    if n <= q {
      assert n * d <= q * d;
    } else {
      assert (q + 1) * d <= n * d;
    }
  }

  // A remainder by p survives a remainder by a multiple m of p.
  lemma ModOfMod(x: nat, k: nat, p: nat, m: nat)
    requires p > 0 && m == k * p && m > 0
    ensures Mod(Mod(x, m), p) == Mod(x, p)
  {
    var q, r := Div(x, m), Mod(x, m);
    var s, t := Div(r, p), Mod(r, p);
    DivMod(x, m);
    DivMod(r, p);
    Associate(q, k, p);
    Distribute(q * k, s, p);
    DivUnique(x, p, q * k + s, t);
  }

  // A common factor cancels from a truncated division.
  lemma DivCancel(x: nat, a: nat, b: nat, m: nat)
    requires a > 0 && b > 0 && m == a * b
    ensures Div(x * a, m) == Div(x, b)
  {
    var q, r := Div(x, b), Mod(x, b);
    DivMod(x, b);
    Distribute(q * b, r, a);
    Associate(q, b, a);
    MulLess(r, b, a);
    DivUnique(x * a, m, q, r * a);
  }

  lemma DivFactor(x: nat, a: nat, b: nat, m: nat)
    requires b > 0 && m == a * b
    ensures Div(x * m, b) == x * a
  {
    Associate(x, a, b);
    DivUnique(x * m, b, x * a, 0);
  }

  lemma {:induction false} Pow10Sum(a: nat, b: nat, c: nat)
    requires c == a + b
    ensures Pow10(c) == Pow10(a) * Pow10(b)
  {
    if a > 0 {
      Pow10Sum(a - 1, b, c - 1);
      Associate(10, Pow10(a - 1), Pow10(b));
    }
  }
}
