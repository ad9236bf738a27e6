/** Facts about products and quotients that the solver needs to be told. */
module Arithmetic {

  function Max(a: int, b: int): int {
    if a < b then b else a
  }

  function Min(a: int, b: int): int {
    if a < b then a else b
  }

  lemma Product(a: int, b: int)
    requires a >= 0 && b >= 0
    ensures a * b >= 0
  {}

  /** Multiples are ordered like their factors. */
  lemma Multiples(a: int, b: int, w: int)
    requires w > 0
    ensures a < b <==> a * w < b * w
    ensures a < b ==> a * w + w <= b * w
  {
    if a < b {
      Product(b - a - 1, w);
      assert (b - a - 1) * w == b * w - a * w - w;
    } else {
      Product(a - b, w);
      assert (a - b) * w == a * w - b * w;
    }
  }

  lemma Quotient(a: int, b: int, q: int, r: int)
    requires b > 0 && a == q * b + r && 0 <= r < b
    ensures a / b == q && a % b == r
  {
    assert a == (a / b) * b + a % b;
    Multiples(a / b, q, b);
    Multiples(q, a / b, b);
  }

  lemma DivSmall(a: int, b: int)
    requires 0 <= a < b
    ensures a / b == 0 && a % b == a
  {
    Quotient(a, b, 0, a);
  }

  lemma DivStep(a: int, b: int)
    requires 0 < b <= a
    ensures a / b == (a - b) / b + 1 && a % b == (a - b) % b
  {
    var q, r := (a - b) / b, (a - b) % b;
    assert a == (q + 1) * b + r;
    Quotient(a, b, q + 1, r);
  }

  lemma SumAligned(a: int, b: int, w: int)
    requires w > 0 && a % w == 0 && b % w == 0
    ensures (a + b) % w == 0
  {
    assert a + b == (a / w + b / w) * w;
    Quotient(a + b, w, a / w + b / w, 0);
  }
}
