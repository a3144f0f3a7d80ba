/**
 Integer division as the Go language defines it: the quotient is rounded toward
 zero and the remainder takes the sign of the dividend.
 */
module GoInt {

  const INT64_LIMIT: int := 0x8000_0000_0000_0000

  predicate FitsInt64(x: int) {
    -INT64_LIMIT <= x < INT64_LIMIT
  }

  function Quo(a: int, b: int): int
    requires b > 0
  {
    if a >= 0 then a / b else -((-a) / b)
  }

  function Rem(a: int, b: int): int
    requires b > 0
  {
    a - b * Quo(a, b)
  }

  function Min(a: int, b: int): int {
    if a <= b then a else b
  }

  function Max(a: int, b: int): int {
    if a >= b then a else b
  }

  function Abs(a: int): nat {
    if a >= 0 then a else -a
  }

  /** A quotient is the only number that fits between the two multiples. */
  lemma DivIsUnique(x: int, y: int, q: int)
    requires y > 0
    requires y * q <= x < y * q + y
    ensures x / y == q
  {
    var p, r := x / y, x % y;
    assert x == y * p + r;
    Successor(y, p);
    Successor(y, q);
    if p < q {
      MulMono(y, p + 1, q);
    } else if q < p {
      MulMono(y, q + 1, p);
    }
  }

  lemma Successor(y: int, k: int)
    ensures y * (k + 1) == y * k + y
  {
  }

  lemma MulMono(y: int, a: int, b: int)
    requires y >= 0 && a <= b
    ensures y * a <= y * b
  {
    assert y * b - y * a == y * (b - a);
  }

  lemma DivAddMultiple(k: int, x: int, y: int)
    requires y > 0
    ensures (k * y + x) / y == k + x / y
  {
    var p, r := x / y, x % y;
    assert y * (k + p) == k * y + y * p;
    DivIsUnique(k * y + x, y, k + p);
  }

  lemma QuoBounds(a: int, b: int)
    requires b > 0
    ensures a >= 0 ==> b * Quo(a, b) <= a < b * Quo(a, b) + b
    ensures a <= 0 ==> b * Quo(a, b) - b < a <= b * Quo(a, b)
  {
    if a < 0 {
      assert b * -((-a) / b) == -(b * ((-a) / b));
    }
  }

  lemma QuoOdd(a: int, b: int)
    requires b > 0
    ensures Quo(-a, b) == -Quo(a, b)
  {
  }

  lemma RemOdd(a: int, b: int)
    requires b > 0
    ensures Rem(-a, b) == -Rem(a, b)
  {
    QuoOdd(a, b);
    assert b * -Quo(a, b) == -(b * Quo(a, b));
  }

  /** Rounding toward zero never changes the order of two dividends. */
  lemma QuoMono(a: int, b: int, y: int)
    requires y > 0 && a <= b
    ensures Quo(a, y) <= Quo(b, y)
  {
    if a >= 0 {
      DivMono(a, b, y);
    } else if b <= 0 {
      DivMono(-b, -a, y);
    }
  }

  lemma DivMono(a: int, b: int, y: int)
    requires y > 0 && a <= b
    ensures a / y <= b / y
  {
    var p, q := a / y, b / y;
    Successor(y, q);
    if q < p {
      MulMono(y, q + 1, p);
    }
  }
}
