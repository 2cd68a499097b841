/** Quotients and remainders, one fact per lemma so that no proof meets non-linear arithmetic twice. */
module Modular {

  lemma DivModUnique(a: int, c: int, q: int, r: int)
    requires 0 < c && 0 <= r < c && a == q * c + r
    ensures a / c == q && a % c == r
  {
    var d := q - a / c;
    assert a == (a / c) * c + a % c;
    assert d * c == a % c - r by {
      assert (q - a / c) * c == q * c - (a / c) * c;
    }
    if d >= 1 {
      ScaleUp(d, c);
    } else if d <= -1 {
      ScaleUp(-d, c);
    }
  }

  lemma ScaleUp(d: int, c: int)
    requires d >= 1 && 0 < c
    ensures d * c >= c
  {
  }

  lemma MulMonotone(a: int, b: int, c: int)
    requires a <= b && 0 <= c
    ensures a * c <= b * c
  {
  }

  lemma MultipleMod(q: int, c: int)
    requires 0 < c
    ensures (q * c) % c == 0 && (q * c) / c == q
  {
    DivModUnique(q * c, c, q, 0);
  }

  lemma AddMultiple(a: int, q: int, c: int)
    requires 0 < c
    ensures (a + q * c) % c == a % c && (a + q * c) / c == a / c + q
  {
    assert a + q * c == (a / c + q) * c + a % c by {
      assert a == (a / c) * c + a % c;
      assert (a / c + q) * c == (a / c) * c + q * c;
    }
    DivModUnique(a + q * c, c, a / c + q, a % c);
  }

  /** Adding one either stays in the block or enters the next one. */
  lemma NextDivMod(a: nat, c: nat)
    requires 0 < c
    ensures a % c + 1 < c ==> (a + 1) / c == a / c && (a + 1) % c == a % c + 1
    ensures a % c + 1 == c ==> (a + 1) / c == a / c + 1 && (a + 1) % c == 0
  {
    var q, r := a / c, a % c;
    assert a == q * c + r;
    if r + 1 < c {
      DivModUnique(a + 1, c, q, r + 1);
    } else {
      assert (q + 1) * c == q * c + c;
      DivModUnique(a + 1, c, q + 1, 0);
    }
  }

  lemma DivMonotone(a: nat, b: nat, m: nat)
    requires a <= b && m > 0
    ensures a / m <= b / m
  {
    assert b == (b / m) * m + b % m && a == (a / m) * m + a % m;
    assert (b / m + 1) * m == (b / m) * m + m;
    if a / m > b / m {
      MulMonotone(b / m + 1, a / m, m);
    }
  }
}
