/** Facts about products and quotients that the solver does not find alone. */
module Arith {
  function Pow2(e: nat): (r: nat)
    ensures r > 0
  {
    if e == 0 then 1 else 2 * Pow2(e - 1)
  }

  lemma MulOrder(a: int, b: int, n: int)
    requires a <= b && n >= 0
    ensures n * a <= n * b
  {
    assert n * (b - a) >= 0;
  }

  lemma DivOrder(a: int, b: int, n: int)
    requires a <= b && n > 0
    ensures a / n <= b / n
  {
    if a / n > b / n {
      MulOrder(b / n + 1, a / n, n);
      assert false;
    }
  }

  lemma DivRange(d: int, n: int)
    requires d >= 0 && n > 0
    ensures 0 <= d / n <= d
  {
    DivOrder(0, d, n);
    MulOrder(1, n, d / n);
  }

  lemma Remainder(d: nat, q: nat, r: nat)
    requires r < d
    ensures (q * d + r) % d == r
  {
    var x := q * d + r;
    var k := x / d - q;
    assert d * k == r - x % d;
    if k >= 1 {
      MulOrder(1, k, d);
      assert false;
    } else if k <= -1 {
      MulOrder(k, -1, d);
      assert false;
    }
  }
}
