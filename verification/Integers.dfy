/** Single nonlinear steps over the integers. */
module Integers {
  lemma Product(a: int, b: int)
    requires a >= 0 && b >= 0
    ensures a * b >= 0
  {
  }

  lemma Squeeze(d: int, step: int, e: int)
    requires step >= 1 && d * step == e && -step < e < step
    ensures d == 0
  {
    if d >= 1 {
      Product(d - 1, step);
    } else if d <= -1 {
      Product(-d - 1, step);
    }
  }

  /** The quotient and remainder of a number are what it is made of. */
  lemma ModOf(x: int, step: int, q: int, r: int)
    requires step >= 1 && x == q * step + r && 0 <= r < step
    ensures x % step == r && x / step == q
  {
    var p := x / step;
    assert x == p * step + x % step;
    Squeeze(p - q, step, r - x % step);
  }

  lemma TimesNext(n: int, x: int)
    ensures n * x == (n - 1) * x + x
  {
  }

  lemma Distribute(a: int, b: int, x: int)
    ensures (a - b) * x == a * x - b * x && (a + b) * x == a * x + b * x
  {
  }
}
