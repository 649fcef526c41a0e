/** Single nonlinear steps over the reals, stated one at a time so that each is proved on its own. */
module Reals {

  lemma Quotient(a: real, n: real)
    requires n != 0.0
    ensures a / n * n == a
  {
  }

  lemma MulLe(a: real, b: real, t: real)
    requires a <= b && t >= 0.0
    ensures a * t <= b * t
  {
  }

  lemma MulNeg(q: real, t: real)
    ensures -q * t == -(q * t)
  {
  }

  lemma Distribute(k: real, a: real, b: real)
    ensures k * (a - b) == k * a - k * b
  {
  }

  lemma DistributeLeft(k: real, l: real, a: real)
    ensures (k - l) * a == k * a - l * a
  {
  }

  lemma Associate(a: real, b: real, c: real)
    ensures a * b * c == a * (b * c)
  {
  }

  /** A quotient is the only solution of its equation. */
  lemma QuotientUnique(a: real, n: real, q: real)
    requires n != 0.0 && q * n == a
    ensures a / n == q
  {
  }

  lemma PositiveFactor(k: real, d: real)
    requires d > 0.0 && k * d > 0.0
    ensures k > 0.0
  {
    if k <= 0.0 {
      MulLe(k, 0.0, d);
    }
  }

  lemma CancelFactor(a: real, b: real, k: real)
    requires k > 0.0 && a * k < b * k
    ensures a < b
  {
    if b <= a {
      MulLe(b, a, k);
    }
  }

  lemma RootBetween(k: real, d: real, a: real, b: real)
    requires a < b && k * a < d < k * b
    ensures k > 0.0 && a < d / k < b
  {
    Distribute(k, b, a);
    PositiveFactor(k, b - a);
    Quotient(d, k);
    CancelFactor(a, d / k, k);
    CancelFactor(d / k, b, k);
  }
}
