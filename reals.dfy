/**
 * Facts about products and quotients of reals that the complex-number and
 * screen-mapping proofs rest on. Each is stated over plain `real`
 * parameters so that the nonlinear reasoning stays in a small context.
 *
 * Lower bounds are written as negated strict comparisons (`!(e < c)`
 * rather than `c <= e`); the two mean the same thing, and the prover
 * copes better with the first form once products are involved.
 */
module RealFacts {

  lemma PositiveProduct(p: real, q: real)
    requires p > 0.0 && q > 0.0
    ensures p * q > 0.0
  {
  }

  lemma NonNegativeProduct(p: real, q: real)
    requires !(p < 0.0) && !(q < 0.0)
    ensures !(p * q < 0.0)
  {
  }

  /** A square is never negative. */
  lemma SquareNonNegative(x: real)
    ensures !(x * x < 0.0)
  {
    if x < 0.0 {
      var y := -x;
      assert x * x == y * y;
    }
  }

  /** A number whose square is at most r*r, for r >= 0, is at least -r. */
  lemma AbsBound(x: real, r: real)
    requires !(r < 0.0) && !(r * r < x * x)
    ensures !(x < -r)
  {
    if x < -r {
      assert (-x - r) * (-x + r) == x * x - r * r;
      PositiveProduct(-x - r, -x + r);
    }
  }

  /**
   * For non-negative m and a with m*m == a, comparing a with 4 is the same
   * as comparing m with 2 (m is the square root of a).
   */
  lemma RootAtMostTwo(m: real, a: real)
    requires !(m < 0.0) && m * m == a
    ensures !(a > 4.0) <==> !(m > 2.0)
  {
    if m > 2.0 {
      PositiveProduct(m - 2.0, m + 2.0);
      assert (m - 2.0) * (m + 2.0) == m * m - 4.0;
    } else {
      NonNegativeProduct(2.0 - m, m + 2.0);
      assert (2.0 - m) * (m + 2.0) == 4.0 - m * m;
    }
  }

  /**
   * The Cauchy-Schwarz inequality in the plane, from Lagrange's identity:
   * (p*ca + q*cb)^2 <= (p^2 + q^2) * (ca^2 + cb^2).
   */
  lemma CauchySchwarz(p: real, q: real, ca: real, cb: real)
    ensures !((p * p + q * q) * (ca * ca + cb * cb) < (p * ca + q * cb) * (p * ca + q * cb))
  {
    var e := p * cb - q * ca;
    SquareNonNegative(e);
    assert (p * ca + q * cb) * (p * ca + q * cb) + e * e == (p * p + q * q) * (ca * ca + cb * cb);
  }

  /**
   * If w >= 4, 0 <= c <= w and d*d <= w*w*c, then w*w + 2*d + c >= w.
   * With w = |z|^2, c = |c|^2 and d the inner product of z*z and c, the
   * left-hand side is |z*z + c|^2: one more step does not bring the orbit
   * closer to the origin.
   */
  lemma GrowthBound(w: real, c: real, d: real)
    requires !(w < 4.0) && !(w < c) && !(c < 0.0)
    requires !(w * w * c < d * d)
    ensures !(w * w + 2.0 * d + c < w)
  {
    NonNegativeProduct(w, w - 4.0);
    var r := w * w + c - w;
    assert !(r < 0.0);
    SquareNonNegative(w);
    NonNegativeProduct(w * w, w);
    NonNegativeProduct(w * w * w, w - 4.0);
    NonNegativeProduct(w - c, w + 2.0 * w * w - c);
    assert r * r - 4.0 * (w * w * c) == w * w * w * (w - 4.0) + (w - c) * (w + 2.0 * w * w - c);
    assert !(r * r < (2.0 * d) * (2.0 * d));
    AbsBound(2.0 * d, r);
  }

  /**
   * GrowthBound with the squared magnitudes of one step named: mu = |z*z|^2
   * and s = |z*z + c|^2 = mu + 2*d + c.
   */
  lemma StepGrowth(w: real, c: real, d: real, mu: real, s: real)
    requires !(w < 4.0)
    requires !(w < c)
    requires !(c < 0.0)
    requires mu == w * w
    requires !(mu * c < d * d)
    requires s == mu + 2.0 * d + c
    ensures !(s < w)
  {
    GrowthBound(w, c, d);
  }

  /** A number in [r, -r] has a square at most r*r. */
  lemma SquareBelow(r: real, a: real)
    requires !(a < r) && !(a > -r)
    ensures !(a * a > r * r)
  {
    NonNegativeProduct(-r - a, -r + a);
    assert (-r - a) * (-r + a) == r * r - a * a;
  }

  /** For r in [-2, 0], r*r is at most -2*r. */
  lemma SquareBelowDouble(r: real)
    requires !(r < -2.0) && !(r > 0.0)
    ensures !(r * r > -2.0 * r)
  {
    NonNegativeProduct(-r, r + 2.0);
    assert (-r) * (r + 2.0) == -2.0 * r - r * r;
  }

  /**
   * For r in [-2, 0] and a in [r, -r], a*a + r stays in [r, -r] and
   * a*a is at most 4.
   */
  lemma RealStepBounded(r: real, a: real)
    requires !(r < -2.0) && !(r > 0.0) && !(a < r) && !(a > -r)
    ensures !(a * a + r < r) && !(a * a + r > -r) && !(a * a > 4.0)
  {
    SquareNonNegative(a);
    SquareBelow(r, a);
    SquareBelowDouble(r);
    var aa, rr := a * a, r * r;
    assert !(aa > rr) && !(rr > -2.0 * r) && !(aa < 0.0);
  }

  /** A fraction x/w of a positive length d, for 0 <= x < w, is in [0, d). */
  lemma FractionBelow(d: real, x: real, w: real)
    requires w > 0.0 && d > 0.0 && !(x < 0.0) && x < w
    ensures !(d * x / w < 0.0) && d * x / w < d
  {
    var f := d * x / w;
    assert f * w == d * x;
    PositiveProduct(d, w - x);
    assert d * w - d * x > 0.0;
  }

  /** The fraction x/w of a positive length d grows strictly with x. */
  lemma FractionIncreasing(d: real, x1: real, x2: real, w: real)
    requires w > 0.0 && d > 0.0 && x1 < x2
    ensures d * x1 / w < d * x2 / w
  {
    var f1, f2 := d * x1 / w, d * x2 / w;
    assert f1 * w == d * x1;
    assert f2 * w == d * x2;
    PositiveProduct(d, x2 - x1);
    assert (f2 - f1) * w == d * (x2 - x1);
    if !(f1 < f2) {
      assert !((f2 - f1) * w > 0.0) by {
        if f2 - f1 < 0.0 {
          PositiveProduct(f1 - f2, w);
        }
      }
    }
  }
}
