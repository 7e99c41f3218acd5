/**
 * The membership test `is_in_set` and the fixed-length iteration
 * z := z*z + c, started at 0, that the render loop runs for every cell.
 */
module Escape {
  import opened RealFacts
  import opened ComplexNumbers

  /** The render loop always runs this many iterations, with no early exit. */
  const MaxIterations: nat := 200

  /**
   * `is_in_set`: 1 when the magnitude of z is at most 2, otherwise 0. The
   * comparison is made on the square of the magnitude, against 4.
   */
  function IsInSet(z: Complex): int
  {
    if MagnitudeSquared(z) > 4.0 then 0 else 1
  }

  /** One iteration: `complex_add(complex_multiply(z, z), c)`. */
  function Step(z: Complex, c: Complex): Complex
  {
    Add(Multiply(z, z), c)
  }

  /** The n-th iterate of z := z*z + c from z = 0. */
  function Orbit(c: Complex, n: nat): Complex
  {
    if n == 0 then Zero else Step(Orbit(c, n - 1), c)
  }

  /** The `k < 200` loop of the render loop. */
  method EscapeIterate(c: Complex) returns (z: Complex)
    ensures z == Orbit(c, MaxIterations)
  {
    z := Zero;
    var k := 0;
    while k < MaxIterations
      invariant 0 <= k <= MaxIterations
      invariant z == Orbit(c, k)
    {
      z := Add(Multiply(z, z), c);
      k := k + 1;
    }
  }

  /**
   * `is_in_set` answers 1 exactly when the magnitude that
   * `complex_magnitude` computes is at most 2.
   */
  lemma InSetIffMagnitudeAtMostTwo(z: Complex, m: real)
    requires IsMagnitude(z, m)
    ensures IsInSet(z) == 1 <==> m <= 2.0
    ensures IsInSet(z) == 0 <==> m > 2.0
  {
    RootAtMostTwo(m, MagnitudeSquared(z));
  }

  /**
   * Once |z|^2 is at least 4 and at least |c|^2, one more step does not
   * decrease |z|^2.
   */
  lemma StepDoesNotShrink(z: Complex, c: Complex)
    requires 4.0 <= MagnitudeSquared(z) && MagnitudeSquared(c) <= MagnitudeSquared(z)
    ensures MagnitudeSquared(z) <= MagnitudeSquared(Step(z, c))
  {
    var u := Multiply(z, z);
    MultiplyMagnitude(z, z);
    InnerProductBound(u, c);
    AddMagnitude(u, c);
    GrowthOfMagnitudes(z, c, u, Add(u, c));
  }

  /**
   * The magnitude argument of StepDoesNotShrink, for any u with |u| = |z|^2
   * and v = u + c.
   */
  lemma GrowthOfMagnitudes(z: Complex, c: Complex, u: Complex, v: Complex)
    requires 4.0 <= MagnitudeSquared(z) && MagnitudeSquared(c) <= MagnitudeSquared(z)
    requires MagnitudeSquared(u) == MagnitudeSquared(z) * MagnitudeSquared(z)
    requires (u.a * c.a + u.b * c.b) * (u.a * c.a + u.b * c.b) <= MagnitudeSquared(u) * MagnitudeSquared(c)
    requires MagnitudeSquared(v) == MagnitudeSquared(u) + 2.0 * (u.a * c.a + u.b * c.b) + MagnitudeSquared(c)
    ensures MagnitudeSquared(z) <= MagnitudeSquared(v)
  {
    MagnitudeNonNegative(c);
    StepGrowth(MagnitudeSquared(z), MagnitudeSquared(c), u.a * c.a + u.b * c.b,
               MagnitudeSquared(u), MagnitudeSquared(v));
  }

  /**
   * An orbit that has reached |z|^2 >= 4 with |z| >= |c| never comes back
   * below that magnitude.
   */
  lemma {:induction false} EscapeIsPermanent(c: Complex, n: nat, m: nat)
    requires n <= m
    requires 4.0 <= MagnitudeSquared(Orbit(c, n))
    requires MagnitudeSquared(c) <= MagnitudeSquared(Orbit(c, n))
    ensures MagnitudeSquared(Orbit(c, n)) <= MagnitudeSquared(Orbit(c, m))
  {
    if m > n {
      EscapeIsPermanent(c, n, m - 1);
      StepDoesNotShrink(Orbit(c, m - 1), c);
    }
  }

  /**
   * A point whose orbit has left the disc of radius 2, at or beyond the
   * size of c, within the 200 iterations is reported as not in the set.
   */
  lemma EscapedPointIsOutside(c: Complex, n: nat)
    requires n <= MaxIterations
    requires MagnitudeSquared(Orbit(c, n)) > 4.0
    requires MagnitudeSquared(c) <= MagnitudeSquared(Orbit(c, n))
    ensures IsInSet(Orbit(c, MaxIterations)) == 0
  {
    EscapeIsPermanent(c, n, MaxIterations);
  }

  /** Every point farther than 2 from the origin is reported as not in the set. */
  lemma FarPointIsOutside(c: Complex)
    requires MagnitudeSquared(c) > 4.0
    ensures IsInSet(Orbit(c, MaxIterations)) == 0
  {
    assert Orbit(c, 1) == c;
    EscapedPointIsOutside(c, 1);
  }

  /** Starting from c = 0 every iterate is 0. */
  lemma {:induction false} OriginStaysFixed(n: nat)
    ensures Orbit(Zero, n) == Zero
  {
    if n > 0 {
      OriginStaysFixed(n - 1);
    }
  }

  /** The origin is reported as in the set. */
  lemma OriginIsInside()
    ensures IsInSet(Orbit(Zero, MaxIterations)) == 1
  {
    OriginStaysFixed(MaxIterations);
  }

  /**
   * For a real c = r in [-2, 0], every iterate is real and lies in [r, -r].
   */
  lemma {:induction false} RealSegmentStaysBounded(r: real, n: nat)
    requires -2.0 <= r <= 0.0
    ensures Orbit(Complex(r, 0.0), n).b == 0.0
    ensures r <= Orbit(Complex(r, 0.0), n).a <= -r
  {
    if n > 0 {
      RealSegmentStaysBounded(r, n - 1);
      var a := Orbit(Complex(r, 0.0), n - 1).a;
      assert Orbit(Complex(r, 0.0), n - 1) == Complex(a, 0.0);
      RealStepBounded(r, a);
      RealStep(a, r);
    }
  }

  /** On the real axis the step is a := a*a + r. */
  lemma RealStep(a: real, r: real)
    ensures Step(Complex(a, 0.0), Complex(r, 0.0)) == Complex(a * a + r, 0.0)
  {
  }

  /** Every real c in [-2, 0] is reported as in the set. */
  lemma RealSegmentIsInside(r: real)
    requires -2.0 <= r <= 0.0
    ensures IsInSet(Orbit(Complex(r, 0.0), MaxIterations)) == 1
  {
    RealSegmentStaysBounded(r, MaxIterations);
    RealStepBounded(r, Orbit(Complex(r, 0.0), MaxIterations).a);
  }
}
