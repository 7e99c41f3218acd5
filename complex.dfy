/**
 * Complex arithmetic of the viewer (`complex_t` and the `complex_*`
 * functions). The C code stores both parts as `long double`; here they are
 * exact reals.
 */
module ComplexNumbers {
  import opened RealFacts

  /** A complex number a + b*i: `a` is the real part, `b` the imaginary part. */
  datatype Complex = Complex(a: real, b: real)

  const Zero := Complex(0.0, 0.0)
  const One := Complex(1.0, 0.0)
  const I := Complex(0.0, 1.0)

  /** `complex_add`. */
  function Add(x: Complex, y: Complex): Complex
  {
    Complex(x.a + y.a, x.b + y.b)
  }

  /** `complex_multiply`. */
  function Multiply(x: Complex, y: Complex): Complex
  {
    Complex(x.a * y.a - x.b * y.b, x.a * y.b + y.a * x.b)
  }

  /** `complex_sub` as its comment describes it: the difference of x and y. */
  function Sub(x: Complex, y: Complex): Complex
  {
    Complex(x.a - y.a, x.b - y.b)
  }

  /**
   * `complex_sub` as it is written: the real part is assigned twice, the
   * second time with the difference of the imaginary parts, and the
   * imaginary part is never assigned. Whatever the uninitialised field
   * happens to hold is the parameter `junk`.
   */
  function SubAsWritten(x: Complex, y: Complex, junk: real): Complex
  {
    Complex(x.b - y.b, junk)
  }

  /**
   * The square of `complex_magnitude`. The C function returns the square
   * root of this value; `IsMagnitude` relates the two.
   */
  function MagnitudeSquared(z: Complex): real
  {
    z.a * z.a + z.b * z.b
  }

  /** m is what `complex_magnitude` returns for z: the non-negative root of |z|^2. */
  predicate IsMagnitude(z: Complex, m: real)
  {
    0.0 <= m && m * m == MagnitudeSquared(z)
  }

  lemma AddCommutative(x: Complex, y: Complex)
    ensures Add(x, y) == Add(y, x)
  {
  }

  lemma AddAssociative(x: Complex, y: Complex, z: Complex)
    ensures Add(Add(x, y), z) == Add(x, Add(y, z))
  {
  }

  lemma AddZeroIdentity(x: Complex)
    ensures Add(x, Zero) == x && Add(Zero, x) == x
  {
  }

  lemma MultiplyCommutative(x: Complex, y: Complex)
    ensures Multiply(x, y) == Multiply(y, x)
  {
  }

  /** One is the unit of multiplication, Zero absorbs it, and i*i = -1. */
  lemma MultiplyUnits(x: Complex)
    ensures Multiply(x, One) == x && Multiply(One, x) == x
    ensures Multiply(x, Zero) == Zero
    ensures Multiply(I, I) == Complex(-1.0, 0.0)
  {
  }

  lemma MultiplyDistributesOverAdd(x: Complex, y: Complex, z: Complex)
    ensures Multiply(x, Add(y, z)) == Add(Multiply(x, y), Multiply(x, z))
  {
  }

  /** Subtraction undoes addition, in both orders. */
  lemma SubUndoesAdd(x: Complex, y: Complex)
    ensures Sub(Add(x, y), y) == x
    ensures Add(Sub(x, y), y) == x
    ensures Sub(x, x) == Zero
  {
  }

  /**
   * The subtraction as written does not undo an addition: (1 + 0i) + 0
   * minus 0 comes out with real part 0, whatever the imaginary part holds.
   */
  lemma SubAsWrittenDoesNotUndoAdd(junk: real)
    ensures SubAsWritten(Add(One, Zero), Zero, junk) != One
    ensures SubAsWritten(Add(One, Zero), Zero, junk).a == 0.0
  {
  }

  /** The magnitude is never negative. */
  lemma MagnitudeNonNegative(z: Complex)
    ensures 0.0 <= MagnitudeSquared(z)
  {
    SquareNonNegative(z.a);
    SquareNonNegative(z.b);
  }

  /** The magnitude of a product is the product of the magnitudes. */
  lemma MultiplyMagnitude(x: Complex, y: Complex)
    ensures MagnitudeSquared(Multiply(x, y)) == MagnitudeSquared(x) * MagnitudeSquared(y)
  {
    var p, q := x.a * y.a - x.b * y.b, x.a * y.b + y.a * x.b;
    calc {
      p * p + q * q;
      (x.a * y.a) * (x.a * y.a) + (x.b * y.b) * (x.b * y.b)
        + (x.a * y.b) * (x.a * y.b) + (y.a * x.b) * (y.a * x.b);
      (x.a * x.a + x.b * x.b) * (y.a * y.a + y.b * y.b);
    }
  }

  /** The square of the inner product u . c is at most |u|^2 |c|^2. */
  lemma InnerProductBound(u: Complex, c: Complex)
    ensures (u.a * c.a + u.b * c.b) * (u.a * c.a + u.b * c.b) <= MagnitudeSquared(u) * MagnitudeSquared(c)
  {
    CauchySchwarz(u.a, u.b, c.a, c.b);
  }

  /** |u + c|^2 = |u|^2 + 2 (u . c) + |c|^2, where u . c is the inner product. */
  lemma AddMagnitude(u: Complex, c: Complex)
    ensures MagnitudeSquared(Add(u, c))
      == MagnitudeSquared(u) + 2.0 * (u.a * c.a + u.b * c.b) + MagnitudeSquared(c)
  {
  }
}
