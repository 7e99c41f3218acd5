/**
 * The visible part of the complex plane (`window_t`), a character cell of
 * the terminal (`screen_point`) and `scale`, which maps a cell to the
 * point of the plane drawn there.
 */
module Plane {
  import opened RealFacts
  import opened ComplexNumbers

  /**
   * `window_t`: the bounds of the visible rectangle of the plane and the
   * size of the terminal in cells. The C bounds are `float`s; here they
   * are reals.
   */
  datatype Window = Window(xMin: real, xMax: real, yMin: real, yMax: real, width: int, height: int)

  /** `screen_point`: a column `x` and a row `y` of the terminal. */
  datatype ScreenPoint = ScreenPoint(x: int, y: int)

  /** The point x/w of the way from lo to hi: lo + (hi - lo) * x / w. */
  function Interpolate(lo: real, hi: real, x: int, w: int): real
    requires w > 0
  {
    lo + (hi - lo) * (x as real) / (w as real)
  }

  /** `scale`: column x is interpolated between the x bounds, row y between the y bounds. */
  function Scale(s: Window, p: ScreenPoint): Complex
    requires s.width > 0 && s.height > 0
  {
    Complex(Interpolate(s.xMin, s.xMax, p.x, s.width), Interpolate(s.yMin, s.yMax, p.y, s.height))
  }

  /** Position 0 maps to lo and position w to hi. */
  lemma InterpolateEndpoints(lo: real, hi: real, w: int)
    requires w > 0
    ensures Interpolate(lo, hi, 0, w) == lo
    ensures Interpolate(lo, hi, w, w) == hi
  {
    assert (hi - lo) * (w as real) / (w as real) == hi - lo;
  }

  /** Every position 0 <= x < w lands in [lo, hi). */
  lemma InterpolateInRange(lo: real, hi: real, x: int, w: int)
    requires w > 0 && lo < hi && 0 <= x < w
    ensures lo <= Interpolate(lo, hi, x, w) < hi
  {
    FractionBelow(hi - lo, x as real, w as real);
  }

  /** For lo < hi the interpolation is strictly increasing in the position. */
  lemma InterpolateIncreasing(lo: real, hi: real, x1: int, x2: int, w: int)
    requires w > 0 && lo < hi
    ensures x1 < x2 <==> Interpolate(lo, hi, x1, w) < Interpolate(lo, hi, x2, w)
  {
    if x1 < x2 {
      FractionIncreasing(hi - lo, x1 as real, x2 as real, w as real);
    } else if x2 < x1 {
      FractionIncreasing(hi - lo, x2 as real, x1 as real, w as real);
    }
  }

  /**
   * The top-left corner (column 0, row 0) maps to (x_min, y_min), and
   * column `width`, row `height` would map to (x_max, y_max).
   */
  lemma ScaleCorners(s: Window)
    requires s.width > 0 && s.height > 0
    ensures Scale(s, ScreenPoint(0, 0)) == Complex(s.xMin, s.yMin)
    ensures Scale(s, ScreenPoint(s.width, s.height)) == Complex(s.xMax, s.yMax)
  {
    InterpolateEndpoints(s.xMin, s.xMax, s.width);
    InterpolateEndpoints(s.yMin, s.yMax, s.height);
  }

  /** Every drawn column has its real part in [x_min, x_max). */
  lemma ColumnInRange(s: Window, p: ScreenPoint)
    requires s.width > 0 && s.height > 0
    requires s.xMin < s.xMax && 0 <= p.x < s.width
    ensures s.xMin <= Scale(s, p).a < s.xMax
  {
    InterpolateInRange(s.xMin, s.xMax, p.x, s.width);
  }

  /** Every drawn row has its imaginary part in [y_min, y_max). */
  lemma RowInRange(s: Window, p: ScreenPoint)
    requires s.width > 0 && s.height > 0
    requires s.yMin < s.yMax && 0 <= p.y < s.height
    ensures s.yMin <= Scale(s, p).b < s.yMax
  {
    InterpolateInRange(s.yMin, s.yMax, p.y, s.height);
  }

  /** The real part grows strictly from column to column, and only then. */
  lemma ColumnsIncreasing(s: Window, p: ScreenPoint, q: ScreenPoint)
    requires s.width > 0 && s.height > 0 && s.xMin < s.xMax
    ensures p.x < q.x <==> Scale(s, p).a < Scale(s, q).a
  {
    InterpolateIncreasing(s.xMin, s.xMax, p.x, q.x, s.width);
  }

  /** The imaginary part grows strictly from row to row, and only then. */
  lemma RowsIncreasing(s: Window, p: ScreenPoint, q: ScreenPoint)
    requires s.width > 0 && s.height > 0 && s.yMin < s.yMax
    ensures p.y < q.y <==> Scale(s, p).b < Scale(s, q).b
  {
    InterpolateIncreasing(s.yMin, s.yMax, p.y, q.y, s.height);
  }
}
