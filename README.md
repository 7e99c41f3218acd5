# Mandelbrot viewer in Dafny

A model of the terminal Mandelbrot viewer in `mandelbrot.c`. The viewer starts
with the window [-2, 1] x [-1, 1] of the complex plane, sized to the terminal.
It then loops:

- it maps every character cell to a point c of the plane (`scale`);
- it iterates z := z*z + c from z = 0, exactly 200 times (`complex_multiply`,
  `complex_add`);
- it writes an `X` where the result lies outside the disc of radius 2
  (`is_in_set`, `complex_magnitude`) and a blank everywhere else;
- it reads one key: w, a, s and d pan the window by 0.5, q and e zoom it by
  0.2 on every side, and space ends the loop.

The project has six modules:

- `RealFacts` (`reals.dfy`): small facts of real arithmetic that the other
  proofs call.
- `ComplexNumbers` (`complex.dfy`): `complex_t` and the `complex_*` functions.
- `Escape` (`escape.dfy`): `is_in_set` and the 200-step iteration.
- `Plane` (`plane.dfy`): `window_t`, `screen_point` and `scale`.
- `Navigation` (`navigation.dfy`): the key `switch` as a function on windows.
- `Viewer` (`viewer.dfy`): the body of `main` as a class `Session`. Its fields
  are the window `s`, the `close` flag (`running`) and the terminal's cells
  (an `array2<char>`). It has methods to draw one frame, to apply one key,
  and to run the loop over a finite string of keys.

All numbers are exact reals. `complex_magnitude` is modelled by its square
(`MagnitudeSquared`). The predicate `IsMagnitude(z, m)` says that m is the
non-negative square root of that square, which is what the C function returns.

## Model

| member | source | states |
|---|---|---|
| ComplexNumbers.AddCommutative | mandelbrot.c:172-178 | x + y = y + x |
| ComplexNumbers.AddAssociative | mandelbrot.c:172-178 | (x + y) + z = x + (y + z) |
| ComplexNumbers.AddZeroIdentity | mandelbrot.c:172-178 | 0 is a left and right identity of the sum |
| ComplexNumbers.MultiplyCommutative | mandelbrot.c:157-163 | x * y = y * x |
| ComplexNumbers.MultiplyUnits | mandelbrot.c:157-163 | 1 is a unit of the product, 0 absorbs it, and i * i = -1 |
| ComplexNumbers.MultiplyDistributesOverAdd | mandelbrot.c:157-178 | x * (y + z) = x * y + x * z |
| ComplexNumbers.MultiplyMagnitude | mandelbrot.c:157-163 | the squared magnitude of a product is the product of the squared magnitudes |
| ComplexNumbers.AddMagnitude | mandelbrot.c:172-178 | the squared magnitude of u + c is the magnitudes of u and c plus twice their inner product |
| ComplexNumbers.SubUndoesAdd | mandelbrot.c:180-193 | the difference the doc comment promises undoes a sum in both orders, and x - x = 0 |
| ComplexNumbers.SubAsWrittenDoesNotUndoAdd | mandelbrot.c:187-193 | the code as written maps (1 + 0) - 0 to a number with real part 0, whatever the unset imaginary part holds |
| ComplexNumbers.MagnitudeNonNegative | mandelbrot.c:201-204 | the value under the square root is never negative |
| Escape.InSetIffMagnitudeAtMostTwo | mandelbrot.c:141-148 | for the magnitude m of z, the result is 1 exactly when m <= 2 and 0 exactly when m > 2 |
| Escape.EscapeIterate | mandelbrot.c:73-79 | the loop ends with the 200th iterate of z := z*z + c from 0, with no early exit |
| Escape.StepDoesNotShrink | mandelbrot.c:78 | when the magnitude of z is at least 2 and at least that of c, one step does not make it smaller |
| Escape.EscapeIsPermanent | mandelbrot.c:77-79 | once the orbit has reached that region, every later iterate is at least as large |
| Escape.EscapedPointIsOutside | mandelbrot.c:77-81 | an orbit that within 200 steps reached a magnitude above 2 and at least that of c is reported as not in the set |
| Escape.FarPointIsOutside | mandelbrot.c:73-81 | every c of magnitude above 2 is reported as not in the set |
| Escape.OriginStaysFixed | mandelbrot.c:73-79 | for c = 0 every iterate is 0 |
| Escape.OriginIsInside | mandelbrot.c:73-81 | c = 0 is reported as in the set |
| Escape.RealStep | mandelbrot.c:78 | on the real axis one step is a := a*a + r, with imaginary part 0 |
| Escape.RealSegmentStaysBounded | mandelbrot.c:73-79 | for real c = r in [-2, 0] every iterate is real and lies in [r, -r] |
| Escape.RealSegmentIsInside | mandelbrot.c:73-81 | every real c in [-2, 0] is reported as in the set |
| Plane.InterpolateEndpoints | mandelbrot.c:216-217 | position 0 maps to the low bound and position `width` (or `height`) to the high bound |
| Plane.InterpolateInRange | mandelbrot.c:216-217 | for lo < hi, every position 0 <= x < w maps into [lo, hi) |
| Plane.InterpolateIncreasing | mandelbrot.c:216-217 | for lo < hi, x1 < x2 exactly when their images are in the same order |
| Plane.ScaleCorners | mandelbrot.c:213-219 | cell (0, 0) maps to (x_min, y_min) and cell (width, height) to (x_max, y_max) |
| Plane.ColumnInRange | mandelbrot.c:66-75 | with x_min < x_max, every drawn column gets a real part in [x_min, x_max) |
| Plane.RowInRange | mandelbrot.c:65-75 | with y_min < y_max, every drawn row gets an imaginary part in [y_min, y_max) |
| Plane.ColumnsIncreasing | mandelbrot.c:216 | with x_min < x_max, the real part grows with the column, and only then |
| Plane.RowsIncreasing | mandelbrot.c:217 | with y_min < y_max, the imaginary part grows with the row, and only then |
| Navigation.VerticalPan | mandelbrot.c:95-106 | w adds 0.5 to both y bounds and s subtracts 0.5; the height of the view and all other fields stay the same |
| Navigation.HorizontalPan | mandelbrot.c:99-110 | a adds 0.5 to both x bounds and d subtracts 0.5; the width of the view and all other fields stay the same |
| Navigation.PanInverses | mandelbrot.c:95-110 | w then s, s then w, a then d and d then a each restore the window |
| Navigation.ZoomKeepsCentre | mandelbrot.c:111-122 | q and e keep the centre of the view; q shrinks both extents by 0.4 and e grows them by 0.4 |
| Navigation.ZoomInverse | mandelbrot.c:111-122 | q then e and e then q each restore the window |
| Navigation.ZoomInOrderedIff | mandelbrot.c:111-116 | after q, a pair of bounds is in order exactly when it was more than 0.4 apart; a narrower pair ends up inverted |
| Navigation.OtherKeysLeaveWindow | mandelbrot.c:123-127 | space and every key other than w, a, s, d, q and e leave the window unchanged |
| Navigation.KeyKeepsSize | mandelbrot.c:94-128 | no key changes `width` or `height` |
| Navigation.KeyKeepsOrdered | mandelbrot.c:94-128 | every key but q keeps x_min < x_max and y_min < y_max |
| Navigation.ReplayOneMore | mandelbrot.c:62-128 | one more turn of the loop applies the next key to the window reached so far |
| Navigation.ReplayAppend | mandelbrot.c:62-128 | the keys of two runs one after the other have the effect of their concatenation |
| Navigation.ReplayKeepsSize | mandelbrot.c:62-128 | no sequence of keys changes `width` or `height` |
| Navigation.ReplayKeepsOrdered | mandelbrot.c:62-128 | a sequence of keys without q keeps an ordered window ordered |
| Viewer.Session.constructor | mandelbrot.c:42-57 | the session starts with the window [-2, 1] x [-1, 1] sized to the terminal and with the loop flag set |
| Viewer.Session.DrawFrame | mandelbrot.c:65-89 | every cell (i, j) of the grid holds `X` when the 200th iterate for its point is not in the set, and a blank otherwise |
| Viewer.Session.HandleKey | mandelbrot.c:92-128 | the window becomes the key's effect on the old window, and the loop flag is cleared exactly by a space |
| Viewer.Session.Run | mandelbrot.c:62-130 | the window is the effect of the keys read so far, the loop stops right after the first space, and if no space came the grid shows the frame for the final window |
| Viewer.OriginPixelBlank | mandelbrot.c:65-87 | a cell that shows c = 0 is blank |
| Viewer.FarPixelMarked | mandelbrot.c:65-87 | a cell that shows a point farther than 2 from the origin holds `X` |
| Viewer.InitialCornerMarked | mandelbrot.c:52-87 | in the first frame the top-left cell shows -2 - i and holds `X` |
| Viewer.InitialCentreBlank | mandelbrot.c:52-87 | on an 80 x 24 terminal the first frame shows -0.5 at row 12, column 40, which is blank |
| Viewer.InitialOrderedUnlessZoomedIn | mandelbrot.c:52-128 | the starting window is ordered, and any keys without q keep it so |

## Left out

- The ncurses calls (`initscr`, `getmaxyx`, `start_color`, `init_pair`, `move`, `addch`, `wattron`, `wattroff`, `getch`, `noecho`, `endwin`): the terminal size is a constructor parameter, drawing writes into the cell array, and the keys are a string parameter.
- The colour pair that highlights an `X`: only the character in each cell is modelled.
- Floating-point behaviour: the bounds are `float` and the complex parts `long double` in C. Rounding, overflow to infinity or NaN over 200 squarings, the inexact binary value of 0.2, and the rounding of each `float` bound when a pan or zoom step is stored back into it are not modelled. The inverse laws of the pan and zoom keys hold over the reals; in `float` they may be off by a rounding error.
- `sqrt` in `complex_magnitude`: the model compares the squared magnitude with 4, and `IsMagnitude` ties a root to that square.
- The blocking key read of the unbounded `while(close)` loop: `Viewer.Session.Run` takes a finite string of keys and stops when it runs out of keys or reads a space. `getch` returns an `int` that is stored in a `char`; the model works with `char` only.
- A zero-sized terminal: `scale` divides by the width and height. `Plane.Scale` requires both to be positive, which the drawing loops guarantee whenever they call it.
- ComplexNumbers.MagnitudeNonNegative: states only that the squared magnitude is not negative, not that it is zero only at the origin. The solver's nonlinear real arithmetic does not close that converse from the facts about products the model has, and no part of the viewer depends on it.
- Escape.FarPointIsOutside and Escape.RealSegmentIsInside: they cover the points farther than 2 from the origin and the real segment [-2, 0]; the model does not decide membership for other points.

## Findings

| source | as written | input that shows it | evidently intended | confidence | as-written member | corrected member |
|---|---|---|---|---|---|---|
| mandelbrot.c:187-193 | `complex_sub` assigns the real part twice, the second time with the difference of the imaginary parts, and never sets the imaginary part | x = 1 + 0i, y = 0: the result has real part 0 and an uninitialised imaginary part | z.a = x.a - y.a and z.b = x.b - y.b, the difference the doc comment promises | not executed | ComplexNumbers.SubAsWrittenDoesNotUndoAdd | ComplexNumbers.SubUndoesAdd |

`complex_sub` has no caller in `mandelbrot.c`, so the bug does not change any
frame. The model defines the corrected `ComplexNumbers.Sub` and keeps
`ComplexNumbers.SubAsWritten` only to exhibit the difference.
