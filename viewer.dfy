/**
 * The body of `main` with the terminal calls taken out: a session holds
 * the window `s`, the `close` flag and the terminal's character cells,
 * draws a frame into the cells and applies one key at a time.
 */
module Viewer {
  import opened ComplexNumbers
  import opened Escape
  import opened Plane
  import opened Navigation

  /** The window `main` starts with on a terminal of `maxRow` rows and `maxCol` columns. */
  function Initial(maxRow: int, maxCol: int): Window
  {
    Window(-2.0, 1.0, -1.0, 1.0, maxCol, maxRow)
  }

  /**
   * The character a frame draws at row i, column j: 'X' for a point that
   * `is_in_set` rejects after 200 iterations, a blank otherwise.
   */
  function Pixel(s: Window, i: int, j: int): char
    requires 0 <= i < s.height && 0 <= j < s.width
  {
    if IsInSet(Orbit(Scale(s, ScreenPoint(j, i)), MaxIterations)) == 0 then 'X' else ' '
  }

  class Session {
    /** The window `s` of `main`. */
    var window: Window
    /** The `close` flag of `main`: the loop goes on while it is set. */
    var running: bool
    /** The character cells of the terminal, row by row. */
    const screen: array2<char>

    /** The grid has the size the window was set up with. */
    ghost predicate Valid()
      reads this
    {
      screen.Length0 == window.height && screen.Length1 == window.width
    }

    /** The cells hold exactly the frame for window w. */
    ghost predicate Shows(w: Window)
      reads this, screen
    {
      screen.Length0 == w.height && screen.Length1 == w.width &&
      forall i, j :: 0 <= i < screen.Length0 && 0 <= j < screen.Length1 ==> screen[i, j] == Pixel(w, i, j)
    }

    /** The set-up part of `main`, for a terminal of the given size. */
    constructor (maxRow: nat, maxCol: nat)
      ensures window == Initial(maxRow, maxCol) && running
      ensures fresh(screen) && screen.Length0 == maxRow && screen.Length1 == maxCol
      ensures Valid()
    {
      window := Initial(maxRow, maxCol);
      running := true;
      screen := new char[maxRow, maxCol]((i, j) => ' ');
    }

    /** The row and column loops of `main`: every cell gets its character. */
    method DrawFrame()
      requires Valid()
      modifies screen
      ensures Shows(window)
    {
      var i := 0;
      while i < screen.Length0
        invariant 0 <= i <= screen.Length0
        invariant forall r, col :: 0 <= r < i && 0 <= col < screen.Length1 ==> screen[r, col] == Pixel(window, r, col)
      {
        var j := 0;
        while j < screen.Length1
          invariant 0 <= j <= screen.Length1
          invariant forall r, col :: 0 <= r < i && 0 <= col < screen.Length1 ==> screen[r, col] == Pixel(window, r, col)
          invariant forall col :: 0 <= col < j ==> screen[i, col] == Pixel(window, i, col)
        {
          var p := ScreenPoint(j, i);
          var value := Scale(window, p);
          var z := EscapeIterate(value);
          screen[i, j] := if IsInSet(z) == 0 then 'X' else ' ';
          j := j + 1;
        }
        i := i + 1;
      }
    }

    /** The `switch` on the key read after a frame. */
    method HandleKey(c: char)
      requires Valid()
      modifies this
      ensures window == KeyStep(old(window), c)
      ensures running == (old(running) && c != ' ')
      ensures Valid()
    {
      match c
      case 'w' =>
        window := window.(yMin := window.yMin + PanStep);
        window := window.(yMax := window.yMax + PanStep);
      case 'a' =>
        window := window.(xMin := window.xMin + PanStep);
        window := window.(xMax := window.xMax + PanStep);
      case 's' =>
        window := window.(yMin := window.yMin - PanStep);
        window := window.(yMax := window.yMax - PanStep);
      case 'd' =>
        window := window.(xMin := window.xMin - PanStep);
        window := window.(xMax := window.xMax - PanStep);
      case 'q' =>
        window := window.(xMin := window.xMin + ZoomStep);
        window := window.(xMax := window.xMax - ZoomStep);
        window := window.(yMin := window.yMin + ZoomStep);
        window := window.(yMax := window.yMax - ZoomStep);
      case 'e' =>
        window := window.(xMin := window.xMin - ZoomStep);
        window := window.(xMax := window.xMax + ZoomStep);
        window := window.(yMin := window.yMin - ZoomStep);
        window := window.(yMax := window.yMax + ZoomStep);
      case ' ' =>
        running := false;
      case _ =>
    }

    /**
     * The `while(close)` loop over a finite list of keys: draw a frame, take
     * the next key, apply it. The loop ends after a space, or when the keys
     * run out; in the second case the last frame is the one on screen while
     * the program waits for another key.
     */
    method Run(keys: string) returns (consumed: nat)
      requires Valid() && running
      modifies this, screen
      ensures consumed <= |keys| && Valid()
      ensures window == Replay(old(window), keys[..consumed])
      ensures running <==> ' ' !in keys[..consumed]
      ensures running ==> consumed == |keys| && Shows(window)
      ensures !running ==> 0 < consumed && keys[consumed - 1] == ' ' && ' ' !in keys[..consumed - 1]
    {
      consumed := 0;
      while running && consumed < |keys|
        invariant consumed <= |keys| && Valid()
        invariant window == Replay(old(window), keys[..consumed])
        invariant running <==> ' ' !in keys[..consumed]
        invariant !running ==> 0 < consumed && keys[consumed - 1] == ' ' && ' ' !in keys[..consumed - 1]
        decreases |keys| - consumed
      {
        DrawFrame();
        HandleKey(keys[consumed]);
        ReplayOneMore(old(window), keys, consumed);
        SpaceInOneMore(keys, consumed);
        consumed := consumed + 1;
      }
      if running {
        DrawFrame();
      }
    }
  }

  /** The first n + 1 keys hold a space exactly when the first n do or key n is one. */
  lemma SpaceInOneMore(keys: string, n: nat)
    requires n < |keys|
    ensures ' ' in keys[..n + 1] <==> ' ' in keys[..n] || keys[n] == ' '
  {
    assert keys[..n + 1] == keys[..n] + [keys[n]];
  }

  /** A cell that shows the origin c = 0 stays blank. */
  lemma OriginPixelBlank(s: Window, i: int, j: int)
    requires 0 <= i < s.height && 0 <= j < s.width
    requires Scale(s, ScreenPoint(j, i)) == Zero
    ensures Pixel(s, i, j) == ' '
  {
    OriginIsInside();
  }

  /** A cell that shows a point farther than 2 from the origin is marked. */
  lemma FarPixelMarked(s: Window, i: int, j: int)
    requires 0 <= i < s.height && 0 <= j < s.width
    requires MagnitudeSquared(Scale(s, ScreenPoint(j, i))) > 4.0
    ensures Pixel(s, i, j) == 'X'
  {
    FarPointIsOutside(Scale(s, ScreenPoint(j, i)));
  }

  /** In the first frame the top-left cell shows -2 - i, which is marked. */
  lemma InitialCornerMarked(maxRow: int, maxCol: int)
    requires maxRow > 0 && maxCol > 0
    ensures Pixel(Initial(maxRow, maxCol), 0, 0) == 'X'
  {
    var s := Initial(maxRow, maxCol);
    ScaleCorners(s);
    assert MagnitudeSquared(Scale(s, ScreenPoint(0, 0))) == 5.0;
    FarPixelMarked(s, 0, 0);
  }

  /** On an 80 x 24 terminal the first frame shows -0.5 at row 12, column 40, which is blank. */
  lemma InitialCentreBlank()
    ensures Pixel(Initial(24, 80), 12, 40) == ' '
  {
    assert Scale(Initial(24, 80), ScreenPoint(40, 12)) == Complex(-0.5, 0.0);
    RealSegmentIsInside(-0.5);
  }

  /** The starting window is ordered, and keys without q keep it so. */
  lemma InitialOrderedUnlessZoomedIn(maxRow: int, maxCol: int, keys: string)
    requires 'q' !in keys
    ensures Ordered(Replay(Initial(maxRow, maxCol), keys))
  {
    ReplayKeepsOrdered(Initial(maxRow, maxCol), keys);
  }
}
