/**
 * The keystroke `switch` of the main loop as a function on windows: w/s
 * move the view up/down and a/d move it sideways by 0.5, q zooms in and e
 * zooms out by 0.2 on every side. Space only stops the loop, and every
 * other key does nothing; neither changes the window.
 */
module Navigation {
  import opened Plane

  /** How far w, a, s and d move a pair of bounds. */
  const PanStep: real := 0.5

  /** How far q and e move each of the four bounds. */
  const ZoomStep: real := 0.2

  /** The effect of one key on the window. */
  function KeyStep(s: Window, c: char): Window
  {
    match c
    case 'w' => s.(yMin := s.yMin + PanStep, yMax := s.yMax + PanStep)
    case 'a' => s.(xMin := s.xMin + PanStep, xMax := s.xMax + PanStep)
    case 's' => s.(yMin := s.yMin - PanStep, yMax := s.yMax - PanStep)
    case 'd' => s.(xMin := s.xMin - PanStep, xMax := s.xMax - PanStep)
    case 'q' => s.(xMin := s.xMin + ZoomStep, xMax := s.xMax - ZoomStep,
                   yMin := s.yMin + ZoomStep, yMax := s.yMax - ZoomStep)
    case 'e' => s.(xMin := s.xMin - ZoomStep, xMax := s.xMax + ZoomStep,
                   yMin := s.yMin - ZoomStep, yMax := s.yMax + ZoomStep)
    case _ => s
  }

  /** The keys the `switch` acts on with a change of the window. */
  const MovingKeys: string := "wasdqe"

  /** Both bound pairs are in increasing order. */
  predicate Ordered(s: Window)
  {
    s.xMin < s.xMax && s.yMin < s.yMax
  }

  /** The window after each key of `keys` in turn. */
  function Replay(s: Window, keys: string): Window
  {
    if |keys| == 0 then s else KeyStep(Replay(s, keys[..|keys| - 1]), keys[|keys| - 1])
  }

  /**
   * w and s shift the y bounds by +0.5 and -0.5; the height of the view and
   * everything else stay as they were.
   */
  lemma VerticalPan(s: Window)
    ensures KeyStep(s, 'w').yMin == s.yMin + PanStep && KeyStep(s, 's').yMin == s.yMin - PanStep
    ensures KeyStep(s, 'w').yMax - KeyStep(s, 'w').yMin == s.yMax - s.yMin
    ensures KeyStep(s, 's').yMax - KeyStep(s, 's').yMin == s.yMax - s.yMin
    ensures KeyStep(s, 'w').(yMin := s.yMin, yMax := s.yMax) == s
    ensures KeyStep(s, 's').(yMin := s.yMin, yMax := s.yMax) == s
  {
  }

  /**
   * a and d shift the x bounds by +0.5 and -0.5; the width of the view and
   * everything else stay as they were.
   */
  lemma HorizontalPan(s: Window)
    ensures KeyStep(s, 'a').xMin == s.xMin + PanStep && KeyStep(s, 'd').xMin == s.xMin - PanStep
    ensures KeyStep(s, 'a').xMax - KeyStep(s, 'a').xMin == s.xMax - s.xMin
    ensures KeyStep(s, 'd').xMax - KeyStep(s, 'd').xMin == s.xMax - s.xMin
    ensures KeyStep(s, 'a').(xMin := s.xMin, xMax := s.xMax) == s
    ensures KeyStep(s, 'd').(xMin := s.xMin, xMax := s.xMax) == s
  {
  }

  /** w and s undo each other, and so do a and d. */
  lemma PanInverses(s: Window)
    ensures KeyStep(KeyStep(s, 'w'), 's') == s && KeyStep(KeyStep(s, 's'), 'w') == s
    ensures KeyStep(KeyStep(s, 'a'), 'd') == s && KeyStep(KeyStep(s, 'd'), 'a') == s
  {
  }

  /**
   * q and e keep the centre of the view where it is and shrink or grow
   * both extents by 0.4.
   */
  lemma ZoomKeepsCentre(s: Window, c: char)
    requires c == 'q' || c == 'e'
    ensures KeyStep(s, c).xMin + KeyStep(s, c).xMax == s.xMin + s.xMax
    ensures KeyStep(s, c).yMin + KeyStep(s, c).yMax == s.yMin + s.yMax
    ensures c == 'q' ==> KeyStep(s, c).xMax - KeyStep(s, c).xMin == s.xMax - s.xMin - 2.0 * ZoomStep
    ensures c == 'q' ==> KeyStep(s, c).yMax - KeyStep(s, c).yMin == s.yMax - s.yMin - 2.0 * ZoomStep
    ensures c == 'e' ==> KeyStep(s, c).xMax - KeyStep(s, c).xMin == s.xMax - s.xMin + 2.0 * ZoomStep
    ensures c == 'e' ==> KeyStep(s, c).yMax - KeyStep(s, c).yMin == s.yMax - s.yMin + 2.0 * ZoomStep
    ensures KeyStep(s, c).width == s.width && KeyStep(s, c).height == s.height
  {
  }

  /** q and e undo each other. */
  lemma ZoomInverse(s: Window)
    ensures KeyStep(KeyStep(s, 'q'), 'e') == s && KeyStep(KeyStep(s, 'e'), 'q') == s
  {
  }

  /**
   * q has no guard: it keeps a pair of bounds in order exactly when that
   * pair is more than 0.4 apart, and turns a narrower view inside out.
   */
  lemma ZoomInOrderedIff(s: Window)
    ensures KeyStep(s, 'q').xMin < KeyStep(s, 'q').xMax <==> s.xMax - s.xMin > 2.0 * ZoomStep
    ensures KeyStep(s, 'q').yMin < KeyStep(s, 'q').yMax <==> s.yMax - s.yMin > 2.0 * ZoomStep
    ensures s.xMax - s.xMin < 2.0 * ZoomStep ==> KeyStep(s, 'q').xMax < KeyStep(s, 'q').xMin
    ensures s.yMax - s.yMin < 2.0 * ZoomStep ==> KeyStep(s, 'q').yMax < KeyStep(s, 'q').yMin
  {
  }

  /** Space and every key other than w, a, s, d, q and e leave the window unchanged. */
  lemma OtherKeysLeaveWindow(s: Window, c: char)
    requires c !in MovingKeys
    ensures KeyStep(s, c) == s
  {
  }

  /** No key changes the size of the terminal grid. */
  lemma KeyKeepsSize(s: Window, c: char)
    ensures KeyStep(s, c).width == s.width && KeyStep(s, c).height == s.height
  {
  }

  /** Every key but q keeps both bound pairs in order. */
  lemma KeyKeepsOrdered(s: Window, c: char)
    requires Ordered(s) && c != 'q'
    ensures Ordered(KeyStep(s, c))
  {
  }

  /** Replaying one more key applies that key to the window replayed so far. */
  lemma ReplayOneMore(s: Window, keys: string, n: nat)
    requires n < |keys|
    ensures Replay(s, keys[..n + 1]) == KeyStep(Replay(s, keys[..n]), keys[n])
  {
    assert keys[..n + 1][..n] == keys[..n];
  }

  /** Replaying two key sequences one after the other is replaying their concatenation. */
  lemma {:induction false} ReplayAppend(s: Window, keys: string, more: string)
    ensures Replay(s, keys + more) == Replay(Replay(s, keys), more)
  {
    if |more| > 0 {
      var last := |more| - 1;
      assert (keys + more)[..|keys + more| - 1] == keys + more[..last];
      ReplayAppend(s, keys, more[..last]);
    } else {
      assert keys + more == keys;
    }
  }

  /** No sequence of keys changes the size of the terminal grid. */
  lemma {:induction false} ReplayKeepsSize(s: Window, keys: string)
    ensures Replay(s, keys).width == s.width && Replay(s, keys).height == s.height
  {
    if |keys| > 0 {
      ReplayKeepsSize(s, keys[..|keys| - 1]);
      KeyKeepsSize(Replay(s, keys[..|keys| - 1]), keys[|keys| - 1]);
    }
  }

  /** A sequence of keys without q keeps an ordered window ordered. */
  lemma {:induction false} ReplayKeepsOrdered(s: Window, keys: string)
    requires Ordered(s) && 'q' !in keys
    ensures Ordered(Replay(s, keys))
  {
    if |keys| > 0 {
      var prefix := keys[..|keys| - 1];
      assert forall k :: k in prefix ==> k in keys;
      ReplayKeepsOrdered(s, prefix);
      KeyKeepsOrdered(Replay(s, prefix), keys[|keys| - 1]);
    }
  }
}
