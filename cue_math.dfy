/**
 * The arithmetic both timelines share: turning a pointer X coordinate into a
 * normalized cue, and placing a cue's marker rectangle on the track between
 * the left and right margins.
 */
module CueMath {
  import opened Rounding
  import opened Geometry

  /**
   * CalculateCue exactly as the source computes it in double arithmetic:
   * (X - left margin) / (width - both margins), rounded to two digits, clamped
   * to [0, 1]. When the track between the margins has zero width and X is on
   * the left margin the quotient is 0/0, and NaN passes through Round and Clamp.
   */
  function CalculateCueAsWritten(x: real, marginLeft: real, marginRight: real, width: real): (r: Double)
    ensures r.NaN? <==> width - marginLeft - marginRight == 0.0 && x == marginLeft
    ensures !r.NaN? ==> r.Finite? && 0.0 <= r.value <= 1.0
  {
    ClampDouble(RoundDouble(Divide(x - marginLeft, width - marginLeft - marginRight)), 0.0, 1.0)
  }

  /** A 40-pixel timeline with the default 20-pixel margins, pressed at X = 20, gets a NaN cue. */
  lemma ZeroTrackWidthYieldsNaN()
    ensures CalculateCueAsWritten(20.0, 20.0, 20.0, 40.0).NaN?
  {
  }

  /**
   * CalculateCue with the zero-width track repaired: every pointer maps into
   * [0, 1], X on or left of the left margin mapping to 0. Everywhere else it is
   * the computation as written.
   */
  function CalculateCue(x: real, marginLeft: real, marginRight: real, width: real): (r: real)
    ensures 0.0 <= r <= 1.0
  {
    var track := width - marginLeft - marginRight;
    if track == 0.0 then (if x > marginLeft then 1.0 else 0.0)
    else Clamp(RoundTwoDigits((x - marginLeft) / track), 0.0, 1.0)
  }

  /** The repaired CalculateCue differs from the one as written only where that one yields NaN. */
  lemma CalculateCueMatchesAsWritten(x: real, marginLeft: real, marginRight: real, width: real)
    ensures !CalculateCueAsWritten(x, marginLeft, marginRight, width).NaN? ==>
      CalculateCueAsWritten(x, marginLeft, marginRight, width) == Finite(CalculateCue(x, marginLeft, marginRight, width))
    ensures CalculateCueAsWritten(x, marginLeft, marginRight, width).NaN? ==> CalculateCue(x, marginLeft, marginRight, width) == 0.0
  {
  }

  /** Every cue CalculateCue produces is a whole number of hundredths. */
  lemma CalculateCueIsHundredths(x: real, marginLeft: real, marginRight: real, width: real)
    ensures IsHundredths(CalculateCue(x, marginLeft, marginRight, width))
  {
    var track := width - marginLeft - marginRight;
    assert IsHundredths(0.0) && IsHundredths(1.0);
    if track != 0.0 {
      var q := (x - marginLeft) / track;
      if -RoundLimit < q < RoundLimit {
        RoundTwoDigitsPrecision(q);
      }
    }
  }

  /** On a track of positive width, a pointer further right never gets a smaller cue. */
  lemma CalculateCueMonotone(x: real, y: real, marginLeft: real, marginRight: real, width: real)
    requires width - marginLeft - marginRight > 0.0 && x <= y
    ensures CalculateCue(x, marginLeft, marginRight, width) <= CalculateCue(y, marginLeft, marginRight, width)
  {
    var track := width - marginLeft - marginRight;
    QuotientMonotone(x - marginLeft, y - marginLeft, track);
    RoundTwoDigitsMonotone((x - marginLeft) / track, (y - marginLeft) / track);
  }

  lemma QuotientMonotone(a: real, b: real, d: real)
    requires d > 0.0 && a <= b
    ensures a / d <= b / d
  {
  }

  /**
   * Worked values on 220 pixels with 20-pixel margins (a 180-pixel track): the
   * margins map to 0 and 1, X = 110 to one half, X = 120 to 100/180 rounded to
   * 0.56, and pointers beyond the margins are clamped.
   */
  lemma CalculateCueExamples()
    ensures CalculateCue(20.0, 20.0, 20.0, 220.0) == 0.0
    ensures CalculateCue(110.0, 20.0, 20.0, 220.0) == 0.5
    ensures CalculateCue(120.0, 20.0, 20.0, 220.0) == 0.56
    ensures CalculateCue(220.0, 20.0, 20.0, 220.0) == 1.0
    ensures CalculateCue(5.0, 20.0, 20.0, 220.0) == 0.0
    ensures CalculateCue(250.0, 20.0, 20.0, 220.0) == 1.0
    ensures RoundTwoDigits(0.4567) == 0.46
  {
    RoundTwoDigitsOfHundredths(0.5);
    RoundTwoDigitsOfHundredths(1.0);
    RoundTwoDigitsOfHundredths(0.0);
    assert (45.67).Floor == 45;
    assert (100.0 / 180.0) * 100.0 == 10000.0 / 180.0;
    assert (10000.0 / 180.0).Floor == 55;
  }

  /** The X coordinate of a cue's position on the track. */
  function CueColumn(cue: real, width: real, marginLeft: real, marginRight: real): real
  {
    marginLeft + cue * (width - marginLeft - marginRight)
  }

  /** The marker of a cue: `size` wide, centred on the cue's column, from `top` down to the bottom edge. */
  function CueRect(cue: real, width: real, height: real, marginLeft: real, marginRight: real, size: real, top: real): (r: Rect)
    ensures r.x + size / 2.0 == CueColumn(cue, width, marginLeft, marginRight)
    ensures r.y == top && r.width == size && r.y + r.height == height
  {
    Rect((width - marginLeft - marginRight) * cue - size / 2.0 + marginLeft, top, size, height - top)
  }

  /**
   * The centre of a cue's marker maps back to that cue: a press in the middle of
   * the marker recomputes exactly the cue it shows.
   */
  lemma CueRectCentreMapsBack(cue: real, width: real, height: real, marginLeft: real, marginRight: real, size: real, top: real)
    requires width - marginLeft - marginRight > 0.0
    requires 0.0 <= cue <= 1.0 && IsHundredths(cue)
    ensures var r := CueRect(cue, width, height, marginLeft, marginRight, size, top);
      CalculateCue(r.x + size / 2.0, marginLeft, marginRight, width) == cue
  {
    var track := width - marginLeft - marginRight;
    var r := CueRect(cue, width, height, marginLeft, marginRight, size, top);
    assert r.x + size / 2.0 - marginLeft == cue * track;
    CancelTrack(cue, track);
    RoundTwoDigitsOfHundredths(cue);
    assert CalculateCue(r.x + size / 2.0, marginLeft, marginRight, width) == Clamp(RoundTwoDigits(cue), 0.0, 1.0);
  }

  lemma CancelTrack(cue: real, track: real)
    requires track != 0.0
    ensures (cue * track) / track == cue
  {
  }

  /** Markers appear left to right in cue order when the track has non-negative width. */
  lemma CueRectsFollowCueOrder(c1: real, c2: real, width: real, height: real, marginLeft: real, marginRight: real, size: real, top: real)
    requires width - marginLeft - marginRight >= 0.0 && c1 <= c2
    ensures CueRect(c1, width, height, marginLeft, marginRight, size, top).x <= CueRect(c2, width, height, marginLeft, marginRight, size, top).x
  {
    var track := width - marginLeft - marginRight;
    ScaleMonotone(c1, c2, track);
  }

  lemma ScaleMonotone(a: real, b: real, k: real)
    requires k >= 0.0 && a <= b
    ensures k * a <= k * b
  {
  }
}
