/**
 * The demo's timeline widget: an animation view model drawn over a
 * background band between two grips, with a drag state machine that moves
 * cues, moves the whole widget on its canvas, or resizes it from either
 * grip. The widget's Canvas.Left and Width are the integer fields left and
 * width (every move rounds them to whole units); its Bounds are the two
 * fields boundsWidth and boundsHeight, changed by SetBounds.
 */
module DemoTimeline {
  import opened Geometry
  import opened CueList
  import opened Rounding
  import opened AnimationViewModels

  /** What lies under a point, in the order the hit test tries them. */
  datatype TimelineHitTestResult = None | Cue | LeftGrip | RightGrip | Background

  /** SetCursor: the cursor shown for a hit region and the current key modifiers. */
  function CursorFor(hit: TimelineHitTestResult, controlOnly: bool): (c: Cursor)
    ensures c == Default <==> hit == None
    ensures c == SizeWestEast <==> hit == Cue
    ensures c == Cross <==> hit == Background && controlOnly
    ensures c == Hand <==> hit == LeftGrip || hit == RightGrip || (hit == Background && !controlOnly)
  {
    match hit
    case None => Default
    case Cue => SizeWestEast
    case Background => if controlOnly then Cross else Hand
    case LeftGrip => Hand
    case RightGrip => Hand
  }

  /**
   * MoveBackground: the left edge follows the pointer, rounded to a whole
   * unit, unless that would put it left of the canvas.
   */
  function BackgroundMove(left: int, deltaX: real): (r: int)
    ensures r == left || (0 <= r && left as real + deltaX - 0.5 <= r as real <= left as real + deltaX + 0.5)
    ensures 0 <= left ==> 0 <= r
  {
    var moved := RoundHalfEven(left as real + deltaX);
    if moved >= 0 then moved else left
  }

  /** A whole-unit delta moves the left edge exactly, as long as it stays on the canvas. */
  lemma BackgroundMoveWholeDelta(left: int, n: int)
    ensures 0 <= left + n ==> BackgroundMove(left, n as real) == left + n
    ensures left + n < 0 ==> BackgroundMove(left, n as real) == left
  {
    RoundHalfEvenOfInteger(left + n);
  }

  /** MoveLeftGrip as the widget writes it: left and width are rounded independently. */
  function LeftGripMoveAsWritten(left: int, width: int, deltaX: real): (r: (int, int))
    ensures r == (left, width) || 0 <= r.0
  {
    var moved := RoundHalfEven(left as real + deltaX);
    if moved >= 0 then (moved, RoundHalfEven(width as real - deltaX)) else (left, width)
  }

  /**
   * Rounding both terms of a half-unit delta moves the right edge: from
   * left 1 and width 2, a delta of 0.5 gives left 2 and width 2.
   */
  lemma LeftGripAsWrittenMovesRightEdge()
    ensures LeftGripMoveAsWritten(1, 2, 0.5) == (2, 2)
    ensures LeftGripMoveAsWritten(1, 2, 0.5).0 + LeftGripMoveAsWritten(1, 2, 0.5).1 != 1 + 2
  {
    assert (1.5).Floor == 1;
  }

  /**
   * MoveLeftGrip, corrected: the left edge follows the pointer, rounded, and
   * the width shrinks by exactly what the left edge moved, so the right edge
   * stays where it was.
   */
  function LeftGripMove(left: int, width: int, deltaX: real): (r: (int, int))
    ensures r.0 + r.1 == left + width
    ensures r == (left, width) || (0 <= r.0 && left as real + deltaX - 0.5 <= r.0 as real <= left as real + deltaX + 0.5)
    ensures 0 <= left ==> 0 <= r.0
  {
    var moved := RoundHalfEven(left as real + deltaX);
    if moved >= 0 then (moved, width - (moved - left)) else (left, width)
  }

  /** On whole-unit deltas the corrected grip move and the written one agree. */
  lemma LeftGripMoveMatchesAsWritten(left: int, width: int, n: int)
    ensures LeftGripMove(left, width, n as real) == LeftGripMoveAsWritten(left, width, n as real)
  {
    RoundHalfEvenOfInteger(left + n);
    RoundHalfEvenOfInteger(width - n);
  }

  /** MoveRightGrip: the width follows the pointer, rounded; the left edge stays. */
  function RightGripMove(width: int, deltaX: real): (r: int)
    ensures width as real + deltaX - 0.5 <= r as real <= width as real + deltaX + 0.5
  {
    RoundHalfEven(width as real + deltaX)
  }

  lemma RightGripMoveWholeDelta(width: int, n: int)
    ensures RightGripMove(width, n as real) == width + n
  {
    RoundHalfEvenOfInteger(width + n);
  }

  class Timeline {
    const animation: AnimationViewModel
    var backgroundRect: Rect
    var leftGripRect: Rect
    var rightGripRect: Rect
    var drag: bool
    var dragStart: Point
    var dragResult: TimelineHitTestResult
    var left: int
    var width: int
    var boundsWidth: real
    var boundsHeight: real
    var cursor: Cursor
    /** The width the rectangles were last laid out for: Bounds.Width, or Width after a grip drag. */
    ghost var layoutWidth: real

    /**
     * What the handlers keep: the keyframes in cue order, one marker per
     * keyframe, every rectangle as the last layout left it, and a drag
     * always names the region it started on.
     */
    ghost predicate Valid()
      reads this, animation
    {
      && Sorted(Cues(animation.keyFrames))
      && |animation.cueRects| == |animation.keyFrames|
      && LaidOut(layoutWidth, boundsHeight)
      && (drag ==> dragResult != None)
    }

    /**
     * The rectangles as a layout for width w and height h leaves them: the
     * background spans the track of the current bounds, the grips cover the
     * two margins of w, and each marker is its keyframe's cue rectangle.
     */
    ghost predicate LaidOut(w: real, h: real)
      reads this, animation
    {
      && backgroundRect == Rect(animation.cuesMarginLeft, 0.0, boundsWidth - animation.cuesMarginLeft - animation.cuesMarginRight, h)
      && leftGripRect == Rect(0.0, 0.0, animation.cuesMarginLeft, h)
      && rightGripRect == Rect(w - animation.cuesMarginRight, 0.0, animation.cuesMarginRight, h)
      && CueRectsLaidOut(w, h)
    }

    /** Every rectangle the hit test reads. */
    ghost function Rects(): (Rect, Rect, Rect, seq<Rect>)
      reads this, animation
    {
      (backgroundRect, leftGripRect, rightGripRect, animation.cueRects)
    }

    constructor (canvasLeft: int, initialWidth: int)
      ensures Valid() && fresh(animation)
      ensures animation.keyFrames == [] && animation.cueRects == [] && animation.dragCueIndex == 0
      ensures !drag && dragResult == None && cursor == Default
      ensures left == canvasLeft && width == initialWidth
      ensures boundsWidth == 0.0 && boundsHeight == 0.0 && LaidOut(0.0, 0.0)
    {
      animation := new AnimationViewModel();
      backgroundRect := Rect(0.0, 0.0, 0.0, 0.0);
      leftGripRect := Rect(0.0, 0.0, 0.0, 0.0);
      rightGripRect := Rect(0.0, 0.0, 0.0, 0.0);
      drag := false;
      dragStart := Point(0.0, 0.0);
      dragResult := None;
      left := canvasLeft;
      width := initialWidth;
      boundsWidth := 0.0;
      boundsHeight := 0.0;
      cursor := Default;
      new;
      // subscribing to Bounds delivers the current, empty bounds at once
      UpdateRects(0.0, 0.0);
    }

    /** The region under a point: a cue marker first, then the grips, then the background. */
    ghost function HitOf(point: Point): TimelineHitTestResult
      reads this, animation
    {
      if FirstContaining(animation.cueRects, point) >= 0 then Cue
      else if leftGripRect.Contains(point) then LeftGrip
      else if rightGripRect.Contains(point) then RightGrip
      else if backgroundRect.Contains(point) then Background
      else None
    }

    /**
     * HitTest: a marker wins over the left grip, the left grip over the right
     * grip, the right grip over the background; the index is the marker's
     * for a cue and -1 otherwise.
     */
    method HitTest(point: Point) returns (result: TimelineHitTestResult, index: int)
      ensures result == HitOf(point)
      ensures result == Cue <==> exists k :: 0 <= k < |animation.cueRects| && animation.cueRects[k].Contains(point)
      ensures result == LeftGrip <==> FirstContaining(animation.cueRects, point) < 0 && leftGripRect.Contains(point)
      ensures result == RightGrip <==>
        FirstContaining(animation.cueRects, point) < 0 && !leftGripRect.Contains(point) && rightGripRect.Contains(point)
      ensures result == Background <==>
        && FirstContaining(animation.cueRects, point) < 0
        && !leftGripRect.Contains(point) && !rightGripRect.Contains(point)
        && backgroundRect.Contains(point)
      ensures result == Cue ==> 0 <= index < |animation.cueRects| && animation.cueRects[index].Contains(point)
      ensures index == (if result == Cue then FirstContaining(animation.cueRects, point) else -1)
    {
      var cueIndex := animation.HitTest(point);
      if cueIndex >= 0 {
        return Cue, cueIndex;
      }
      if leftGripRect.Contains(point) {
        return LeftGrip, -1;
      }
      if rightGripRect.Contains(point) {
        return RightGrip, -1;
      }
      if backgroundRect.Contains(point) {
        return Background, -1;
      }
      return None, -1;
    }

    /** Every cue marker is the rectangle of its keyframe's cue on a w by h track. */
    ghost predicate CueRectsLaidOut(w: real, h: real)
      reads animation
    {
      && |animation.cueRects| == |animation.keyFrames|
      && forall i :: 0 <= i < |animation.keyFrames| ==>
        animation.cueRects[i] == animation.GetCueRect(animation.keyFrames[i].cue, w, h)
    }

    /**
     * UpdateRects: the background spans the track of the current bounds, the
     * grips cover the two margins of the given width, and the markers are
     * rebuilt for the given size.
     */
    method UpdateRects(w: real, h: real)
      modifies this`backgroundRect, this`leftGripRect, this`rightGripRect, this`layoutWidth, animation`cueRects
      ensures backgroundRect == Rect(animation.cuesMarginLeft, 0.0, boundsWidth - animation.cuesMarginLeft - animation.cuesMarginRight, h)
      ensures leftGripRect == Rect(0.0, 0.0, animation.cuesMarginLeft, h)
      ensures rightGripRect == Rect(w - animation.cuesMarginRight, 0.0, animation.cuesMarginRight, h)
      ensures w == boundsWidth ==>
        && leftGripRect.x + leftGripRect.width == backgroundRect.x
        && backgroundRect.x + backgroundRect.width == rightGripRect.x
        && rightGripRect.x + rightGripRect.width == w
      ensures backgroundRect.x + backgroundRect.width == rightGripRect.x <==> w == boundsWidth
      ensures |animation.cueRects| == |animation.keyFrames| && CueRectsLaidOut(w, h)
      ensures LaidOut(w, h) && layoutWidth == w
    {
      backgroundRect := Rect(animation.cuesMarginLeft, 0.0, boundsWidth - animation.cuesMarginLeft - animation.cuesMarginRight, h);
      leftGripRect := Rect(0.0, 0.0, animation.cuesMarginLeft, h);
      rightGripRect := Rect(w - animation.cuesMarginRight, 0.0, animation.cuesMarginRight, h);
      animation.Invalidate(w, h);
      layoutWidth := w;
    }

    /** The Bounds observable: a new size rebuilds every rectangle. */
    method SetBounds(w: real, h: real)
      requires Valid()
      modifies this`boundsWidth, this`boundsHeight, this`backgroundRect, this`leftGripRect, this`rightGripRect, this`layoutWidth, animation`cueRects
      ensures Valid()
      ensures boundsWidth == w && boundsHeight == h
      ensures leftGripRect == Rect(0.0, 0.0, animation.cuesMarginLeft, h)
      ensures rightGripRect == Rect(w - animation.cuesMarginRight, 0.0, animation.cuesMarginRight, h)
      ensures backgroundRect == Rect(animation.cuesMarginLeft, 0.0, w - animation.cuesMarginLeft - animation.cuesMarginRight, h)
    {
      boundsWidth := w;
      boundsHeight := h;
      UpdateRects(w, h);
    }

    /** A pointer X lies on the cue track of the current bounds, margins included. */
    ghost predicate InsideMargins(point: Point)
      reads this
    {
      !(point.x < animation.cuesMarginLeft || point.x > boundsWidth - animation.cuesMarginRight)
    }

    /** A press adds a cue when it is a Control+left or a middle press on the track. */
    ghost predicate AddsCue(point: Point, leftButton: bool, middleButton: bool, controlOnly: bool)
      reads this
    {
      (leftButton || middleButton) && !(leftButton && !controlOnly) && InsideMargins(point)
    }

    /** The first half of a press: a left press grabs the region, a right press on a marker deletes its cue. */
    method PressRegion(hit: TimelineHitTestResult, hitIndex: int, position: Point, leftButton: bool, rightButton: bool, controlOnly: bool)
      requires Valid()
      requires hit == Cue ==> 0 <= hitIndex < |animation.keyFrames|
      modifies this`backgroundRect, this`leftGripRect, this`rightGripRect, this`layoutWidth, this`drag, this`dragResult, this`dragStart, this`cursor
      modifies animation`keyFrames, animation`cueRects, animation`dragCueIndex
      ensures Valid()
      ensures !leftButton && rightButton && hit == Cue ==>
        animation.keyFrames == RemoveAt(old(animation.keyFrames), hitIndex)
      ensures !(!leftButton && rightButton && hit == Cue) ==> animation.keyFrames == old(animation.keyFrames)
      ensures leftButton && hit != None ==>
        && drag && dragResult == hit && dragStart == position && cursor == CursorFor(hit, controlOnly)
        && animation.dragCueIndex == hitIndex
      ensures !(leftButton && hit != None) ==>
        && drag == old(drag) && dragResult == old(dragResult) && dragStart == old(dragStart)
        && animation.dragCueIndex == old(animation.dragCueIndex)
        && cursor == (if rightButton && hit == Cue then Default else old(cursor))
      ensures !leftButton && rightButton && hit == Cue ==> LaidOut(boundsWidth, boundsHeight) && layoutWidth == boundsWidth
      ensures !(!leftButton && rightButton && hit == Cue) ==> Rects() == old(Rects()) && layoutWidth == old(layoutWidth)
    {
      if hit != None {
        if leftButton {
          animation.BeginMoveCue(hitIndex);
          drag := true;
          dragResult := hit;
          dragStart := position;
          cursor := CursorFor(hit, controlOnly);
        } else if rightButton {
          if hit == Cue {
            animation.RemoveCue(hitIndex);
            UpdateRects(boundsWidth, boundsHeight);
            cursor := Default;
          }
        }
      }
    }

    /** The second half of a press: a Control+left or a middle press on the track adds a cue and drags it. */
    method PressTrack(point: Point, position: Point, leftButton: bool, middleButton: bool, controlOnly: bool)
      requires Valid()
      modifies this`backgroundRect, this`leftGripRect, this`rightGripRect, this`layoutWidth, this`drag, this`dragResult, this`dragStart, this`cursor
      modifies animation`keyFrames, animation`cueRects, animation`dragCueIndex
      ensures Valid()
      ensures AddsCue(point, leftButton, middleButton, controlOnly) ==>
        var cue := animation.CalculateCue(point, boundsWidth);
        var at := InsertPos(Cues(old(animation.keyFrames)), cue);
        && animation.keyFrames == InsertAt(old(animation.keyFrames), at, KeyFrame(cue))
        && drag && dragResult == Cue && animation.dragCueIndex == at
        && dragStart == position && cursor == SizeWestEast
        && LaidOut(boundsWidth, boundsHeight) && layoutWidth == boundsWidth
      ensures !AddsCue(point, leftButton, middleButton, controlOnly) ==> unchanged(this) && unchanged(animation)
    {
      if leftButton || middleButton {
        if leftButton && !controlOnly {
          return;
        }
        if point.x < animation.cuesMarginLeft || point.x > boundsWidth - animation.cuesMarginRight {
          return;
        }
        AddDraggedCue(point, position, controlOnly);
      }
    }

    /** A cue is added under the pointer, in cue order, and becomes the one being dragged. */
    method AddDraggedCue(point: Point, position: Point, controlOnly: bool)
      requires Valid()
      modifies this`backgroundRect, this`leftGripRect, this`rightGripRect, this`layoutWidth, this`drag, this`dragResult, this`dragStart, this`cursor
      modifies animation`keyFrames, animation`cueRects, animation`dragCueIndex
      ensures Valid()
      ensures var cue := animation.CalculateCue(point, boundsWidth);
        var at := InsertPos(Cues(old(animation.keyFrames)), cue);
        && animation.keyFrames == InsertAt(old(animation.keyFrames), at, KeyFrame(cue))
        && drag && dragResult == Cue && animation.dragCueIndex == at
        && dragStart == position && cursor == SizeWestEast
      ensures LaidOut(boundsWidth, boundsHeight) && layoutWidth == boundsWidth
    {
      var cue := animation.CalculateCue(point, boundsWidth);
      var newCueIndex := animation.AddCue(cue);
      animation.BeginMoveCue(newCueIndex);
      drag := true;
      dragResult := Cue;
      dragStart := position;
      cursor := CursorFor(Cue, controlOnly);
      UpdateRects(boundsWidth, boundsHeight);
    }

    /**
     * A press: first a left press on any region starts dragging it and a
     * right press on a marker deletes that cue; then a Control+left or a
     * middle press on the track adds a cue under the pointer and starts
     * dragging the new cue.
     */
    method PointerPressed(point: Point, position: Point, leftButton: bool, middleButton: bool, rightButton: bool, controlOnly: bool)
      requires Valid()
      modifies this`backgroundRect, this`leftGripRect, this`rightGripRect, this`layoutWidth, this`drag, this`dragResult, this`dragStart, this`cursor
      modifies animation`keyFrames, animation`cueRects, animation`dragCueIndex
      ensures Valid()
      ensures var hit := old(HitOf(point));
        var index := old(FirstContaining(animation.cueRects, point));
        var kept := if !leftButton && rightButton && hit == Cue then RemoveAt(old(animation.keyFrames), index) else old(animation.keyFrames);
        AddsCue(point, leftButton, middleButton, controlOnly) ==>
          var cue := animation.CalculateCue(point, boundsWidth);
          var at := InsertPos(Cues(kept), cue);
          && animation.keyFrames == InsertAt(kept, at, KeyFrame(cue))
          && drag && dragResult == Cue && animation.dragCueIndex == at
          && dragStart == position && cursor == SizeWestEast
          && LaidOut(boundsWidth, boundsHeight)
      ensures var hit := old(HitOf(point));
        var index := old(FirstContaining(animation.cueRects, point));
        var removed := !leftButton && rightButton && hit == Cue;
        !AddsCue(point, leftButton, middleButton, controlOnly) ==>
          && animation.keyFrames == (if removed then RemoveAt(old(animation.keyFrames), index) else old(animation.keyFrames))
          && (leftButton && hit != None ==>
                drag && dragResult == hit && dragStart == position && cursor == CursorFor(hit, controlOnly)
                && animation.dragCueIndex == (if hit == Cue then index else -1))
          && (!(leftButton && hit != None) ==>
                drag == old(drag) && dragResult == old(dragResult) && dragStart == old(dragStart)
                && animation.dragCueIndex == old(animation.dragCueIndex)
                && cursor == (if removed then Default else old(cursor)))
          && (removed ==> LaidOut(boundsWidth, boundsHeight))
          && (!removed ==> Rects() == old(Rects()))
    {
      var hit, hitIndex := HitTest(point);
      PressRegion(hit, hitIndex, position, leftButton, rightButton, controlOnly);
      PressTrack(point, position, leftButton, middleButton, controlOnly);
    }

    /** Release ends any drag and resets the cursor; without a drag it does nothing. */
    method PointerReleased()
      requires Valid()
      modifies this`drag, this`cursor
      ensures Valid()
      ensures !drag
      ensures old(drag) ==> cursor == Default
      ensures !old(drag) ==> cursor == old(cursor)
    {
      if drag {
        cursor := Default;
        drag := false;
      }
    }

    /**
     * A move during a drag applies it: a cue follows the pointer, the
     * background moves the widget, a grip resizes it; background and grip
     * drags then measure the next delta from here. Without a drag only the
     * cursor follows the region under the pointer. A cue drag whose index
     * no longer names a keyframe (a right press deleted a cue mid-drag)
     * faults, as List.RemoveAt throws, and changes nothing.
     */
    method PointerMoved(point: Point, position: Point, controlOnly: bool) returns (faulted: bool)
      requires Valid()
      modifies this`left, this`width, this`dragStart, this`cursor
      modifies this`backgroundRect, this`leftGripRect, this`rightGripRect, this`layoutWidth
      modifies animation`keyFrames, animation`cueRects, animation`dragCueIndex
      ensures Valid()
      ensures faulted <==>
        old(drag) && dragResult == Cue && !(0 <= old(animation.dragCueIndex) < old(|animation.keyFrames|))
      ensures faulted ==> unchanged(this) && unchanged(animation)
      ensures !old(drag) ==>
        && left == old(left) && width == old(width) && dragStart == old(dragStart)
        && animation.keyFrames == old(animation.keyFrames) && animation.dragCueIndex == old(animation.dragCueIndex)
        && cursor == (if old(HitOf(point)) != None then CursorFor(old(HitOf(point)), controlOnly) else old(cursor))
        && Rects() == old(Rects())
      ensures old(drag) && dragResult == Cue && !faulted ==>
        && CueMoved(old(animation.keyFrames), old(animation.dragCueIndex), animation.CalculateCue(point, boundsWidth),
                 animation.keyFrames, animation.dragCueIndex)
        && left == old(left) && width == old(width) && dragStart == old(dragStart)
        && LaidOut(boundsWidth, boundsHeight)
      ensures old(drag) && dragResult == Background ==>
        && left == BackgroundMove(old(left), position.x - old(dragStart).x) && width == old(width)
        && dragStart == position && animation.keyFrames == old(animation.keyFrames)
        && LaidOut(boundsWidth, boundsHeight)
      ensures old(drag) && dragResult == LeftGrip ==>
        && (left, width) == LeftGripMove(old(left), old(width), position.x - old(dragStart).x)
        && left + width == old(left) + old(width)
        && dragStart == position && animation.keyFrames == old(animation.keyFrames)
        && LaidOut(width as real, boundsHeight)
      ensures old(drag) && dragResult == RightGrip ==>
        && left == old(left) && width == RightGripMove(old(width), position.x - old(dragStart).x)
        && dragStart == position && animation.keyFrames == old(animation.keyFrames)
        && LaidOut(width as real, boundsHeight)
      ensures old(drag) ==> cursor == old(cursor)
      ensures old(drag) && dragResult != Cue ==> animation.dragCueIndex == old(animation.dragCueIndex)
    {
      faulted := false;
      if drag {
        var deltaX := position.x - dragStart.x;
        match dragResult
        case None =>
        case Cue =>
          // a stale index makes the removal throw
          if 0 <= animation.dragCueIndex < |animation.keyFrames| {
            DragCue(point);
          } else {
            faulted := true;
          }
        case Background =>
          MoveBackground(deltaX, position);
        case LeftGrip =>
          MoveLeftGrip(deltaX, position);
        case RightGrip =>
          MoveRightGrip(deltaX, position);
      } else {
        Hover(point, controlOnly);
      }
    }

    /**
     * The keyframes after a cue move are those before it with the one at index taken out
     * and the cue put back at its insertion point, which is the new drag index.
     */
    static ghost predicate CueMoved(before: seq<KeyFrame>, index: int, cue: real, after: seq<KeyFrame>, newIndex: int)
    {
      && 0 <= index < |before|
      && var rest := RemoveAt(before, index);
      && newIndex == InsertPos(Cues(rest), cue)
      && after == InsertAt(rest, newIndex, KeyFrame(cue))
    }

    /** A cue drag: the dragged cue is taken out and put back where the pointer is. */
    method DragCue(point: Point)
      requires Valid() && 0 <= animation.dragCueIndex < |animation.keyFrames|
      modifies this`backgroundRect, this`leftGripRect, this`rightGripRect, this`layoutWidth
      modifies animation`keyFrames, animation`cueRects, animation`dragCueIndex
      ensures Valid()
      ensures CueMoved(old(animation.keyFrames), old(animation.dragCueIndex), animation.CalculateCue(point, boundsWidth),
                       animation.keyFrames, animation.dragCueIndex)
      ensures left == old(left) && width == old(width) && dragStart == old(dragStart)
      ensures LaidOut(boundsWidth, boundsHeight) && layoutWidth == boundsWidth
    {
      ghost var before, index := animation.keyFrames, animation.dragCueIndex;
      animation.MoveCue(point, boundsWidth);
      assert CueMoved(before, index, animation.CalculateCue(point, boundsWidth), animation.keyFrames, animation.dragCueIndex);
      UpdateRects(boundsWidth, boundsHeight);
    }

    /** MoveBackground: the widget follows the pointer along its canvas, and the drag restarts here. */
    method MoveBackground(deltaX: real, position: Point)
      requires Valid()
      modifies this`left, this`dragStart, this`backgroundRect, this`leftGripRect, this`rightGripRect, this`layoutWidth, animation`cueRects
      ensures Valid()
      ensures left == BackgroundMove(old(left), deltaX) && dragStart == position
      ensures LaidOut(boundsWidth, boundsHeight) && layoutWidth == boundsWidth
    {
      left := BackgroundMove(left, deltaX);
      UpdateRects(boundsWidth, boundsHeight);
      dragStart := position;
    }

    /** MoveLeftGrip: the left edge follows the pointer and the right edge stays. */
    method MoveLeftGrip(deltaX: real, position: Point)
      requires Valid()
      modifies this`left, this`width, this`dragStart, this`backgroundRect, this`leftGripRect, this`rightGripRect, this`layoutWidth, animation`cueRects
      ensures Valid()
      ensures (left, width) == LeftGripMove(old(left), old(width), deltaX)
      ensures left + width == old(left) + old(width) && dragStart == position
      ensures LaidOut(width as real, boundsHeight) && layoutWidth == width as real
    {
      var moved := LeftGripMove(left, width, deltaX);
      left, width := moved.0, moved.1;
      UpdateRects(width as real, boundsHeight);
      dragStart := position;
    }

    /** MoveRightGrip: the width follows the pointer and the left edge stays. */
    method MoveRightGrip(deltaX: real, position: Point)
      requires Valid()
      modifies this`width, this`dragStart, this`backgroundRect, this`leftGripRect, this`rightGripRect, this`layoutWidth, animation`cueRects
      ensures Valid()
      ensures width == RightGripMove(old(width), deltaX) && dragStart == position
      ensures LaidOut(width as real, boundsHeight) && layoutWidth == width as real
    {
      width := RightGripMove(width, deltaX);
      UpdateRects(width as real, boundsHeight);
      dragStart := position;
    }

    /** Hovering without a drag shows the cursor of the region under the pointer, if any. */
    method Hover(point: Point, controlOnly: bool)
      modifies this`cursor
      ensures cursor == (if old(HitOf(point)) != None then CursorFor(old(HitOf(point)), controlOnly) else old(cursor))
    {
      var hit, _ := HitTest(point);
      if hit != None {
        cursor := CursorFor(hit, controlOnly);
      }
    }

    /** Leaving the widget only resets the cursor; a drag in progress continues. */
    method PointerLeave()
      requires Valid()
      modifies this`cursor
      ensures Valid()
      ensures cursor == Default
      ensures drag == old(drag) && dragResult == old(dragResult)
    {
      cursor := Default;
    }
  }
}
