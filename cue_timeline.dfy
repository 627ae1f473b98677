/**
 * The standalone timeline widget: a sorted list of cues, one marker per cue
 * below a text band, and a press / move / release drag over the markers.
 * The widget's Bounds are the two fields boundsWidth and boundsHeight; a
 * change of Bounds is the SetBounds method.
 */
module CueTimeline {
  import opened Geometry
  import opened CueList
  import CueMath

  class Timeline {
    var cues: seq<real>
    var cueRects: seq<Rect>
    var dragCue: bool
    var dragCueIndex: int
    var cursor: Cursor
    var boundsWidth: real
    var boundsHeight: real

    const cuesMarginLeft: real := 20.0
    const cuesMarginRight: real := 20.0
    const cueSize: real := 10.0
    const cueTextAreaSize: real := 20.0

    /** The markers are the rectangles of the cues, in cue order, for the given size. */
    ghost predicate RectsFor(width: real, height: real)
      reads this
    {
      && |cueRects| == |cues|
      && forall i :: 0 <= i < |cues| ==> cueRects[i] == GetCueRect(cues[i], width, height)
    }

    /**
     * What the handlers keep: the cues are in ascending order, the markers
     * match the cues at the current bounds, and a drag names an existing cue.
     */
    ghost predicate Valid()
      reads this
    {
      && Sorted(cues)
      && RectsFor(boundsWidth, boundsHeight)
      && (dragCue ==> 0 <= dragCueIndex < |cues|)
    }

    constructor ()
      ensures Valid()
      ensures cues == [] && cueRects == [] && !dragCue && dragCueIndex == 0 && cursor == Default
      ensures boundsWidth == 0.0 && boundsHeight == 0.0
    {
      cues := [];
      cueRects := [];
      dragCue := false;
      dragCueIndex := 0;
      cursor := Default;
      boundsWidth := 0.0;
      boundsHeight := 0.0;
    }

    /** A pointer X lies on the cue track, margins included. */
    predicate InsideMargins(point: Point)
      reads this
    {
      !(point.x < cuesMarginLeft || point.x > boundsWidth - cuesMarginRight)
    }

    /** The first marker containing the point, or -1. */
    method HitTestCue(point: Point) returns (index: int)
      ensures index == FirstContaining(cueRects, point)
      ensures index >= 0 ==> index < |cueRects| && cueRects[index].Contains(point)
    {
      for i := 0 to |cueRects|
        invariant forall k :: 0 <= k < i ==> !cueRects[k].Contains(point)
      {
        if cueRects[i].Contains(point) {
          return i;
        }
      }
      return -1;
    }

    /** The cue under a pointer X, in [0, 1]. */
    function CalculateCue(point: Point, width: real): (r: real)
      ensures 0.0 <= r <= 1.0
    {
      CueMath.CalculateCue(point.x, cuesMarginLeft, cuesMarginRight, width)
    }

    /** Inserts the cue in front of the first strictly greater cue and returns its index. */
    method AddCue(cue: real) returns (index: int)
      modifies this`cues
      ensures 0 <= index < |cues| && cues[index] == cue
      ensures index == InsertPos(old(cues), cue)
      ensures cues == InsertAt(old(cues), index, cue)
      ensures Sorted(old(cues)) ==> Sorted(cues)
    {
      ghost var before := cues;
      if |cues| == 0 {
        cues := cues + [cue];
        index := 0;
      } else {
        index := |cues|;
        var i := 0;
        while i < |cues|
          invariant 0 <= i <= |cues| && cues == before
          invariant forall k :: 0 <= k < i ==> !(cue < cues[k])
        {
          if cue < cues[i] {
            index := i;
            break;
          }
          i := i + 1;
        }
        InsertPosUnique(before, cue, index);
        cues := InsertAt(cues, index, cue);
      }
      InsertPosUnique(before, cue, index);
      if Sorted(before) {
        InsertKeepsSorted(before, cue);
      }
    }

    /** Takes the dragged cue out and puts the cue under the pointer back in order. */
    method MoveCue(point: Point, width: real)
      requires 0 <= dragCueIndex < |cues|
      modifies this`cues, this`dragCueIndex
      ensures var rest := RemoveAt(old(cues), old(dragCueIndex));
        && dragCueIndex == InsertPos(rest, CalculateCue(point, width))
        && cues == InsertAt(rest, dragCueIndex, CalculateCue(point, width))
      ensures |cues| == old(|cues|)
      ensures 0 <= dragCueIndex < |cues| && cues[dragCueIndex] == CalculateCue(point, width)
      ensures Sorted(old(cues)) ==> Sorted(cues)
    {
      var cue := CalculateCue(point, width);
      if Sorted(cues) {
        RemoveKeepsSorted(cues, dragCueIndex);
      }
      cues := RemoveAt(cues, dragCueIndex);
      dragCueIndex := AddCue(cue);
    }

    /** The marker of a cue: below the text band, down to the bottom edge. */
    function GetCueRect(cue: real, width: real, height: real): (r: Rect)
    {
      CueMath.CueRect(cue, width, height, cuesMarginLeft, cuesMarginRight, cueSize, cueTextAreaSize)
    }

    /** Rebuilds the markers: one per cue, in cue order, each from the text band to the bottom. */
    method UpdateCueRects(width: real, height: real)
      modifies this`cueRects
      ensures RectsFor(width, height)
      ensures forall i :: 0 <= i < |cueRects| ==>
        cueRects[i].y == cueTextAreaSize && cueRects[i].height == height - cueTextAreaSize
    {
      cueRects := [];
      for i := 0 to |cues|
        invariant |cueRects| == i
        invariant forall k :: 0 <= k < i ==> cueRects[k] == GetCueRect(cues[k], width, height)
      {
        cueRects := cueRects + [GetCueRect(cues[i], width, height)];
      }
    }

    /** The Bounds observable: a new size rebuilds the markers. */
    method SetBounds(width: real, height: real)
      requires Valid()
      modifies this`boundsWidth, this`boundsHeight, this`cueRects
      ensures Valid() && RectsFor(width, height)
      ensures boundsWidth == width && boundsHeight == height
    {
      boundsWidth := width;
      boundsHeight := height;
      UpdateCueRects(width, height);
    }

    /**
     * A press outside the margins does nothing; a press on a marker starts
     * dragging that cue; any other press adds the cue under the pointer.
     */
    method PointerPressed(point: Point)
      requires Valid()
      modifies this`cues, this`cueRects, this`dragCue, this`dragCueIndex, this`cursor
      ensures Valid()
      ensures !InsideMargins(point) ==>
        cues == old(cues) && cueRects == old(cueRects) && dragCue == old(dragCue)
        && dragCueIndex == old(dragCueIndex) && cursor == old(cursor)
      ensures InsideMargins(point) && FirstContaining(old(cueRects), point) >= 0 ==>
        cues == old(cues) && cueRects == old(cueRects) && dragCue
        && dragCueIndex == FirstContaining(old(cueRects), point) && cursor == Hand
      ensures InsideMargins(point) && FirstContaining(old(cueRects), point) < 0 ==>
        var cue := CalculateCue(point, boundsWidth);
        && cues == InsertAt(old(cues), InsertPos(old(cues), cue), cue)
        && dragCue == old(dragCue) && dragCueIndex == old(dragCueIndex) && cursor == old(cursor)
    {
      if point.x < cuesMarginLeft || point.x > boundsWidth - cuesMarginRight {
        return;
      }
      var hitTestIndex := HitTestCue(point);
      if hitTestIndex >= 0 {
        dragCueIndex := hitTestIndex;
        dragCue := true;
        cursor := Hand;
        return;
      }
      AddCueUnder(point);
    }

    /** A press off every marker adds the cue under the pointer, in cue order, and lays the markers out again. */
    method AddCueUnder(point: Point)
      requires Valid()
      modifies this`cues, this`cueRects
      ensures Valid()
      ensures var cue := CalculateCue(point, boundsWidth);
        cues == InsertAt(old(cues), InsertPos(old(cues), cue), cue)
    {
      var cue := CalculateCue(point, boundsWidth);
      var _ := AddCue(cue);
      UpdateCueRects(boundsWidth, boundsHeight);
    }

    /** Release ends a drag and resets the cursor; without a drag it does nothing. */
    method PointerReleased()
      requires Valid()
      modifies this`dragCue, this`cursor
      ensures Valid()
      ensures !dragCue
      ensures old(dragCue) ==> cursor == Default
      ensures !old(dragCue) ==> cursor == old(cursor)
    {
      if dragCue {
        cursor := Default;
        dragCue := false;
      }
    }

    /**
     * While dragging, the dragged cue follows the pointer; otherwise only the
     * cursor changes: a hand over a marker, a cross on the track, the default
     * arrow outside the margins.
     */
    method PointerMoved(point: Point)
      requires Valid()
      modifies this`cues, this`cueRects, this`dragCueIndex, this`cursor
      ensures Valid()
      ensures old(dragCue) ==>
        var rest := RemoveAt(old(cues), old(dragCueIndex));
        var cue := CalculateCue(point, boundsWidth);
        && dragCueIndex == InsertPos(rest, cue)
        && cues == InsertAt(rest, dragCueIndex, cue)
        && cursor == old(cursor)
      ensures !old(dragCue) ==>
        && cues == old(cues) && cueRects == old(cueRects) && dragCueIndex == old(dragCueIndex)
        && cursor == (if FirstContaining(cueRects, point) >= 0 then Hand
                      else if !InsideMargins(point) then Default
                      else Cross)
    {
      if dragCue {
        MoveCue(point, boundsWidth);
        UpdateCueRects(boundsWidth, boundsHeight);
      } else {
        var hitTestIndex := HitTestCue(point);
        if hitTestIndex >= 0 {
          cursor := Hand;
        } else {
          if point.x < cuesMarginLeft || point.x > boundsWidth - cuesMarginRight {
            cursor := Default;
          } else {
            cursor := Cross;
          }
        }
      }
    }

    /** Leaving the widget only resets the cursor; a drag in progress continues. */
    method PointerLeave()
      requires Valid()
      modifies this`cursor
      ensures Valid()
      ensures cursor == Default
    {
      cursor := Default;
    }
  }
}
