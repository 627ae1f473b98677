/**
 * The editor's view model of one animation track: its keyframes kept in cue
 * order, the marker rectangle of each keyframe, and the index of the keyframe
 * being dragged.
 */
module AnimationViewModels {
  import opened Geometry
  import opened CueList
  import CueMath

  /** A keyframe of the track; the editor only keeps its normalized position. */
  datatype KeyFrame = KeyFrame(cue: real)

  /** The cues of a keyframe list, in list order. */
  function Cues(keyFrames: seq<KeyFrame>): (r: seq<real>)
    ensures |r| == |keyFrames|
    ensures forall i :: 0 <= i < |keyFrames| ==> r[i] == keyFrames[i].cue
  {
    seq(|keyFrames|, i requires 0 <= i < |keyFrames| => keyFrames[i].cue)
  }

  lemma CuesOfInsert(keyFrames: seq<KeyFrame>, i: nat, c: real)
    requires i <= |keyFrames|
    ensures Cues(InsertAt(keyFrames, i, KeyFrame(c))) == InsertAt(Cues(keyFrames), i, c)
  {
  }

  lemma CuesOfRemove(keyFrames: seq<KeyFrame>, i: nat)
    requires i < |keyFrames|
    ensures Cues(RemoveAt(keyFrames, i)) == RemoveAt(Cues(keyFrames), i)
  {
  }

  class AnimationViewModel {
    var keyFrames: seq<KeyFrame>
    var cueRects: seq<Rect>
    var dragCueIndex: int

    const cueDigitsPrecision: nat := 2
    const cueSize: real := 10.0
    const cuesMarginLeft: real := 20.0
    const cuesMarginRight: real := 20.0
    const cueLabelsHeight: real := 15.0
    const drawCueLabels: bool := false

    constructor ()
      ensures keyFrames == [] && cueRects == [] && dragCueIndex == 0
    {
      keyFrames := [];
      cueRects := [];
      dragCueIndex := 0;
    }

    /** The marker of a cue: it starts below the label band when labels are drawn, at the top otherwise. */
    function GetCueRect(cue: real, width: real, height: real): (r: Rect)
    {
      CueMath.CueRect(cue, width, height, cuesMarginLeft, cuesMarginRight, cueSize,
        if drawCueLabels then cueLabelsHeight else 0.0)
    }

    /** Rebuilds the marker list: one rectangle per keyframe, in keyframe order. */
    method Invalidate(width: real, height: real)
      modifies this`cueRects
      ensures |cueRects| == |keyFrames|
      ensures forall i :: 0 <= i < |keyFrames| ==> cueRects[i] == GetCueRect(keyFrames[i].cue, width, height)
    {
      cueRects := [];
      for i := 0 to |keyFrames|
        invariant |cueRects| == i
        invariant forall k :: 0 <= k < i ==> cueRects[k] == GetCueRect(keyFrames[k].cue, width, height)
      {
        cueRects := cueRects + [GetCueRect(keyFrames[i].cue, width, height)];
      }
    }

    /** The cue under a pointer X: always in [0, 1], a whole number of hundredths. */
    function CalculateCue(point: Point, width: real): (r: real)
      ensures 0.0 <= r <= 1.0
    {
      CueMath.CalculateCue(point.x, cuesMarginLeft, cuesMarginRight, width)
    }

    /**
     * Inserts a keyframe with the given cue in front of the first keyframe with
     * a strictly greater cue, and returns where it went.
     */
    method AddCue(cue: real) returns (index: int)
      modifies this`keyFrames
      ensures 0 <= index < |keyFrames| && keyFrames[index].cue == cue
      ensures index == InsertPos(Cues(old(keyFrames)), cue)
      ensures keyFrames == InsertAt(old(keyFrames), index, KeyFrame(cue))
      ensures Sorted(Cues(old(keyFrames))) ==> Sorted(Cues(keyFrames))
    {
      var keyFrame := KeyFrame(cue);
      ghost var cues := Cues(keyFrames);
      if |keyFrames| == 0 {
        keyFrames := keyFrames + [keyFrame];
        index := 0;
      } else {
        index := |keyFrames|;
        var i := 0;
        while i < |keyFrames|
          invariant 0 <= i <= |keyFrames| && keyFrames == old(keyFrames)
          invariant forall k :: 0 <= k < i ==> !(cue < keyFrames[k].cue)
        {
          if cue < keyFrames[i].cue {
            index := i;
            break;
          }
          i := i + 1;
        }
        InsertPosUnique(cues, cue, index);
        keyFrames := InsertAt(keyFrames, index, keyFrame);
      }
      InsertPosUnique(cues, cue, index);
      CuesOfInsert(old(keyFrames), index, cue);
      if Sorted(cues) {
        InsertKeepsSorted(cues, cue);
      }
    }

    /** Removes exactly the keyframe at index; List.RemoveAt throws for any other index. */
    method RemoveCue(index: int)
      requires 0 <= index < |keyFrames|
      modifies this`keyFrames
      ensures keyFrames == RemoveAt(old(keyFrames), index)
      ensures Sorted(Cues(old(keyFrames))) ==> Sorted(Cues(keyFrames))
    {
      CuesOfRemove(keyFrames, index);
      if Sorted(Cues(keyFrames)) {
        RemoveKeepsSorted(Cues(keyFrames), index);
      }
      keyFrames := RemoveAt(keyFrames, index);
    }

    method BeginMoveCue(index: int)
      modifies this`dragCueIndex
      ensures dragCueIndex == index
    {
      dragCueIndex := index;
    }

    /**
     * Moves the dragged keyframe to the cue under the pointer: it is taken out
     * and put back in cue order, and the drag index follows it.
     */
    method MoveCue(point: Point, width: real)
      requires 0 <= dragCueIndex < |keyFrames|
      modifies this`keyFrames, this`dragCueIndex
      ensures var rest := RemoveAt(old(keyFrames), old(dragCueIndex));
        && dragCueIndex == InsertPos(Cues(rest), CalculateCue(point, width))
        && keyFrames == InsertAt(rest, dragCueIndex, KeyFrame(CalculateCue(point, width)))
      ensures |keyFrames| == old(|keyFrames|)
      ensures 0 <= dragCueIndex < |keyFrames| && keyFrames[dragCueIndex].cue == CalculateCue(point, width)
      ensures Sorted(Cues(old(keyFrames))) ==> Sorted(Cues(keyFrames))
    {
      var cue := CalculateCue(point, width);
      RemoveCue(dragCueIndex);
      dragCueIndex := AddCue(cue);
    }

    /** The first marker containing the point, or -1. */
    method HitTest(point: Point) returns (index: int)
      ensures index == FirstContaining(cueRects, point)
      ensures index >= 0 ==> index < |cueRects| && cueRects[index].Contains(point)
    {
      for i := 0 to |cueRects|
        invariant forall k :: 0 <= k < i ==> !cueRects[k].Contains(point)
      {
        if cueRects[i].Contains(point) {
          return i;
        }
      }
      return -1;
    }
  }
}
