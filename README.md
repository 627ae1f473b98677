# Animator timelines, clocks and XAML writer in Dafny

This project models the core of Animator, a small Avalonia application for
editing and previewing animations:

- **The animation view model** (`AnimationViewModels`). It is an ordered
  list of keyframes, each with a cue between 0 and 1. It maps a pointer
  position to a cue, rounded to hundredths and clamped. It inserts a cue
  after every equal or smaller cue, removes and moves cues, lays out one
  cue rectangle per keyframe, and hit-tests those rectangles.
- **The editor's cue timeline control** (`CueTimeline`). It keeps its own
  list of cues and runs a press/move/release state machine: a press on a
  cue starts a drag, a press elsewhere between the margins adds a cue, and
  hovering picks the cursor.
- **The demo's timeline widget** (`DemoTimeline`). It holds an animation
  view model between two grips and hit-tests cue, left grip, right grip and
  background in that order. Dragging moves a cue, moves the widget on its
  canvas, or resizes it from either grip, rounding to whole units. Every
  handler states the rectangles it leaves behind: either a new layout or
  the old rectangles unchanged. So the next hit test is determined. A cue
  drag, a background drag and a press lay out for `Bounds.Width`. A grip
  drag lays out the right grip and the markers for the widget's `Width`.
  The background keeps using `Bounds.Width`, so after a grip drag the
  background and the right grip no longer meet until the next bounds change.
- **The clocks** (`Clocks`, `ManualClock`):
  - a clock driven by a parent clock, with pause that does not drift,
    publishing of the internal time, and a Stop hook that drops the parent
    subscription;
  - a manual timeline clock that broadcasts to its observers.
- **The playback controller** (`AnimationControllers`). It toggles the
  playback clock between Run and Pause, and creates and runs the two demo
  animations.
- **The view-model-to-XAML writer** (`ViewModelConverter`). It writes a
  style, its setters, and its animations with their keyframes as indented
  lines. It includes TimeSpan's constant ("c") text format.

The numeric helpers of .NET that all of this relies on are in `Rounding`:
- `Math.Round` with ties to even, and `Math.Round(x, 2)` with its 1e16
  pass-through;
- `Math.Clamp`;
- the NaN and infinities that IEEE division yields.

`Geometry` holds points, rectangles (edges inclusive) and the cursor shapes.
`CueList` is the specification of the sorted cue list: the insertion point,
insertion, removal and sortedness.

Where the source changes state, the model is a class whose methods change
fields and state the whole new state. Examples are the view model's
keyframe list, the timeline's drag state and the clock's times. Each method
is proved against specification functions, such as `InsertPos`, `InsertAt`,
`FirstContaining`, `PulseTiming`, `StyleLines` and `Broadcast`. Lemmas prove
the promised properties of those functions. The loops of the source appear
as `for` loops with invariants: the hit tests, the rectangle layout, the
observer broadcasts and the writer's loops.

Events that leave the object are kept in ghost logs:
- the values a clock publishes;
- the notifications a timeline clock sends;
- the animation runs the controller starts.

## Model

| member | source | states |
|---|---|---|
| Rounding.RoundHalfEven | TimeLineDemo/Controls/Timeline.cs:248 | `Math.Round(x)` lands within half a unit of x |
| Rounding.RoundHalfEvenOfInteger | TimeLineDemo/Controls/Timeline.cs:270 | rounding a whole number returns it unchanged |
| Rounding.RoundHalfEvenMonotone | TimeLineDemo/Controls/Timeline.cs:259 | rounding never reverses the order of two values |
| Rounding.RoundHalfEvenBoundedBy | TimeLineDemo/Controls/Timeline.cs:263 | a value on one side of an integer rounds to that side or onto it |
| Rounding.RoundTwoDigitsPrecision | Animator/ViewModels/AnimationViewModel.cs:69 | `Math.Round(x, 2)` in range gives a whole number of hundredths within 0.005 of x |
| Rounding.RoundTwoDigitsMonotone | Animator/Controls/Timeline.cs:62 | rounding to hundredths keeps order, across the 1e16 pass-through limit too |
| Rounding.RoundTwoDigitsOfHundredths | Animator/ViewModels/AnimationViewModel.cs:69 | a whole number of hundredths is left as it is |
| Rounding.RoundClampCommute | Animator/ViewModels/AnimationViewModel.cs:69-70 | rounding then clamping to [0, 1] equals clamping then rounding |
| Rounding.Clamp | Animator/ViewModels/AnimationViewModel.cs:70 | `Math.Clamp` result lies in [lo, hi], is x inside, lo below and hi above |
| Rounding.Divide | Animator/ViewModels/AnimationViewModel.cs:68 | division yields NaN exactly for 0/0, and the quotient for a non-zero divisor |
| Rounding.RoundDouble | Animator/Controls/Timeline.cs:62 | rounding keeps finite values finite and returns infinities and NaN unchanged |
| Rounding.ClampDouble | Animator/Controls/Timeline.cs:63 | clamping keeps NaN, and any finite result lies in [lo, hi] |
| Geometry.FirstContaining | Animator/Controls/Timeline.cs:46-57 | index of the first rectangle containing the point, -1 exactly when none does |
| CueList.InsertPos | Animator/Controls/Timeline.cs:67-87 | insertion point: every cue before it is ≤ c and the cue at it is > c |
| CueList.InsertPosSplitsSorted | Animator/Controls/Timeline.cs:75-82 | in a sorted list every cue from the insertion point on is greater than c |
| CueList.InsertAt | Animator/Controls/Timeline.cs:79 | `List.Insert`: one longer, x at i, items before i kept, items from i on shifted up by one |
| CueList.InsertAtMultiset | Animator/Controls/Timeline.cs:79 | inserting adds x and keeps every other item: the multiset grows by exactly x |
| CueList.RemoveAt | Animator/Controls/Timeline.cs:92 | `List.RemoveAt`: one shorter, items before i kept, later items shifted down by one |
| CueList.RemoveAtMultiset | Animator/Controls/Timeline.cs:92 | removing drops exactly the item at i: the multiset shrinks by that item only |
| CueList.InsertKeepsSorted | Animator/ViewModels/AnimationViewModel.cs:74-96 | inserting at the insertion point keeps a sorted list sorted |
| CueList.InsertPosUnique | Animator/ViewModels/AnimationViewModel.cs:84-95 | the insertion point is the only index splitting the list into ≤ c and > c |
| CueList.RemoveKeepsSorted | Animator/ViewModels/AnimationViewModel.cs:98-101 | removing any cue keeps a sorted list sorted |
| CueList.InsertAfterEqual | Animator/ViewModels/AnimationViewModel.cs:86 | a new cue goes after every existing cue equal to it |
| CueMath.CalculateCueAsWritten | Animator/ViewModels/AnimationViewModel.cs:66-72 | the written cue is NaN exactly when the track width is 0 and X is on the left margin, otherwise it is finite and in [0, 1] |
| CueMath.ZeroTrackWidthYieldsNaN | Animator/Controls/Timeline.cs:59-65 | width 40, margins 20 and 20, X 20 give NaN |
| CueMath.CalculateCue | Animator/ViewModels/AnimationViewModel.cs:66-72 | the cue for a pointer X always lies in [0, 1] |
| CueMath.CalculateCueMatchesAsWritten | Animator/Controls/Timeline.cs:59-65 | the corrected cue equals the written one whenever that one is not NaN, and is 0 where it is |
| CueMath.CalculateCueIsHundredths | Animator/ViewModels/AnimationViewModel.cs:14 | every cue produced is a whole number of hundredths (precision 2) |
| CueMath.CalculateCueMonotone | Animator/ViewModels/AnimationViewModel.cs:68-70 | with a positive track a pointer further right never gives a smaller cue |
| CueMath.CalculateCueExamples | Animator/ViewModels/AnimationViewModel.cs:38-41 | with width 220 and margins 20: X 20 → 0, 110 → 0.5, 120 → 0.56, 220 → 1, and X outside the track clamps to 0 or 1 |
| CueMath.CueRect | Animator/ViewModels/AnimationViewModel.cs:47-53 | a cue's rectangle is centred on the cue's column, has the cue size as width, and runs from the top to the bottom of the control |
| CueMath.CueRectCentreMapsBack | Animator/Controls/Timeline.cs:178-183 | the rectangle's centre maps back to the cue it was drawn for |
| CueMath.CueRectsFollowCueOrder | Animator/ViewModels/AnimationViewModel.cs:55-64 | rectangles of ordered cues are ordered left to right |
| AnimationViewModels.Cues | Animator/ViewModels/KeyFrameViewModel.cs:7-13 | the cue of every keyframe, in order |
| AnimationViewModels.CuesOfInsert | Animator/ViewModels/AnimationViewModel.cs:88 | inserting a keyframe inserts its cue |
| AnimationViewModels.CuesOfRemove | Animator/ViewModels/AnimationViewModel.cs:100 | removing a keyframe removes its cue |
| AnimationViewModels.AnimationViewModel.constructor | Animator/ViewModels/AnimationViewModel.cs:33-45 | no keyframes, no rectangles, drag index 0 |
| AnimationViewModels.AnimationViewModel.Invalidate | Animator/ViewModels/AnimationViewModel.cs:55-64 | one rectangle per keyframe, each the keyframe's cue rectangle |
| AnimationViewModels.AnimationViewModel.CalculateCue | Animator/ViewModels/AnimationViewModel.cs:66-72 | the cue lies in [0, 1] |
| AnimationViewModels.AnimationViewModel.AddCue | Animator/ViewModels/AnimationViewModel.cs:74-96 | inserts a keyframe with the cue at the insertion point and returns its index; a sorted list stays sorted |
| AnimationViewModels.AnimationViewModel.RemoveCue | Animator/ViewModels/AnimationViewModel.cs:98-101 | removes the keyframe at the index; sortedness kept |
| AnimationViewModels.AnimationViewModel.BeginMoveCue | Animator/ViewModels/AnimationViewModel.cs:103-106 | records the dragged index |
| AnimationViewModels.AnimationViewModel.MoveCue | Animator/ViewModels/AnimationViewModel.cs:108-113 | removes the dragged keyframe and reinserts the pointer's cue, count unchanged, index following it; sortedness kept |
| AnimationViewModels.AnimationViewModel.HitTest | Animator/ViewModels/AnimationViewModel.cs:115-126 | index of the first cue rectangle containing the point, or -1 |
| CueTimeline.Timeline.constructor | Animator/Controls/Timeline.cs:27-44 | empty cues, no drag, zero bounds, invariant established |
| CueTimeline.Timeline.HitTestCue | Animator/Controls/Timeline.cs:46-57 | index of the first cue rectangle containing the point, or -1 |
| CueTimeline.Timeline.CalculateCue | Animator/Controls/Timeline.cs:59-65 | the cue lies in [0, 1] |
| CueTimeline.Timeline.AddCue | Animator/Controls/Timeline.cs:67-87 | inserts the cue at the insertion point and returns its index; a sorted list stays sorted |
| CueTimeline.Timeline.MoveCue | Animator/Controls/Timeline.cs:89-94 | removes the dragged cue and reinserts the pointer's cue; index follows it; sortedness kept |
| CueTimeline.Timeline.UpdateCueRects | Animator/Controls/Timeline.cs:167-183 | one rectangle per cue below the 20-unit text area, reaching the bottom of the control |
| CueTimeline.Timeline.SetBounds | Animator/Controls/Timeline.cs:43 | a bounds change records the new size and relays out one cue rectangle per cue for it |
| CueTimeline.Timeline.PointerPressed | Animator/Controls/Timeline.cs:96-119 | outside the margins nothing changes; on a cue a drag starts with the Hand cursor; elsewhere the cue is added and rectangles relaid out, without a drag |
| CueTimeline.Timeline.AddCueUnder | Animator/Controls/Timeline.cs:114-117 | a press off every marker inserts the pointer's cue at its insertion point and keeps the invariant |
| CueTimeline.Timeline.PointerReleased | Animator/Controls/Timeline.cs:121-128 | ends a drag and resets the cursor; otherwise leaves the cursor |
| CueTimeline.Timeline.PointerMoved | Animator/Controls/Timeline.cs:130-160 | while dragging moves the cue; otherwise sets Hand over a cue, Default outside the margins and Cross between them |
| CueTimeline.Timeline.PointerLeave | Animator/Controls/Timeline.cs:162-165 | cursor back to Default |
| DemoTimeline.CursorFor | TimeLineDemo/Controls/Timeline.cs:154-176 | each cursor exactly for its regions: Default for none, SizeWestEast for a cue, Cross for the background with Control, Hand otherwise |
| DemoTimeline.BackgroundMove | TimeLineDemo/Controls/Timeline.cs:244-253 | the left edge follows the pointer within half a unit, or stays when it would go negative |
| DemoTimeline.BackgroundMoveWholeDelta | TimeLineDemo/Controls/Timeline.cs:246-252 | a whole-unit delta moves the left edge exactly, unless it would go negative |
| DemoTimeline.LeftGripMoveAsWritten | TimeLineDemo/Controls/Timeline.cs:255-265 | written left-grip move: left and width each rounded separately |
| DemoTimeline.LeftGripAsWrittenMovesRightEdge | TimeLineDemo/Controls/Timeline.cs:259-263 | left 1, width 2, delta 0.5 give left 2, width 2: the right edge moves |
| DemoTimeline.LeftGripMove | TimeLineDemo/Controls/Timeline.cs:255-265 | corrected left-grip move: the right edge stays put, the left edge follows the pointer within half a unit |
| DemoTimeline.LeftGripMoveMatchesAsWritten | TimeLineDemo/Controls/Timeline.cs:257-264 | for whole-unit deltas the corrected and written moves agree |
| DemoTimeline.RightGripMove | TimeLineDemo/Controls/Timeline.cs:267-271 | the width follows the pointer within half a unit |
| DemoTimeline.RightGripMoveWholeDelta | TimeLineDemo/Controls/Timeline.cs:269-270 | a whole-unit delta changes the width exactly |
| DemoTimeline.Timeline.constructor | TimeLineDemo/Controls/Timeline.cs:26-42 | a fresh empty animation, no drag, hit result None, Default cursor; the Bounds subscription lays the rectangles out at once for the empty bounds |
| DemoTimeline.Timeline.HitTest | TimeLineDemo/Controls/Timeline.cs:44-73 | Cue exactly when some cue rectangle contains the point, then left grip, right grip, background; index only for a cue |
| DemoTimeline.Timeline.UpdateRects | TimeLineDemo/Controls/Timeline.cs:75-96 | background between the margins of Bounds.Width, grips at both ends of the given width, one cue rectangle per keyframe; the three bands tile the width exactly when it is Bounds.Width |
| DemoTimeline.Timeline.SetBounds | TimeLineDemo/Controls/Timeline.cs:41 | a bounds change records the new size and lays out the background and both grips for it |
| DemoTimeline.Timeline.PressRegion | TimeLineDemo/Controls/Timeline.cs:104-126 | a left press on a region starts its drag and keeps every rectangle; a right press on a cue removes it and lays everything out again for the bounds; any other press keeps every rectangle |
| DemoTimeline.Timeline.PressTrack | TimeLineDemo/Controls/Timeline.cs:128-151 | a middle press, or a left press with Control, between the margins adds a cue, starts dragging it and lays the rectangles out again for the bounds; otherwise nothing changes |
| DemoTimeline.Timeline.AddDraggedCue | TimeLineDemo/Controls/Timeline.cs:140-149 | the pointer's cue is inserted at its insertion point, becomes the dragged cue, the drag starts with the SizeWestEast cursor, and the rectangles are laid out again for the bounds |
| DemoTimeline.Timeline.PointerPressed | TimeLineDemo/Controls/Timeline.cs:98-152 | the region part and then the track part of a press: keyframes, drag state, cursor, and the rectangles (a new layout after a removal or an added cue, the old ones otherwise) |
| DemoTimeline.Timeline.PointerReleased | TimeLineDemo/Controls/Timeline.cs:178-185 | ends a drag and resets the cursor |
| DemoTimeline.Timeline.PointerMoved | TimeLineDemo/Controls/Timeline.cs:187-242 | a cue drag moves the cue; a background drag moves left; a left-grip drag keeps left + width; a right-grip drag changes width; cue and background drags lay out for Bounds.Width, grip drags for the new Width; a drag keeps the cursor, and only a cue drag changes the drag index; a hover keeps every rectangle; a stale cue index is reported and changes nothing |
| DemoTimeline.Timeline.DragCue | TimeLineDemo/Controls/Timeline.cs:200-206 | the dragged keyframe is taken out and the pointer's cue put back at its insertion point, which becomes the drag index; the rectangles are laid out again for the bounds; the invariant is kept |
| DemoTimeline.Timeline.MoveBackground | TimeLineDemo/Controls/Timeline.cs:244-253 | the left edge follows `BackgroundMove`, the rectangles are laid out again for the bounds, and the drag restarts at the pointer |
| DemoTimeline.Timeline.MoveLeftGrip | TimeLineDemo/Controls/Timeline.cs:255-265 | left and width follow the corrected `LeftGripMove`, so left + width is unchanged; grips and markers are laid out again for the new width |
| DemoTimeline.Timeline.MoveRightGrip | TimeLineDemo/Controls/Timeline.cs:267-271 | the width follows `RightGripMove`, grips and markers are laid out again for the new width, and the drag restarts at the pointer |
| DemoTimeline.Timeline.Hover | TimeLineDemo/Controls/Timeline.cs:234-241 | without a drag the cursor becomes the one for the region under the pointer, and stays when there is none |
| DemoTimeline.Timeline.PointerLeave | TimeLineDemo/Controls/Timeline.cs:273-276 | cursor back to Default, drag state untouched |
| Clocks.FirstPulseSetsBaseline | Animator/Clocks/ClockBase1.cs:27-31 | the first pulse zeroes the clock whatever the state and publishes 0 |
| Clocks.ReplayAddsActiveTime | Animator/Clocks/ClockBase1.cs:32-42 | after a baseline, internal time grows by exactly the unpaused elapsed system time |
| Clocks.UnpausedTimeTelescopes | Animator/Clocks/ClockBase1.cs:39-41 | without pauses the internal time advances by last pulse minus baseline |
| Clocks.PausedClockFreezes | Animator/Clocks/ClockBase1.cs:34-38 | paused pulses neither advance the clock nor publish |
| Clocks.ReplayAppend | Animator/TimelineClock.cs:29-54 | pulsing a + b equals pulsing a and then b, emissions concatenated |
| Clocks.EmissionsNonDecreasing | Animator/Clocks/ClockBase1.cs:25-50 | with non-decreasing system times, published times never decrease |
| Clocks.PauseDoesNotDrift | Animator/Clocks/ClockBase1.cs:34-41 | pulses at 100, 110, paused 120, 125 give time 15 and publish 0, 10, 15 |
| Clocks.Publish | Animator/Clocks/ClockBase1.cs:44-49 | a published pulse emits the time, followed by the Stop hook exactly in the Stop state |
| Clocks.Subscription.constructor | Animator/Clocks/Clock1.cs:20 | the subscription to the parent is active |
| Clocks.Subscription.Dispose | Animator/Clocks/Clock1.cs:25 | the subscription is no longer active |
| Clocks.Clock.constructor | Animator/Clocks/Clock1.cs:13-21 | Run state, no baseline, time 0; subscribed exactly when a parent is given |
| Clocks.Clock.WithParent | Animator/TimelineClock.cs:97-100 | the older clock always subscribes to its parent |
| Clocks.Clock.SetPlayState | Animator/Clocks/ClockBase1.cs:23 | sets the play state |
| Clocks.Clock.StopHook | Animator/Clocks/Clock1.cs:23-26 | disposes the parent subscription when there is one |
| Clocks.Clock.Pulse | Animator/Clocks/ClockBase1.cs:25-50 | the new times follow the pulse rule; a pulse not swallowed by a pause publishes the time and, in the Stop state, disposes the parent subscription |
| Clocks.Clock.Step | Animator/Clocks/ClockBase1.cs:52-62 | sets the time outright, publishes it, and stops in the Stop state; the baseline is kept |
| ManualClock.Broadcast | Animator/Clocks/TimelineClock.cs:26 | one OnNext per observer, in subscription order |
| ManualClock.Completions | Animator/Clocks/TimelineClock.cs:21 | one OnCompleted per observer, in subscription order |
| ManualClock.BroadcastAfterSubscribe | Animator/TimelineClock.cs:125-140 | a new subscriber receives the next broadcast after all earlier ones |
| ManualClock.RunningTimesAccumulate | Animator/Clocks/TimelineClock.cs:29-33 | after k pulses the clock shows the start plus the sum of the first k spans |
| ManualClock.RunningTimesNonDecreasing | Animator/TimelineClock.cs:130-134 | with non-negative spans the time never goes back |
| ManualClock.TimelineClock.constructor | Animator/Clocks/TimelineClock.cs:12-17 | time 0, no observers, Run |
| ManualClock.TimelineClock.SetPlayState | Animator/TimelineClock.cs:118 | sets the play state |
| ManualClock.TimelineClock.Dispose | Animator/Clocks/TimelineClock.cs:19-22 | completes every observer |
| ManualClock.TimelineClock.Step | Animator/Clocks/TimelineClock.cs:24-27 | sends the given time to every observer, leaving its own time |
| ManualClock.TimelineClock.Pulse | Animator/Clocks/TimelineClock.cs:29-33 | adds the span to its time and sends the new time to every observer |
| ManualClock.TimelineClock.Subscribe | Animator/Clocks/TimelineClock.cs:35-39 | appends the observer and returns the clock itself |
| AnimationControllers.ToggleOutcome | Animator/Views/AnimationController.cs:44-79 | Manual changes nothing; Auto flips playing and sets Run exactly when now playing |
| AnimationControllers.ToggleTwiceRestores | Animator/Views/AnimationController.cs:56-77 | from a consistent state two toggles restore it |
| AnimationControllers.ToggleTwiceFromConstruction | Animator/Views/AnimationController.cs:30-32 | from the constructed state (not playing, Run) two toggles leave the clock paused, not back in Run |
| AnimationControllers.AnimationController.constructor | Animator/Views/AnimationController.cs:28-36 | Auto mode, not playing, a fresh Run clock on the global clock, an empty timeline clock, no animations |
| AnimationControllers.AnimationController.TogglePlaybackMode | Animator/Views/AnimationController.cs:44-79 | playing flag and clock state follow the toggle outcome |
| AnimationControllers.AnimationController.CreateAnimation1 | Animator/Views/AnimationController.cs:81-115 | a 2-second animation with keyframes at 0 and 2 s |
| AnimationControllers.AnimationController.CreateAnimation2 | Animator/Views/AnimationController.cs:117-153 | a 2-second animation with keyframes at 0 and 2 s |
| AnimationControllers.AnimationController.RunAnimation1 | Animator/Views/AnimationController.cs:155-160 | runs the first animation on the target when it exists, else nothing |
| AnimationControllers.AnimationController.RunAnimation2 | Animator/Views/AnimationController.cs:162-167 | runs the second animation on the target when it exists, else nothing |
| AnimationControllers.AnimationController.Play | Animator/Views/AnimationController.cs:169-175 | playing, clock in Run |
| ViewModelConverter.Digit | Animator/Services/ViewModelConverter.cs:12 | a digit value prints as a decimal digit character |
| ViewModelConverter.Decimal | Animator/Services/ViewModelConverter.cs:18 | a number prints as at least one decimal digit |
| ViewModelConverter.Zeros | Animator/Services/ViewModelConverter.cs:18 | k zero characters |
| ViewModelConverter.DecimalValue | Animator/Services/ViewModelConverter.cs:12 | the printed digits read back as the number, and only 0 prints with a leading zero |
| ViewModelConverter.PaddedValue | Animator/Services/ViewModelConverter.cs:12 | zero padding keeps the value read back |
| ViewModelConverter.Padded | Animator/Services/ViewModelConverter.cs:12 | zero-padded digits at least the given width long |
| ViewModelConverter.ClockText | Animator/Services/ViewModelConverter.cs:12 | the hh:mm:ss part uses digits and ':' only |
| ViewModelConverter.FractionText | Animator/Services/ViewModelConverter.cs:12 | the fraction part uses digits and '.' only |
| ViewModelConverter.DaysText | Animator/Services/ViewModelConverter.cs:12 | the days part uses digits and '.' only |
| ViewModelConverter.FormatTimeSpan | Animator/Services/ViewModelConverter.cs:12 | a TimeSpan prints using digits, ':', '.' and '-' only |
| ViewModelConverter.FormatTimeSpanHasNoQuote | Animator/Services/ViewModelConverter.cs:18 | a printed TimeSpan never ends the attribute it sits in |
| ViewModelConverter.FormatWholeSeconds | Animator/Demo.cs:32-33 | 0 prints as 00:00:00 and 2 s as 00:00:02 |
| ViewModelConverter.FormatFraction | Animator/Services/ViewModelConverter.cs:12 | 1.5 s prints as 00:00:01.5000000 |
| ViewModelConverter.SetterLines | Animator/Services/ViewModelConverter.cs:22-26 | one setter line per setter, in order |
| ViewModelConverter.AppendSetters | Animator/Services/ViewModelConverter.cs:43-50 | appends the setter lines, none for a missing collection |
| ViewModelConverter.KeyFrameToXaml | Animator/Services/ViewModelConverter.cs:18-29 | appends the keyframe's open line, its setters and its close line |
| ViewModelConverter.AppendKeyFrames | Animator/Services/ViewModelConverter.cs:14-31 | appends every keyframe in order, none for a missing collection |
| ViewModelConverter.AnimationToXaml | Animator/Services/ViewModelConverter.cs:10-34 | appends the animation's open line, its keyframes and its close line |
| ViewModelConverter.AppendAnimations | Animator/Services/ViewModelConverter.cs:54-60 | appends every animation in order, none for a missing collection |
| ViewModelConverter.StyleToXaml | Animator/Services/ViewModelConverter.cs:36-68 | the written text is exactly the style's line specification |
| ViewModelConverter.StyleLinesFrame | Animator/Services/ViewModelConverter.cs:41-64 | the first line opens the style and the setters follow it; the animations element opens after them and closes next to last; the style closes last |
| ViewModelConverter.KeyFramesLineCount | Animator/Services/ViewModelConverter.cs:16-30 | the keyframes take the sum of 2 + setters lines each |
| ViewModelConverter.AnimationsLineCount | Animator/Services/ViewModelConverter.cs:56-59 | the animations take the sum of 2 + keyframe lines each |
| ViewModelConverter.StyleLineCount | Animator/Services/ViewModelConverter.cs:36-68 | a style takes 4 lines plus its setters plus its animations' lines |
| ViewModelConverter.DemoStyleLineCount | Animator/Demo.cs:17-58 | the demo's own style (Opacity 1.0; keyframes at 0 s and 2 s setting Opacity 1.0/0.0 and RotateTransform.Angle 0/360) writes exactly these 15 lines, in order |
| ViewModelConverter.DemoShapeLines | Animator/Services/ViewModelConverter.cs:36-68 | a style with one setter and one animation of two two-setter keyframes writes its open line, setter, animation and keyframe lines and closing lines in that order |
| ViewModelConverter.DemoStyleText | Animator/Demo.cs:22-47 | the demo selector is Rectangle.animation, and its delay, duration and key times print as 00:00:00, 00:00:02, 00:00:00 and 00:00:02 |
| ViewModelConverter.IndentUnfolds | Animator/Services/ViewModelConverter.cs:38 | n-fold indentation is n copies of the tab |
| ViewModelConverter.KeyFrameIndentation | Animator/Services/ViewModelConverter.cs:18-29 | keyframe lines begin with three tabs, and their setter lines with four |
| ViewModelConverter.KeyFramesIndentation | Animator/Services/ViewModelConverter.cs:16-30 | all keyframe lines are indented at least three tabs |
| ViewModelConverter.AnimationIndentation | Animator/Services/ViewModelConverter.cs:12-33 | animation lines are indented at least two tabs, and their keyframes three |
| ViewModelConverter.NormalizeKeyFrames | Animator/Services/ViewModelConverter.cs:20 | each keyframe with a missing setters collection replaced by an empty one |
| ViewModelConverter.NormalizeAnimations | Animator/Services/ViewModelConverter.cs:14 | each animation with a missing keyframes collection replaced by an empty one |
| ViewModelConverter.NormalizeKeyFramesLines | Animator/Services/ViewModelConverter.cs:20-27 | a missing setters collection writes the same as an empty one |
| ViewModelConverter.NormalizeAnimationsLines | Animator/Services/ViewModelConverter.cs:14-31 | a missing keyframes collection writes the same as an empty one |
| ViewModelConverter.MissingCollectionsWriteAsEmpty | Animator/Services/ViewModelConverter.cs:43-60 | a style writes the same with its missing collections made empty |
| ViewModelConverter.SetterLineIsVerbatim | Animator/Services/ViewModelConverter.cs:47-48 | a setter's property and value appear unescaped at fixed offsets in its line |

## Left out

- Drawing is not modelled: `Render`, `Draw`, the cue labels, brushes and corner radii. They produce pixels and no state.
- Avalonia event routing is not modelled. The pointer handlers are methods taking the position and the pressed buttons and modifiers. The `Bounds` subscription is the `SetBounds` methods.
- `InvalidateVisual` is not modelled.
- Cursors are the enumeration `Geometry.Cursor`, not cursor objects.
- `ViewModelConverter.ToStyle` is not modelled: it hands the text to the XAML runtime loader, which is not part of this model.
- `AnimationControllerClock` is not modelled: its base class is not part of this model.
- `Animation.RunAsync`, interpolation and easing are not modelled. `RunAnimation1`/`RunAnimation2` only record the run started, and `CreateAnimation1`/`CreateAnimation2` keep only the duration and key times; setters, easing, iteration and direction are dropped.
- The observables are reduced to logs:
  - The Rx publish/ref-count plumbing and `HasSubscriptions` are not modelled.
  - A clock's emissions are a ghost event log, whether or not anyone subscribed.
  - A timeline clock's observers are numbers, and their notifications are a ghost log.
- The global clock lookup through the service locator is a parameter. `Clock1()` is `Clocks.Clock.constructor` applied to it.
- Floating-point rounding error is not modelled: doubles are exact reals. The only IEEE special values modelled are those a zero divisor produces in `CalculateCue`.
- TimeSpan is a tick count of unbounded size. Its 64-bit overflow is not modelled.
- `Canvas.Left` and the widget's `Width` are integer fields of the demo widget, `left` and `width`. Both are doubles in the source, and both are NaN by default until set; the grip drags read `Width` and lay out for it. The NaN defaults and the layout system's rejection of negative widths are not modelled. `width` is a constructor argument.
- A keyframe is a value (`AnimationViewModels.KeyFrame`), so aliasing of keyframe objects shared with other code is not modelled.
- Outside code can replace the public `KeyFrames` collection and can mutate the `Cues` list. That is not modelled; only the class's own methods change them.
- The `Name` properties of the view models are not modelled: the writer never prints them.
- Lines are not joined with the platform newline: the writer's output is its sequence of lines.
- Rounding.RoundHalfEven: the contract states the half-unit bound only. The ties-to-even rule is stated by the body and used through `RoundHalfEvenOfInteger`, `RoundHalfEvenMonotone` and `LeftGripAsWrittenMovesRightEdge`.
- ViewModelConverter.FormatTimeSpan: the contract states the character set only. The exact text is fixed by `FormatWholeSeconds` and `FormatFraction` on sample values.
- AnimationViewModels.AnimationViewModel.CalculateCue: uses the corrected `CueMath.CalculateCue` (see Findings), so it returns 0 where the source returns NaN (no track width, X on the left margin). The keyframe list's sortedness invariant relies on this: a NaN cue inserted by the source would leave the list unordered.
- CueTimeline.Timeline.CalculateCue: uses the corrected `CueMath.CalculateCue`, as above; the source's NaN cue for a zero-width track is not produced, and the cue list's sortedness invariant relies on that.
- DemoTimeline.Timeline.MoveLeftGrip: uses the corrected `LeftGripMove` (see Findings), which keeps the right edge fixed. The source rounds left and width separately, so on a half-unit delta its right edge can move (left 1, width 2, delta 0.5 gives left 2, width 2 in the source, left 2, width 1 here).
- DemoTimeline.Timeline.PointerMoved: the left-grip branch inherits the corrected `LeftGripMove` from `MoveLeftGrip`, so its promise that left + width is unchanged holds for the model, not for the source on half-unit deltas.
- DemoTimeline.Timeline.PointerMoved: in the source, a stale cue index makes `List.RemoveAt` throw. The model reports that case through `faulted` and changes nothing. The stale index arises when a right press removes a cue during a cue drag.
- AnimationControllers.AnimationController.constructor: the controller starts not playing while its clock is in Run, the enumeration's default. The model keeps this as written. `ToggleTwiceFromConstruction` shows the consequence: the first toggle starts playing, so the clock stays in Run.

## Findings

| source | as written | input that shows it | evidently intended | confidence | as-written member | corrected member |
|---|---|---|---|---|---|---|
| Animator/ViewModels/AnimationViewModel.cs:66-72 | the cue is (X − left margin) / (width − both margins), rounded and clamped; with no track width and X on the left margin this is 0/0, and NaN passes through `Math.Round` and `Math.Clamp` | width 40, margins 20 and 20, X 20 | a cue in [0, 1] (here 0) | not executed; medium | CueMath.CalculateCueAsWritten | CueMath.CalculateCue |
| TimeLineDemo/Controls/Timeline.cs:255-265 | the left-grip drag rounds the new left edge and the new width separately, each with ties to even | left 1, width 2, delta 0.5: left becomes 2 and width 2, so the right edge moves from 3 to 4 | the right edge stays fixed while the left grip moves | not executed; medium | DemoTimeline.LeftGripMoveAsWritten | DemoTimeline.LeftGripMove |
