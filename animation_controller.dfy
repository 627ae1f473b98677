/**
 * The controller behind the editor's play button: it owns the playback
 * clock and the manual timeline clock, holds up to two demo animations, and
 * toggles playback by pausing or resuming the playback clock.
 */
module AnimationControllers {
  import opened Wrappers
  import opened Clocks
  import ManualClock

  datatype PlaybackMode = Manual | Auto

  /** A demo animation, reduced to its timing: its duration and the key time of each keyframe, in ticks. */
  datatype AnimationDefinition = AnimationDefinition(duration: int, keyTimes: seq<int>)

  /** Both demo animations last two seconds, with a keyframe at the start and one at the end. */
  const DemoAnimation: AnimationDefinition := AnimationDefinition(2 * TicksPerSecond, [0, 2 * TicksPerSecond])

  /** A started run: which animation, on which target (by identity), driven by the playback clock. */
  datatype AnimationRun = AnimationRun(animation: AnimationDefinition, target: nat)

  /** The playing flag and the clock's play state after one toggle. */
  function ToggleOutcome(mode: PlaybackMode, isPlaying: bool, state: PlayState): (r: (bool, PlayState))
    ensures mode == Manual ==> r == (isPlaying, state)
    ensures mode == Auto ==> r.0 == !isPlaying && (r.0 <==> r.1 == Run)
    ensures mode == Auto ==> r.1 != Stop
  {
    match mode
    case Manual => (isPlaying, state)
    case Auto => if isPlaying then (false, Pause) else (true, Run)
  }

  /** Two toggles restore both fields whenever the clock is running exactly while the controller says it is playing. */
  lemma ToggleTwiceRestores(mode: PlaybackMode, isPlaying: bool, state: PlayState)
    requires mode == Manual || state == (if isPlaying then Run else Pause)
    ensures var once := ToggleOutcome(mode, isPlaying, state);
      ToggleOutcome(mode, once.0, once.1) == (isPlaying, state)
  {
  }

  /**
   * A new controller is not playing while its clock is in Run, so two
   * toggles from there leave the clock paused, not running.
   */
  lemma ToggleTwiceFromConstruction()
    ensures var once := ToggleOutcome(Auto, false, Run);
      ToggleOutcome(Auto, once.0, once.1) == (false, Pause)
  {
  }

  class AnimationController {
    const playbackMode: PlaybackMode
    var isPlaying: bool
    const playbackClock: Clock
    const timelineClock: ManualClock.TimelineClock
    var animation1: Option<AnimationDefinition>
    var animation2: Option<AnimationDefinition>
    ghost var runs: seq<AnimationRun>

    /** Auto mode, not playing; the playback clock's parent is the global clock, when there is one. */
    constructor (globalClock: Option<nat>)
      ensures playbackMode == Auto && !isPlaying
      ensures fresh(playbackClock) && playbackClock.playState == Run && playbackClock.events == []
      ensures globalClock.Some? <==> playbackClock.parentSubscription.Some?
      ensures fresh(timelineClock) && timelineClock.observers == [] && timelineClock.curTime == 0
      ensures animation1 == None && animation2 == None && runs == []
    {
      playbackMode := Auto;
      isPlaying := false;
      playbackClock := new Clock(globalClock);
      timelineClock := new ManualClock.TimelineClock();
      animation1 := None;
      animation2 := None;
      runs := [];
    }

    /**
     * In Auto mode, pauses a playing clock or resumes a stopped one and
     * flips the playing flag to match; in Manual mode does nothing.
     */
    method TogglePlaybackMode()
      modifies this`isPlaying, playbackClock`playState
      ensures (isPlaying, playbackClock.playState) == ToggleOutcome(playbackMode, old(isPlaying), old(playbackClock.playState))
      ensures playbackMode == Auto ==> isPlaying == !old(isPlaying) && (isPlaying <==> playbackClock.playState == Run)
      ensures playbackMode == Manual ==> isPlaying == old(isPlaying) && playbackClock.playState == old(playbackClock.playState)
    {
      match playbackMode
      case Manual =>
      case Auto =>
        if isPlaying {
          playbackClock.SetPlayState(Pause);
          isPlaying := false;
        } else {
          playbackClock.SetPlayState(Run);
          isPlaying := true;
        }
    }

    method CreateAnimation1()
      modifies this`animation1
      ensures animation1 == Some(DemoAnimation)
    {
      animation1 := Some(DemoAnimation);
    }

    method CreateAnimation2()
      modifies this`animation2
      ensures animation2 == Some(DemoAnimation)
    {
      animation2 := Some(DemoAnimation);
    }

    /** Starts the first animation on the target, or does nothing before it is created. */
    method RunAnimation1(target: nat)
      modifies this`runs
      ensures animation1.None? ==> runs == old(runs)
      ensures animation1.Some? ==> runs == old(runs) + [AnimationRun(animation1.value, target)]
    {
      if animation1.Some? {
        runs := runs + [AnimationRun(animation1.value, target)];
      }
    }

    /** Starts the second animation on the target, or does nothing before it is created. */
    method RunAnimation2(target: nat)
      modifies this`runs
      ensures animation2.None? ==> runs == old(runs)
      ensures animation2.Some? ==> runs == old(runs) + [AnimationRun(animation2.value, target)]
    {
      if animation2.Some? {
        runs := runs + [AnimationRun(animation2.value, target)];
      }
    }

    /** Runs the clock and marks the controller playing, whatever it was doing; so a second call changes nothing. */
    method Play()
      modifies this`isPlaying, playbackClock`playState
      ensures isPlaying && playbackClock.playState == Run
    {
      playbackClock.SetPlayState(Run);
      isPlaying := true;
    }
  }
}
