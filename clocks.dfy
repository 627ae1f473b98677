/**
 * The playback clock: a clock driven by its parent's pulses of system time.
 * It keeps its own time, which advances by the system time elapsed between
 * pulses while playing, stands still while paused, and can be set outright.
 * Every new time is published to the clock's subscribers; when the play state
 * is Stop, the clock then runs its Stop hook, which disposes its subscription
 * to the parent. Times are TimeSpan ticks, so all arithmetic is on integers.
 */
module Clocks {
  import opened Wrappers

  /** A TimeSpan tick is 100 nanoseconds. */
  const TicksPerSecond: int := 10000000
  const TicksPerMinute: int := 60 * TicksPerSecond
  const TicksPerHour: int := 60 * TicksPerMinute
  const TicksPerDay: int := 24 * TicksPerHour

  /** The animation play state; a new clock starts in Run, the enum's first value. */
  datatype PlayState = Run | Pause | Stop

  /** The two time fields of a clock: the last system time seen (none before the first pulse) and its own time. */
  datatype Timing = Timing(previous: Option<int>, internal: int)

  /** Whether a pulse publishes: the first pulse always does, later ones unless the clock is paused. */
  predicate PulseEmits(s: Timing, state: PlayState)
  {
    s.previous.None? || state != Pause
  }

  /** The time fields after a pulse at system time t. */
  function PulseTiming(s: Timing, state: PlayState, t: int): Timing
  {
    if s.previous.None? then Timing(Some(t), 0)
    else if state == Pause then Timing(Some(t), s.internal)
    else Timing(Some(t), s.internal + (t - s.previous.value))
  }

  /** One pulse from the parent: the play state at that moment and the system time it carries. */
  datatype Tick = Tick(state: PlayState, time: int)

  /** The time fields after a run of pulses. */
  function Replay(s: Timing, ticks: seq<Tick>): Timing
    decreases |ticks|
  {
    if |ticks| == 0 then s
    else Replay(PulseTiming(s, ticks[0].state, ticks[0].time), ticks[1..])
  }

  /** The times a run of pulses publishes, in order. */
  function Emissions(s: Timing, ticks: seq<Tick>): seq<int>
    decreases |ticks|
  {
    if |ticks| == 0 then []
    else
      var next := PulseTiming(s, ticks[0].state, ticks[0].time);
      (if PulseEmits(s, ticks[0].state) then [next.internal] else []) + Emissions(next, ticks[1..])
  }

  /** The system time that elapsed while not paused, counting each pulse from the one before it. */
  function ActiveTime(previous: int, ticks: seq<Tick>): int
    decreases |ticks|
  {
    if |ticks| == 0 then 0
    else (if ticks[0].state == Pause then 0 else ticks[0].time - previous) + ActiveTime(ticks[0].time, ticks[1..])
  }

  /** The first pulse sets the baseline, resets the clock's own time to zero and publishes zero, even when paused. */
  lemma FirstPulseSetsBaseline(internal: int, state: PlayState, t: int, rest: seq<Tick>)
    ensures Replay(Timing(None, internal), [Tick(state, t)] + rest) == Replay(Timing(Some(t), 0), rest)
    ensures Emissions(Timing(None, internal), [Tick(state, t)] + rest) == [0] + Emissions(Timing(Some(t), 0), rest)
  {
    assert ([Tick(state, t)] + rest)[1..] == rest;
  }

  /**
   * After the baseline, the clock's own time grows by exactly the system time
   * that elapsed while it was not paused, and the baseline follows the last pulse.
   */
  lemma {:induction false} ReplayAddsActiveTime(p: int, internal: int, ticks: seq<Tick>)
    ensures Replay(Timing(Some(p), internal), ticks).internal == internal + ActiveTime(p, ticks)
    ensures Replay(Timing(Some(p), internal), ticks).previous == Some(if |ticks| == 0 then p else ticks[|ticks| - 1].time)
    decreases |ticks|
  {
    if |ticks| > 0 {
      var next := PulseTiming(Timing(Some(p), internal), ticks[0].state, ticks[0].time);
      ReplayAddsActiveTime(ticks[0].time, next.internal, ticks[1..]);
    }
  }

  /** Without a pause, the elapsed time telescopes to last time minus baseline. */
  lemma {:induction false} UnpausedTimeTelescopes(p: int, ticks: seq<Tick>)
    requires forall k :: 0 <= k < |ticks| ==> ticks[k].state != Pause
    ensures ActiveTime(p, ticks) == if |ticks| == 0 then 0 else ticks[|ticks| - 1].time - p
    decreases |ticks|
  {
    if |ticks| > 0 {
      UnpausedTimeTelescopes(ticks[0].time, ticks[1..]);
    }
  }

  /** While paused after the baseline, the clock's own time stands still and nothing is published. */
  lemma {:induction false} PausedClockFreezes(p: int, internal: int, ticks: seq<Tick>)
    requires forall k :: 0 <= k < |ticks| ==> ticks[k].state == Pause
    ensures Replay(Timing(Some(p), internal), ticks).internal == internal
    ensures Emissions(Timing(Some(p), internal), ticks) == []
    decreases |ticks|
  {
    if |ticks| > 0 {
      PausedClockFreezes(ticks[0].time, internal, ticks[1..]);
    }
  }

  /** Running two stretches of pulses one after the other is running their concatenation. */
  lemma {:induction false} ReplayAppend(s: Timing, a: seq<Tick>, b: seq<Tick>)
    ensures Replay(s, a + b) == Replay(Replay(s, a), b)
    ensures Emissions(s, a + b) == Emissions(s, a) + Emissions(Replay(s, a), b)
    decreases |a|
  {
    if |a| == 0 {
      assert a + b == b;
    } else {
      assert (a + b)[1..] == a[1..] + b;
      ReplayAppend(PulseTiming(s, a[0].state, a[0].time), a[1..], b);
    }
  }

  /** System times that never go backwards, starting from the baseline p. */
  ghost predicate NonDecreasingFrom(p: int, ticks: seq<Tick>)
  {
    && (|ticks| > 0 ==> p <= ticks[0].time)
    && forall k :: 0 < k < |ticks| ==> ticks[k - 1].time <= ticks[k].time
  }

  /**
   * When system time never goes backwards, every published time is at least
   * the clock's current time and the published times never decrease.
   */
  lemma {:induction false} EmissionsNonDecreasing(p: int, internal: int, ticks: seq<Tick>)
    requires NonDecreasingFrom(p, ticks)
    ensures forall k :: 0 <= k < |Emissions(Timing(Some(p), internal), ticks)| ==>
      internal <= Emissions(Timing(Some(p), internal), ticks)[k]
    ensures forall j, k :: 0 <= j < k < |Emissions(Timing(Some(p), internal), ticks)| ==>
      Emissions(Timing(Some(p), internal), ticks)[j] <= Emissions(Timing(Some(p), internal), ticks)[k]
    decreases |ticks|
  {
    if |ticks| > 0 {
      var s := Timing(Some(p), internal);
      var next := PulseTiming(s, ticks[0].state, ticks[0].time);
      assert next.previous == Some(ticks[0].time) && internal <= next.internal;
      EmissionsNonDecreasing(ticks[0].time, next.internal, ticks[1..]);
      var head := if PulseEmits(s, ticks[0].state) then [next.internal] else [];
      var tail := Emissions(next, ticks[1..]);
      assert Emissions(s, ticks) == head + tail;
    }
  }

  /** A pause in the middle does not count: run 10 ticks, pause for 10, run 5 more, and the clock shows 15. */
  lemma PauseDoesNotDrift()
    ensures Replay(Timing(None, 0), [Tick(Run, 100), Tick(Run, 110), Tick(Pause, 120), Tick(Run, 125)]).internal == 15
    ensures Emissions(Timing(None, 0), [Tick(Run, 100), Tick(Run, 110), Tick(Pause, 120), Tick(Run, 125)]) == [0, 10, 15]
  {
    var ticks := [Tick(Run, 100), Tick(Run, 110), Tick(Pause, 120), Tick(Run, 125)];
    FirstPulseSetsBaseline(0, Run, 100, ticks[1..]);
    assert [Tick(Run, 100)] + ticks[1..] == ticks;
    ReplayAddsActiveTime(100, 0, ticks[1..]);
  }

  /** What the clock records: a published time, or a run of its Stop hook. */
  datatype ClockEvent = Emit(time: int) | StopHook

  /** A publish, followed by the Stop hook when the play state is Stop. */
  function Publish(state: PlayState, t: int): (r: seq<ClockEvent>)
    ensures |r| >= 1 && r[0] == Emit(t)
    ensures |r| == 2 <==> state == Stop
  {
    [Emit(t)] + (if state == Stop then [StopHook] else [])
  }

  /** A subscription to a parent clock; disposing it ends the parent's pulses. */
  class Subscription {
    const parent: nat
    var active: bool

    constructor (parent: nat)
      ensures this.parent == parent && active
    {
      this.parent := parent;
      active := true;
    }

    method Dispose()
      modifies this
      ensures !active
    {
      active := false;
    }
  }

  /**
   * A clock driven by a parent clock (identified by a number; the framework's
   * global clock is the parent of a clock made without one).
   */
  class Clock {
    var playState: PlayState
    var previousTime: Option<int>
    var internalTime: int
    const parentSubscription: Option<Subscription>
    ghost var events: seq<ClockEvent>

    /** The objects the Stop hook may change: the parent subscription, when there is one. */
    function Subscriptions(): set<object>
    {
      if parentSubscription.Some? then {parentSubscription.value} else {}
    }

    function State(): Timing
      reads this
    {
      Timing(previousTime, internalTime)
    }

    /** Subscribes to the parent when there is one; without a parent there is no subscription. */
    constructor (parent: Option<nat>)
      ensures playState == Run && previousTime == None && internalTime == 0 && events == []
      ensures parent.None? ==> parentSubscription.None?
      ensures parent.Some? ==>
        && parentSubscription.Some? && fresh(parentSubscription.value)
        && parentSubscription.value.parent == parent.value && parentSubscription.value.active
    {
      playState := Run;
      previousTime := None;
      internalTime := 0;
      events := [];
      if parent.Some? {
        var subscription := new Subscription(parent.value);
        parentSubscription := Some(subscription);
      } else {
        parentSubscription := None;
      }
    }

    /** The single-file variant: the parent is required and always subscribed to. */
    constructor WithParent(parent: nat)
      ensures playState == Run && previousTime == None && internalTime == 0 && events == []
      ensures parentSubscription.Some? && fresh(parentSubscription.value)
      ensures parentSubscription.value.parent == parent && parentSubscription.value.active
    {
      playState := Run;
      previousTime := None;
      internalTime := 0;
      events := [];
      var subscription := new Subscription(parent);
      parentSubscription := Some(subscription);
    }

    method SetPlayState(state: PlayState)
      modifies this`playState
      ensures playState == state
    {
      playState := state;
    }

    /** The Stop hook: disposes the parent subscription; without one it changes nothing else. */
    method StopHook()
      modifies this`events, Subscriptions()
      ensures events == old(events) + [ClockEvent.StopHook]
      ensures parentSubscription.Some? ==> !parentSubscription.value.active
    {
      events := events + [ClockEvent.StopHook];
      if parentSubscription.Some? {
        parentSubscription.value.Dispose();
      }
    }

    /**
     * A pulse of system time: the first one sets the baseline and zeroes the
     * clock; a later one moves the baseline and, unless paused, adds the
     * elapsed system time. A pulse that is not swallowed by a pause publishes
     * the new time and then, in the Stop state, runs the Stop hook.
     */
    method Pulse(systemTime: int)
      modifies this`previousTime, this`internalTime, this`events, Subscriptions()
      ensures State() == PulseTiming(old(State()), playState, systemTime)
      ensures previousTime == Some(systemTime)
      ensures old(previousTime).None? ==> internalTime == 0
      ensures old(previousTime).Some? && playState == Pause ==> internalTime == old(internalTime)
      ensures old(previousTime).Some? && playState != Pause ==>
        internalTime == old(internalTime) + (systemTime - old(previousTime).value)
      ensures PulseEmits(old(State()), playState) ==> events == old(events) + Publish(playState, internalTime)
      ensures !PulseEmits(old(State()), playState) ==> events == old(events)
      ensures parentSubscription.Some? && PulseEmits(old(State()), playState) && playState == Stop ==>
        !parentSubscription.value.active
      ensures parentSubscription.Some? && !(PulseEmits(old(State()), playState) && playState == Stop) ==>
        parentSubscription.value.active == old(parentSubscription.value.active)
    {
      if previousTime.None? {
        previousTime := Some(systemTime);
        internalTime := 0;
      } else {
        if playState == Pause {
          previousTime := Some(systemTime);
          return;
        }
        var delta := systemTime - previousTime.value;
        internalTime := internalTime + delta;
        previousTime := Some(systemTime);
      }
      events := events + [Emit(internalTime)];
      if playState == Stop {
        StopHook();
      }
    }

    /**
     * Sets the clock's own time outright, whatever the play state, and
     * publishes it; in the Stop state it then runs the Stop hook.
     */
    method Step(time: int)
      modifies this`internalTime, this`events, Subscriptions()
      ensures internalTime == time && previousTime == old(previousTime)
      ensures events == old(events) + Publish(playState, time)
      ensures parentSubscription.Some? && playState == Stop ==> !parentSubscription.value.active
      ensures parentSubscription.Some? && playState != Stop ==>
        parentSubscription.value.active == old(parentSubscription.value.active)
    {
      internalTime := time;
      events := events + [Emit(internalTime)];
      if playState == Stop {
        StopHook();
      }
    }
  }
}
