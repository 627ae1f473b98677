/**
 * The manual timeline clock: the application drives it directly. A pulse
 * adds a span to its running time and sends the new time to every observer;
 * a step sends a given time without touching the running time; disposing it
 * tells every observer the sequence is complete. Observers are only ever
 * appended, and each is notified in subscription order. Times are ticks.
 */
module ManualClock {
  import opened Clocks

  /** An observer, by identity; the same observer subscribed twice is notified twice. */
  type ObserverId = nat

  /** What an observer receives. */
  datatype Notification = OnNext(observer: ObserverId, time: int) | OnCompleted(observer: ObserverId)

  /** The time t sent to each observer, in subscription order. */
  function Broadcast(observers: seq<ObserverId>, t: int): (r: seq<Notification>)
    ensures |r| == |observers|
    ensures forall i :: 0 <= i < |observers| ==> r[i] == OnNext(observers[i], t)
  {
    seq(|observers|, i requires 0 <= i < |observers| => OnNext(observers[i], t))
  }

  /** Completion sent to each observer, in subscription order. */
  function Completions(observers: seq<ObserverId>): (r: seq<Notification>)
    ensures |r| == |observers|
    ensures forall i :: 0 <= i < |observers| ==> r[i] == OnCompleted(observers[i])
  {
    seq(|observers|, i requires 0 <= i < |observers| => OnCompleted(observers[i]))
  }

  /** A newly subscribed observer gets the next broadcast after everyone subscribed before it. */
  lemma BroadcastAfterSubscribe(observers: seq<ObserverId>, o: ObserverId, t: int)
    ensures Broadcast(observers + [o], t) == Broadcast(observers, t) + [OnNext(o, t)]
  {
  }

  /** The running times a sequence of pulses produces from a start time: the partial sums. */
  function RunningTimes(start: int, spans: seq<int>): (r: seq<int>)
    ensures |r| == |spans|
    decreases |spans|
  {
    if |spans| == 0 then []
    else [start + spans[0]] + RunningTimes(start + spans[0], spans[1..])
  }

  function Sum(spans: seq<int>): int
    decreases |spans|
  {
    if |spans| == 0 then 0 else spans[0] + Sum(spans[1..])
  }

  /** After a run of pulses the clock shows the start time plus every span, and each step's time is the total so far. */
  lemma {:induction false} RunningTimesAccumulate(start: int, spans: seq<int>)
    ensures |spans| > 0 ==> RunningTimes(start, spans)[|spans| - 1] == start + Sum(spans)
    ensures forall k :: 0 <= k < |spans| ==> RunningTimes(start, spans)[k] == start + Sum(spans[..k + 1])
    decreases |spans|
  {
    if |spans| > 0 {
      RunningTimesAccumulate(start + spans[0], spans[1..]);
      assert spans[..1] == [spans[0]];
      assert Sum([spans[0]]) == spans[0] + Sum([]);
      forall k | 1 <= k < |spans|
        ensures RunningTimes(start, spans)[k] == start + Sum(spans[..k + 1])
      {
        assert spans[..k + 1][1..] == spans[1..][..k];
      }
      if |spans| > 1 {
        assert spans[..|spans|] == spans;
      }
    }
  }

  /** With spans that are never negative the times sent never go backwards. */
  lemma {:induction false} RunningTimesNonDecreasing(start: int, spans: seq<int>)
    requires forall k :: 0 <= k < |spans| ==> 0 <= spans[k]
    ensures forall k :: 0 <= k < |spans| ==> start <= RunningTimes(start, spans)[k]
    ensures forall j, k :: 0 <= j < k < |spans| ==> RunningTimes(start, spans)[j] <= RunningTimes(start, spans)[k]
    decreases |spans|
  {
    if |spans| > 0 {
      RunningTimesNonDecreasing(start + spans[0], spans[1..]);
    }
  }

  class TimelineClock {
    var curTime: int
    var observers: seq<ObserverId>
    var playState: PlayState
    ghost var notifications: seq<Notification>

    constructor ()
      ensures curTime == 0 && observers == [] && playState == Run && notifications == []
    {
      curTime := 0;
      observers := [];
      playState := Run;
      notifications := [];
    }

    /** The play state can be set but neither Pulse nor Step looks at it. */
    method SetPlayState(state: PlayState)
      modifies this`playState
      ensures playState == state
    {
      playState := state;
    }

    /** Tells every observer, in order, that the sequence is complete; the observer list stays as it is. */
    method Dispose()
      modifies this`notifications
      ensures notifications == old(notifications) + Completions(observers)
    {
      ghost var start := notifications;
      for i := 0 to |observers|
        invariant notifications == start + Completions(observers[..i])
      {
        assert observers[..i + 1] == observers[..i] + [observers[i]];
        notifications := notifications + [OnCompleted(observers[i])];
      }
      assert observers[..|observers|] == observers;
    }

    /** Sends the given time to every observer, in order; the running time is not touched. */
    method Step(time: int)
      modifies this`notifications
      ensures curTime == old(curTime)
      ensures notifications == old(notifications) + Broadcast(observers, time)
    {
      ghost var start := notifications;
      for i := 0 to |observers|
        invariant notifications == start + Broadcast(observers[..i], time)
      {
        assert observers[..i + 1] == observers[..i] + [observers[i]];
        notifications := notifications + [OnNext(observers[i], time)];
      }
      assert observers[..|observers|] == observers;
    }

    /** Adds the span to the running time, then sends the new running time to every observer, in order. */
    method Pulse(time: int)
      modifies this`curTime, this`notifications
      ensures curTime == old(curTime) + time
      ensures notifications == old(notifications) + Broadcast(observers, curTime)
    {
      curTime := curTime + time;
      ghost var start := notifications;
      for i := 0 to |observers|
        invariant notifications == start + Broadcast(observers[..i], curTime)
      {
        assert observers[..i + 1] == observers[..i] + [observers[i]];
        notifications := notifications + [OnNext(observers[i], curTime)];
      }
      assert observers[..|observers|] == observers;
    }

    /** Appends the observer and returns the clock itself as the subscription handle. */
    method Subscribe(observer: ObserverId) returns (subscription: TimelineClock)
      modifies this`observers
      ensures observers == old(observers) + [observer]
      ensures subscription == this
    {
      observers := observers + [observer];
      subscription := this;
    }
  }
}
