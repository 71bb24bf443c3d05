/** The fixed-interval timer that gates the engine's update step.

    Times are exact reals in seconds. The clock the engine samples is a
    parameter: `now` is the time the clock reads at the call. */
module Timers {

  /** Tick fires when strictly more than `interval` seconds have passed
      since the last firing. */
  predicate Fires(interval: real, lastTick: real, now: real)
  {
    now - lastTick > interval
  }

  /** The timer (`Timer` in the engine). */
  class Timer {
    var interval: real
    var lastTick: real

    /** Starts the first interval at the construction time. */
    constructor (interval: real, now: real)
      ensures this.interval == interval && lastTick == now
    {
      this.interval := interval;
      lastTick := now;
    }

    /** Reports whether the interval has run out, that is whether `Fires`
        holds: strictly more than the interval has passed since the last
        tick. When it has, the next
        interval starts at `now` itself: the time by which the interval was
        overrun is not carried over. When it has not, nothing changes. The
        interval never changes. */
    method Tick(now: real) returns (fired: bool)
      modifies this
      ensures fired == Fires(old(interval), old(lastTick), now)
      ensures interval == old(interval)
      ensures lastTick == if fired then now else old(lastTick)
    {
      if now - lastTick > interval {
        lastTick := now;
        return true;
      }
      return false;
    }
  }

  /** The timer state after ticking at each of the sample times in turn. */
  function LastTickAfter(interval: real, lastTick: real, times: seq<real>): real
    decreases |times|
  {
    if times == [] then lastTick
    else LastTickAfter(interval, if Fires(interval, lastTick, times[0]) then times[0] else lastTick, times[1..])
  }

  /** The sample times at which Tick returns true, in order, when it is
      called at each of `times` in turn on a timer whose last tick is
      `lastTick`. */
  function FireTimes(interval: real, lastTick: real, times: seq<real>): seq<real>
    decreases |times|
  {
    if times == [] then []
    else if Fires(interval, lastTick, times[0]) then [times[0]] + FireTimes(interval, times[0], times[1..])
    else FireTimes(interval, lastTick, times[1..])
  }

  /** Right after a firing, a second tick at the same instant does not fire
      again, for any interval that is not negative. */
  method TickTwiceAtSameInstant(t: Timer, now: real) returns (first: bool, second: bool)
    requires t.interval >= 0.0
    modifies t
    ensures !(first && second)
    ensures first ==> t.lastTick == now
  {
    first := t.Tick(now);
    second := t.Tick(now);
  }

  /** Ticks at each of the sample times in turn and returns the times at
      which Tick fired: they are FireTimes, and the last tick afterwards is
      LastTickAfter, so the lemmas below speak about the class. */
  method TickAll(t: Timer, times: seq<real>) returns (fired: seq<real>)
    modifies t
    ensures t.interval == old(t.interval)
    ensures t.lastTick == LastTickAfter(old(t.interval), old(t.lastTick), times)
    ensures fired == FireTimes(old(t.interval), old(t.lastTick), times)
  {
    fired := [];
    var i := 0;
    while i < |times|
      invariant 0 <= i <= |times|
      invariant t.interval == old(t.interval)
      invariant LastTickAfter(t.interval, t.lastTick, times[i..]) == LastTickAfter(old(t.interval), old(t.lastTick), times)
      invariant fired + FireTimes(t.interval, t.lastTick, times[i..]) == FireTimes(old(t.interval), old(t.lastTick), times)
    {
      assert times[i..][0] == times[i] && times[i..][1..] == times[i + 1..];
      var f := t.Tick(times[i]);
      if f {
        assert fired + [times[i]] + FireTimes(t.interval, t.lastTick, times[i + 1..])
            == fired + ([times[i]] + FireTimes(t.interval, t.lastTick, times[i + 1..]));
        fired := fired + [times[i]];
      }
      i := i + 1;
    }
    assert times[i..] == [];
  }

  /** Firings are spaced by more than the interval: the first comes more
      than `interval` after the starting tick, and each later one more than
      `interval` after the one before. Each firing is one of the sample
      times. */
  lemma {:induction false} FiringsSpaced(interval: real, lastTick: real, times: seq<real>)
    ensures var f := FireTimes(interval, lastTick, times);
      (|f| > 0 ==> f[0] - lastTick > interval) &&
      (forall i | 0 <= i < |f| - 1 :: f[i + 1] - f[i] > interval) &&
      (forall i | 0 <= i < |f| :: f[i] in times)
    decreases |times|
  {
    if times != [] {
      var next := if Fires(interval, lastTick, times[0]) then times[0] else lastTick;
      FiringsSpaced(interval, next, times[1..]);
      var rest := FireTimes(interval, next, times[1..]);
      assert forall t | t in times[1..] :: t in times;
      if Fires(interval, lastTick, times[0]) {
        var f := [times[0]] + rest;
        assert forall i | 1 <= i < |f| :: f[i] == rest[i - 1];
      }
    }
  }

  /** The last tick after a run is the time of the last firing, or the
      starting tick if nothing fired: it is always a sample time, never the
      firing time less the overrun. */
  lemma {:induction false} LastTickIsLastFiring(interval: real, lastTick: real, times: seq<real>)
    ensures var f := FireTimes(interval, lastTick, times);
      LastTickAfter(interval, lastTick, times) == if f == [] then lastTick else f[|f| - 1]
    decreases |times|
  {
    if times != [] {
      var next := if Fires(interval, lastTick, times[0]) then times[0] else lastTick;
      LastTickIsLastFiring(interval, next, times[1..]);
    }
  }

  /** Nothing fires while every sample is at most `interval` after the
      start; a sample exactly `interval` after it does not fire either. */
  lemma {:induction false} QuietWithinInterval(interval: real, lastTick: real, times: seq<real>)
    requires forall i | 0 <= i < |times| :: times[i] <= lastTick + interval
    ensures FireTimes(interval, lastTick, times) == []
    decreases |times|
  {
    if times != [] {
      QuietWithinInterval(interval, lastTick, times[1..]);
    }
  }
}
