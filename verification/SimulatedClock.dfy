/**
 * The simulated clock (apps/api/src/sim/clock.ts): time derived from a real-time anchor, never
 * accumulated. Instants are milliseconds; speed is simulated minutes per real second.
 */
module SimulatedClock {

  function Min(a: real, b: real): real { if a <= b then a else b }
  function Max(a: real, b: real): real { if a >= b then a else b }

  /** A clock's fields, as a value. */
  datatype Clock = Clock(
    startMs: real, endMs: real, simMs: real, speed: real, running: bool, anchorRealMs: real, anchorSimMs: real)

  /** Both anchors are in the window, and a positive speed moves time forward only. */
  predicate Sound(c: Clock) {
    && c.startMs < c.endMs && c.speed > 0.0
    && c.startMs <= c.simMs <= c.endMs && c.startMs <= c.anchorSimMs <= c.endMs
  }

  function Reading(c: Clock, realNowMs: real): real {
    if !c.running then c.simMs else Min(c.endMs, c.anchorSimMs + (realNowMs - c.anchorRealMs) * c.speed * 60.0)
  }

  /** A finished clock does not start. */
  function Started(c: Clock, at: real): Clock {
    if c.running || Reading(c, at) >= c.endMs then c
    else c.(running := true, anchorRealMs := at, anchorSimMs := c.simMs)
  }

  function Paused(c: Clock, at: real): Clock {
    if !c.running then c else c.(simMs := Reading(c, at), running := false)
  }

  function WithSpeed(c: Clock, speed: real, at: real): Clock {
    c.(simMs := Reading(c, at), anchorSimMs := Reading(c, at), anchorRealMs := at, speed := speed)
  }

  function JumpedTo(c: Clock, ms: real, at: real): Clock {
    var clamped := Min(c.endMs, Max(c.startMs, ms));
    c.(simMs := clamped, anchorSimMs := clamped, anchorRealMs := at)
  }

  /** Real time has not run backwards since the clock was last anchored. */
  predicate Anchored(c: Clock, realNowMs: real) {
    c.running ==> c.anchorRealMs <= realNowMs
  }

  lemma TimesPositive(a: real, b: real)
    requires a >= 0.0 && b > 0.0
    ensures a * b >= 0.0
  {
  }

  /** While real time does not run backwards, simulated time stays in its window. */
  lemma InWindow(c: Clock, realNowMs: real)
    requires Sound(c) && Anchored(c, realNowMs)
    ensures c.startMs <= Reading(c, realNowMs) <= c.endMs
  {
    if c.running {
      var advance := (realNowMs - c.anchorRealMs) * c.speed * 60.0;
      TimesPositive(realNowMs - c.anchorRealMs, c.speed);
      assert advance == ((realNowMs - c.anchorRealMs) * c.speed) * 60.0 >= 0.0;
      assert Reading(c, realNowMs) == Min(c.endMs, c.anchorSimMs + advance);
    }
  }

  /** Nor does simulated time run backwards between two readings. */
  lemma Monotone(c: Clock, a: real, b: real)
    requires Sound(c) && a <= b
    ensures Reading(c, a) <= Reading(c, b)
  {
    if c.running {
      TimesPositive(b - a, c.speed);
      assert (b - c.anchorRealMs) * c.speed == (a - c.anchorRealMs) * c.speed + (b - a) * c.speed;
    }
  }

  /** Starting, pausing and changing speed lose no simulated time and gain none. */
  lemma ChangesKeepTheInstant(c: Clock, speed: real, at: real)
    requires Sound(c) && Anchored(c, at) && speed > 0.0
    ensures forall next | next in {Started(c, at), Paused(c, at), WithSpeed(c, speed, at)} ::
              Sound(next) && Anchored(next, at) && Reading(next, at) == Reading(c, at)
    ensures !Paused(c, at).running && WithSpeed(c, speed, at).running == c.running
    ensures Started(c, at).running <==> c.running || Reading(c, at) < c.endMs
  {
    InWindow(c, at);
  }

  /** A jump lands inside the window and does not start or stop the clock. */
  lemma JumpIsClamped(c: Clock, ms: real, at: real)
    requires Sound(c)
    ensures var next := JumpedTo(c, ms, at);
            && Sound(next) && Anchored(next, at) && next.running == c.running
            && Reading(next, at) == Min(c.endMs, Max(c.startMs, ms))
  {
  }

  class SimClock {
    const startMs: real
    const endMs: real
    var simMs: real
    var speed: real
    var running: bool
    var anchorRealMs: real
    var anchorSimMs: real

    ghost function Contents(): Clock
      reads this
    {
      Clock(startMs, endMs, simMs, speed, running, anchorRealMs, anchorSimMs)
    }

    /** The source refuses an empty or reversed window. */
    constructor (startsAt: real, endsAt: real, speed: real)
      requires startsAt < endsAt && speed > 0.0
      ensures Contents() == Clock(startsAt, endsAt, startsAt, speed, false, 0.0, startsAt)
    {
      startMs, endMs, simMs, anchorSimMs := startsAt, endsAt, startsAt, startsAt;
      this.speed := speed;
      running, anchorRealMs := false, 0.0;
    }

    function NowMs(realNowMs: real): (now: real)
      reads this
      ensures now == Reading(Contents(), realNowMs)
    {
      if !running then simMs else Min(endMs, anchorSimMs + (realNowMs - anchorRealMs) * speed * 60.0)
    }

    method Start(realNowMs: real)
      modifies this
      ensures Contents() == Started(old(Contents()), realNowMs)
    {
      if running {
        return;
      }
      if NowMs(realNowMs) >= endMs {
        return;
      }
      anchorRealMs := realNowMs;
      anchorSimMs := simMs;
      running := true;
    }

    method Pause(realNowMs: real)
      modifies this
      ensures Contents() == Paused(old(Contents()), realNowMs)
    {
      if !running {
        return;
      }
      simMs := NowMs(realNowMs);
      running := false;
    }

    /** Refuses a speed that is not positive. */
    method SetSpeed(newSpeed: real, realNowMs: real) returns (ok: bool)
      modifies this
      ensures ok == (newSpeed > 0.0)
      ensures Contents() == if ok then WithSpeed(old(Contents()), newSpeed, realNowMs) else old(Contents())
    {
      if newSpeed <= 0.0 {
        return false;
      }
      var current := NowMs(realNowMs);
      simMs := current;
      anchorSimMs := current;
      anchorRealMs := realNowMs;
      speed := newSpeed;
      return true;
    }

    method JumpTo(ms: real, realNowMs: real)
      modifies this
      ensures Contents() == JumpedTo(old(Contents()), ms, realNowMs)
    {
      var clamped := Min(endMs, Max(startMs, ms));
      simMs := clamped;
      anchorSimMs := clamped;
      anchorRealMs := realNowMs;
    }

    /** Stopped, at the start of the window. */
    method Reset(realNowMs: real)
      modifies this
      ensures var was := old(Contents());
              Contents() == Clock(was.startMs, was.endMs, was.startMs, was.speed, false, realNowMs, was.startMs)
    {
      running := false;
      simMs := startMs;
      anchorSimMs := startMs;
      anchorRealMs := realNowMs;
    }
  }
}
