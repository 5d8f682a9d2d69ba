/** The two frame-driven timers the player drives: a cooldown that fires and
    restarts at zero (Raven, Starfish), and a running timer that expires once
    (the skateboard and umbrella pickups, a starfish's lifetime). */
module Timers {
  import opened Numeric

  /** A timer value after one frame, and whether the frame crossed its limit. */
  datatype Gate = Gate(elapsed: real, fires: bool)

  /** One frame of an accumulate-and-fire cooldown: add the frame time; on
      strictly exceeding the cooldown, fire and restart at zero. */
  function CooldownStep(elapsed: real, cooldown: real, dt: real): Gate
  {
    var next := elapsed + dt;
    if next > cooldown then Gate(0.0, true) else Gate(next, false)
  }

  /** A timer after several frames, and how many of those frames fired. */
  datatype Run = Run(elapsed: real, fires: nat)

  function CooldownRun(elapsed: real, cooldown: real, dts: seq<real>): Run
    decreases |dts|
  {
    if dts == [] then Run(elapsed, 0)
    else
      var g := CooldownStep(elapsed, cooldown, dts[0]);
      var rest := CooldownRun(g.elapsed, cooldown, dts[1..]);
      Run(rest.elapsed, rest.fires + (if g.fires then 1 else 0))
  }

  /** One frame fires exactly when it takes the timer strictly past the
      cooldown, and then the timer restarts at zero: time beyond the cooldown
      is dropped, so a frame that overshoots by several periods fires once. */
  lemma CooldownStepFiresOnCrossing(elapsed: real, cooldown: real, dt: real)
    ensures CooldownStep(elapsed, cooldown, dt).fires <==> elapsed + dt > cooldown
    ensures CooldownStep(elapsed, cooldown, dt).fires ==> CooldownStep(elapsed, cooldown, dt).elapsed == 0.0
    ensures !CooldownStep(elapsed, cooldown, dt).fires ==> CooldownStep(elapsed, cooldown, dt).elapsed == elapsed + dt
  {
  }

  /** While the accumulated time stays at or below the cooldown, no frame
      fires and the timer holds the total time. */
  lemma {:induction false} CooldownQuietUntilCrossing(elapsed: real, cooldown: real, dts: seq<real>)
    requires NonNegative(dts)
    requires elapsed + Sum(dts) <= cooldown
    ensures CooldownRun(elapsed, cooldown, dts) == Run(elapsed + Sum(dts), 0)
    decreases |dts|
  {
    if dts != [] {
      NonNegativeTail(dts);
      CooldownQuietUntilCrossing(elapsed + dts[0], cooldown, dts[1..]);
    }
  }

  /** The frame that first takes the total strictly past the cooldown fires,
      and it is the only one: one crossing, one fire, timer back at zero. */
  lemma {:induction false} CooldownFiresOnceOnCrossing(elapsed: real, cooldown: real, dts: seq<real>, d: real)
    requires NonNegative(dts)
    requires elapsed + Sum(dts) <= cooldown < elapsed + Sum(dts) + d
    ensures CooldownRun(elapsed, cooldown, dts + [d]) == Run(0.0, 1)
    decreases |dts|
  {
    if dts == [] {
      assert dts + [d] == [d];
    } else {
      NonNegativeTail(dts);
      assert (dts + [d])[0] == dts[0];
      assert (dts + [d])[1..] == dts[1..] + [d];
      CooldownFiresOnceOnCrossing(elapsed + dts[0], cooldown, dts[1..], d);
    }
  }

  /** Frames whose total equals the cooldown exactly do not fire: the
      comparison is strict. */
  lemma CooldownExactTotalDoesNotFire(cooldown: real, dts: seq<real>)
    requires NonNegative(dts)
    requires Sum(dts) == cooldown
    ensures CooldownRun(0.0, cooldown, dts).fires == 0
  {
    CooldownQuietUntilCrossing(0.0, cooldown, dts);
  }

  /** A cooldown of 5 driven by frames of 2, 2 and 2 fires once, on the third. */
  lemma CooldownThreeFramesOfTwo()
    ensures CooldownRun(0.0, 5.0, [2.0, 2.0]) == Run(4.0, 0)
    ensures CooldownRun(0.0, 5.0, [2.0, 2.0, 2.0]) == Run(0.0, 1)
  {
    CooldownFiresOnceOnCrossing(0.0, 5.0, [2.0, 2.0], 2.0);
    assert [2.0, 2.0] + [2.0] == [2.0, 2.0, 2.0];
  }

  /** A timer that is either stopped or running toward a limit. */
  datatype Timed = Timed(running: bool, elapsed: real)

  /** A timer after one frame, and whether it expired in that frame. */
  datatype Expiry = Expiry(timer: Timed, expired: bool)

  /** One frame of an expiring timer: a stopped timer is left alone; a running
      one adds the frame time and, on strictly exceeding the limit, stops and
      restarts at zero. */
  function ExpiryStep(t: Timed, limit: real, dt: real): Expiry
  {
    if !t.running then Expiry(t, false)
    else if t.elapsed + dt > limit then Expiry(Timed(false, 0.0), true)
    else Expiry(Timed(true, t.elapsed + dt), false)
  }

  /** An expiring timer after several frames, and how many frames expired it. */
  datatype ExpiryRun = ExpiryRun(timer: Timed, expiries: nat)

  function ExpiryFrames(t: Timed, limit: real, dts: seq<real>): ExpiryRun
    decreases |dts|
  {
    if dts == [] then ExpiryRun(t, 0)
    else
      var e := ExpiryStep(t, limit, dts[0]);
      var rest := ExpiryFrames(e.timer, limit, dts[1..]);
      ExpiryRun(rest.timer, rest.expiries + (if e.expired then 1 else 0))
  }

  /** A stopped timer never moves and never expires. */
  lemma {:induction false} StoppedTimerIsFrozen(t: Timed, limit: real, dts: seq<real>)
    requires !t.running
    ensures ExpiryFrames(t, limit, dts) == ExpiryRun(t, 0)
    decreases |dts|
  {
    if dts != [] {
      StoppedTimerIsFrozen(t, limit, dts[1..]);
    }
  }

  /** However many frames pass, a timer expires at most once. */
  lemma {:induction false} ExpiresAtMostOnce(t: Timed, limit: real, dts: seq<real>)
    ensures ExpiryFrames(t, limit, dts).expiries <= 1
    decreases |dts|
  {
    if dts != [] {
      var e := ExpiryStep(t, limit, dts[0]);
      if e.expired {
        StoppedTimerIsFrozen(e.timer, limit, dts[1..]);
      } else {
        ExpiresAtMostOnce(e.timer, limit, dts[1..]);
      }
    }
  }

  /** A running timer whose total stays at or below the limit keeps running
      and holds the total time. */
  lemma {:induction false} RunningWithinLimit(t: Timed, limit: real, dts: seq<real>)
    requires t.running && NonNegative(dts)
    requires t.elapsed + Sum(dts) <= limit
    ensures ExpiryFrames(t, limit, dts) == ExpiryRun(Timed(true, t.elapsed + Sum(dts)), 0)
    decreases |dts|
  {
    if dts != [] {
      NonNegativeTail(dts);
      RunningWithinLimit(Timed(true, t.elapsed + dts[0]), limit, dts[1..]);
    }
  }

  /** A running timer that has not yet passed the limit, and whose total then
      passes it, expires exactly once and ends stopped at zero. */
  lemma {:induction false} ExpiresOncePastLimit(t: Timed, limit: real, dts: seq<real>)
    requires t.running && t.elapsed <= limit && NonNegative(dts)
    requires t.elapsed + Sum(dts) > limit
    ensures ExpiryFrames(t, limit, dts) == ExpiryRun(Timed(false, 0.0), 1)
    decreases |dts|
  {
    NonNegativeTail(dts);
    var e := ExpiryStep(t, limit, dts[0]);
    if e.expired {
      StoppedTimerIsFrozen(e.timer, limit, dts[1..]);
    } else {
      ExpiresOncePastLimit(e.timer, limit, dts[1..]);
    }
  }
}
