/** The decisions `Player` takes each frame and on each hit or heal, as pure
    functions of the values it reads: hit-point arithmetic and the three
    weapon gates. The `Player` class applies them to its fields. */
module PlayerRules {
  import opened Numeric
  import opened Timers

  /** Healing caps hit points at this literal, whatever the player's maximum. */
  const HealCap: int := 100

  /** Damage left after mitigation, as the `(int)` cast of the float product. */
  function Mitigated(damage: int, reduction: real): int
  {
    Trunc(damage as real * (1.0 - reduction))
  }

  /** Hit points after a hit: the mitigated damage is subtracted and the result
      is floored at zero. */
  function HitPointsAfterDamage(hitPoints: int, damage: int, reduction: real): (r: int)
    ensures 0 <= r
    ensures r == 0 <==> hitPoints <= Mitigated(damage, reduction)
    ensures r != 0 ==> r == hitPoints - Mitigated(damage, reduction)
  {
    var lowered := hitPoints - Mitigated(damage, reduction);
    if lowered < 0 then 0 else lowered
  }

  /** Hit points after healing: the amount is added and the result capped at
      `HealCap`. */
  function HitPointsAfterHeal(hitPoints: int, healAmount: int): (r: int)
    ensures r <= HealCap
    ensures r <= hitPoints + healAmount
    ensures r == HealCap || r == hitPoints + healAmount
  {
    var raised := hitPoints + healAmount;
    if raised < HealCap then raised else HealCap
  }

  /** With a reduction between 0 and 1, a hit of `damage >= 0` loses between
      nothing and all of it, all of it without reduction and none of it with
      full reduction; so it never raises hit points. */
  lemma MitigationBounds(hitPoints: int, damage: int, reduction: real)
    requires 0 <= damage && 0.0 <= reduction <= 1.0 && 0 <= hitPoints
    ensures 0 <= Mitigated(damage, reduction) <= damage
    ensures reduction == 0.0 ==> Mitigated(damage, reduction) == damage
    ensures reduction == 1.0 ==> Mitigated(damage, reduction) == 0
    ensures hitPoints - damage <= HitPointsAfterDamage(hitPoints, damage, reduction) <= hitPoints
  {
    var f := 1.0 - reduction;
    var x := damage as real * f;
    ScaleBetweenZeroAndOne(damage as real, f);
    assert Mitigated(damage, reduction) == Trunc(x);
    if reduction == 0.0 {
      assert x == damage as real;
    }
    if reduction == 1.0 {
      assert x == 0.0;
    }
  }

  /** Scaling a non-negative real by a factor in [0, 1] keeps it between 0
      and itself. */
  lemma ScaleBetweenZeroAndOne(a: real, f: real)
    requires 0.0 <= a && 0.0 <= f <= 1.0
    ensures 0.0 <= a * f <= a
  {
    assert a - a * f == a * (1.0 - f);
  }

  /** A reduction above 1 turns a hit into a gain: the cast of a negative
      product is negative, and subtracting it adds hit points. */
  lemma OverMitigationHeals()
    ensures Mitigated(10, 1.5) == -5
    ensures HitPointsAfterDamage(50, 10, 1.5) == 55
  {
  }

  /** Healing by the damage a hit took undoes the hit, as long as the hit left
      the player alive and the starting value was within the heal cap. */
  lemma HealUndoesDamage(hitPoints: int, damage: int, reduction: real)
    requires 0 <= damage && 0.0 <= reduction <= 1.0
    requires Mitigated(damage, reduction) < hitPoints <= HealCap
    ensures HitPointsAfterHeal(HitPointsAfterDamage(hitPoints, damage, reduction), Mitigated(damage, reduction)) == hitPoints
  {
    MitigationBounds(hitPoints, damage, reduction);
  }

  /** A hit that kills is not undone by healing the damage it would have
      dealt: 30 damage on 10 hit points leaves 0, and healing 30 gives 30,
      not 10. */
  lemma KillingHitIsNotUndone()
    ensures HitPointsAfterDamage(10, 30, 0.0) == 0
    ensures HitPointsAfterHeal(HitPointsAfterDamage(10, 30, 0.0), Mitigated(30, 0.0)) == 30
  {
  }

  /** The worked examples: 30 raw damage against 100 hit points leaves 70;
      with half reduction the same hit costs 15; a 1000-point hit on 10 hit
      points leaves 0, and a further hit keeps it at 0. */
  lemma DamageExamples()
    ensures HitPointsAfterDamage(100, 30, 0.0) == 70
    ensures HitPointsAfterDamage(70, 30, 0.5) == 55
    ensures HitPointsAfterDamage(10, 1000, 0.0) == 0
    ensures HitPointsAfterDamage(0, 5, 0.0) == 0
  {
  }

  /** One frame of the dart timer: frozen while a volley is being shot;
      otherwise it grows by the frame time and a volley is requested when it
      strictly exceeds the cooldown. The timer is not reset here. */
  function DartStep(elapsed: real, cooldown: real, isShooting: bool, dt: real): Gate
  {
    if isShooting then Gate(elapsed, false)
    else
      var next := elapsed + dt;
      Gate(next, next > cooldown && !isShooting)
  }

  /** Several frames of the dart timer with the shooting flag held fixed. */
  function DartFrames(elapsed: real, cooldown: real, isShooting: bool, dts: seq<real>): Run
    decreases |dts|
  {
    if dts == [] then Run(elapsed, 0)
    else
      var g := DartStep(elapsed, cooldown, isShooting, dts[0]);
      var rest := DartFrames(g.elapsed, cooldown, isShooting, dts[1..]);
      Run(rest.elapsed, rest.fires + (if g.fires then 1 else 0))
  }

  /** While a volley is being shot the dart timer does not move and no
      further volley is requested. */
  lemma {:induction false} DartFrozenWhileShooting(elapsed: real, cooldown: real, dts: seq<real>)
    ensures DartFrames(elapsed, cooldown, true, dts) == Run(elapsed, 0)
    decreases |dts|
  {
    if dts != [] {
      DartFrozenWhileShooting(elapsed, cooldown, dts[1..]);
    }
  }

  /** When not shooting the dart timer grows by exactly the frame times; no
      volley is requested while it stays at or below the cooldown. */
  lemma {:induction false} DartAccumulatesWhenIdle(elapsed: real, cooldown: real, dts: seq<real>)
    requires NonNegative(dts)
    ensures DartFrames(elapsed, cooldown, false, dts).elapsed == elapsed + Sum(dts)
    ensures elapsed + Sum(dts) <= cooldown ==> DartFrames(elapsed, cooldown, false, dts).fires == 0
    decreases |dts|
  {
    if dts != [] {
      NonNegativeTail(dts);
      DartAccumulatesWhenIdle(elapsed + dts[0], cooldown, dts[1..]);
    }
  }

  /** Once past the cooldown, and until something else resets the timer or
      raises the shooting flag, every frame requests a volley. */
  lemma {:induction false} DartRequestsEveryFramePastCooldown(elapsed: real, cooldown: real, dts: seq<real>)
    requires NonNegative(dts) && elapsed > cooldown
    ensures DartFrames(elapsed, cooldown, false, dts).fires == |dts|
    decreases |dts|
  {
    if dts != [] {
      NonNegativeTail(dts);
      DartRequestsEveryFramePastCooldown(elapsed + dts[0], cooldown, dts[1..]);
    }
  }

  /** One frame of the Raven timer: untouched while disabled, otherwise a
      cooldown step. */
  function RavenStep(isEnabled: bool, elapsed: real, cooldown: real, dt: real): Gate
  {
    if !isEnabled then Gate(elapsed, false) else CooldownStep(elapsed, cooldown, dt)
  }

  /** One frame of the Starfish timer: untouched while disabled or while a
      cohort is orbiting, otherwise a cooldown step. */
  function StarfishStep(isEnabled: bool, isActive: bool, elapsed: real, cooldown: real, dt: real): Gate
  {
    if !isEnabled || isActive then Gate(elapsed, false) else CooldownStep(elapsed, cooldown, dt)
  }

  /** A disabled Raven, and a Starfish that is disabled or orbiting, neither
      move their timer nor fire; an enabled idle one takes a cooldown step. */
  lemma GatedWeaponsAreFrozen(isEnabled: bool, isActive: bool, elapsed: real, cooldown: real, dt: real)
    ensures !isEnabled ==> RavenStep(isEnabled, elapsed, cooldown, dt) == Gate(elapsed, false)
    ensures isEnabled ==> RavenStep(isEnabled, elapsed, cooldown, dt) == CooldownStep(elapsed, cooldown, dt)
    ensures !isEnabled || isActive ==> StarfishStep(isEnabled, isActive, elapsed, cooldown, dt) == Gate(elapsed, false)
    ensures isEnabled && !isActive ==> StarfishStep(isEnabled, isActive, elapsed, cooldown, dt) == CooldownStep(elapsed, cooldown, dt)
  {
  }

  /** Unlocking presets the Starfish timer to one second below the cooldown,
      so the first cohort goes out in the first frame that brings the total
      past one second. */
  lemma UnlockedStarfishFiresAfterOneSecond(cooldown: real, dts: seq<real>, d: real)
    requires NonNegative(dts) && Sum(dts) <= 1.0 < Sum(dts) + d
    ensures CooldownRun(cooldown - 1.0, cooldown, dts + [d]) == Run(0.0, 1)
  {
    CooldownFiresOnceOnCrossing(cooldown - 1.0, cooldown, dts, d);
  }

  /** A pickup just picked up (or refreshed) stays in force through any
      frames totalling at most the pickup duration. */
  lemma RefreshedPickupLasts(duration: real, dts: seq<real>)
    requires NonNegative(dts) && Sum(dts) <= duration
    ensures ExpiryFrames(Timed(true, 0.0), duration, dts) == ExpiryRun(Timed(true, Sum(dts)), 0)
  {
    RunningWithinLimit(Timed(true, 0.0), duration, dts);
  }

  /** Once frames totalling more than the duration have passed since the
      last pickup, the pickup has expired exactly once, whatever its timer
      held before the refresh. */
  lemma RefreshedPickupExpiresOnce(duration: real, dts: seq<real>)
    requires 0.0 <= duration && NonNegative(dts) && Sum(dts) > duration
    ensures ExpiryFrames(Timed(true, 0.0), duration, dts) == ExpiryRun(Timed(false, 0.0), 1)
  {
    ExpiresOncePastLimit(Timed(true, 0.0), duration, dts);
  }
}
