/** The player's combat bookkeeping: hit points, the two timed pickups, and
    the per-frame driving of the three weapons' cooldowns. Input, movement,
    animation, audio and on-screen text are not part of this model. */
module PlayerModel {
  import opened Timers
  import opened PlayerRules
  import opened StarfishRules
  import opened Weapons

  datatype Pickup = Skateboard | Umbrella

  /** What the player publishes on the event bus. */
  datatype GameEvent = PickupExpired(pickup: Pickup)

  /** Which weapons were triggered in a frame. */
  datatype Shots = Shots(dart: bool, raven: bool, starfish: bool)

  class Player {
    const weapons: World

    var hitPoints: int
    const maxHitPoints: int
    var playerMoveRate: real
    var baseMoveRate: real
    var hasPickedUpSkateboard: bool
    var timeElapsedSinceLastSkateboard: real
    var hasPickedUpUmbrella: bool
    var timeElapsedSinceLastUmbrella: real
    const timeBasedPickupDuration: real
    var damageReductionAmount: real
    var isDead: bool
    var events: seq<GameEvent>

    /** A player with the inspector-set values of its serialized fields. The
        component declares 100, 100, 2.5, 10 and 0 for them; a scene may set
        others. */
    constructor (weapons: World, hitPoints: int, maxHitPoints: int, playerMoveRate: real,
                 timeBasedPickupDuration: real, damageReductionAmount: real)
      ensures this.weapons == weapons
      ensures this.hitPoints == hitPoints && this.maxHitPoints == maxHitPoints && !isDead
      ensures this.playerMoveRate == playerMoveRate && baseMoveRate == 0.0
      ensures this.damageReductionAmount == damageReductionAmount
      ensures this.timeBasedPickupDuration == timeBasedPickupDuration
      ensures SkateboardTimer() == Timed(false, 0.0) && UmbrellaTimer() == Timed(false, 0.0)
      ensures events == []
    {
      this.weapons := weapons;
      this.hitPoints := hitPoints;
      this.maxHitPoints := maxHitPoints;
      this.playerMoveRate := playerMoveRate;
      baseMoveRate := 0.0;
      hasPickedUpSkateboard := false;
      timeElapsedSinceLastSkateboard := 0.0;
      hasPickedUpUmbrella := false;
      timeElapsedSinceLastUmbrella := 0.0;
      this.timeBasedPickupDuration := timeBasedPickupDuration;
      this.damageReductionAmount := damageReductionAmount;
      isDead := false;
      events := [];
    }

    function SkateboardTimer(): Timed
      reads this
    {
      Timed(hasPickedUpSkateboard, timeElapsedSinceLastSkateboard)
    }

    function UmbrellaTimer(): Timed
      reads this
    {
      Timed(hasPickedUpUmbrella, timeElapsedSinceLastUmbrella)
    }

    /** The engine's first-frame setup: the current move rate becomes the base
        rate, and the dart timer is preset one second short of the cooldown so
        the first volley goes out at once. */
    method Start()
      modifies this`baseMoveRate, weapons`dartElapsed
      ensures baseMoveRate == playerMoveRate
      ensures weapons.dartElapsed == weapons.dartCooldown - 1.0
    {
      baseMoveRate := playerMoveRate;
      weapons.dartElapsed := weapons.dartCooldown - 1.0;
    }

    /** One frame of the pickups, from the timers, modifiers and events before
        it: each pickup timer takes an expiry step; an expired skateboard
        restores the base move rate, an expired umbrella removes the damage
        reduction, and each expiry publishes one event, skateboard first. */
    ghost predicate PickupsAdvanced(skateboard: Timed, umbrella: Timed, moveRate: real, reduction: real,
                                    before: seq<GameEvent>, dt: real)
      reads this
    {
      var s := ExpiryStep(skateboard, timeBasedPickupDuration, dt);
      var u := ExpiryStep(umbrella, timeBasedPickupDuration, dt);
      SkateboardTimer() == s.timer && UmbrellaTimer() == u.timer &&
      playerMoveRate == (if s.expired then baseMoveRate else moveRate) &&
      damageReductionAmount == (if u.expired then 0.0 else reduction) &&
      events == before + (if s.expired then [PickupExpired(Skateboard)] else [])
                       + (if u.expired then [PickupExpired(Umbrella)] else [])
    }

    /** One frame. Nothing happens while the player is dead or the game is not
        playing. Otherwise the dart, Raven and Starfish timers each take their
        step, a Starfish firing spawns a cohort, and the pickups advance --
        unless spawning raised a division by zero (`fault`), which ends the
        frame before the pickups. */
    method Update(dt: real, isPlaying: bool) returns (shots: Shots, fault: bool)
      modifies this`playerMoveRate, this`hasPickedUpSkateboard, this`timeElapsedSinceLastSkateboard,
               this`hasPickedUpUmbrella, this`timeElapsedSinceLastUmbrella, this`damageReductionAmount,
               this`events,
               weapons`dartElapsed, weapons`ravenElapsed, weapons`starfishElapsed,
               weapons`live, weapons`prefabDegreesToNext, weapons`prefabIdentifier
      ensures isDead || !isPlaying ==>
                shots == Shots(false, false, false) && !fault && unchanged(this) && unchanged(weapons)
      ensures !isDead && isPlaying ==>
                var d := DartStep(old(weapons.dartElapsed), weapons.dartCooldown, weapons.dartIsShooting, dt);
                var r := RavenStep(weapons.ravenIsEnabled, old(weapons.ravenElapsed), weapons.ravenCooldown, dt);
                var s := StarfishStep(weapons.starfishIsEnabled, weapons.starfishIsActive, old(weapons.starfishElapsed),
                                      weapons.StarfishCooldown(), dt);
                shots == Shots(d.fires, r.fires, s.fires) &&
                weapons.dartElapsed == d.elapsed &&
                weapons.ravenElapsed == r.elapsed &&
                weapons.starfishElapsed == s.elapsed &&
                (s.fires ==> weapons.FiredFrom(old(weapons.live), old(weapons.prefabDegreesToNext), old(weapons.prefabIdentifier))) &&
                (!s.fires ==> unchanged(weapons`live, weapons`prefabDegreesToNext, weapons`prefabIdentifier)) &&
                fault == (s.fires && weapons.CohortSize() == 0) &&
                (fault ==> unchanged(this)) &&
                (!fault ==> PickupsAdvanced(old(SkateboardTimer()), old(UmbrellaTimer()), old(playerMoveRate),
                                            old(damageReductionAmount), old(events), dt))
    {
      shots, fault := Shots(false, false, false), false;
      if isDead {
        return;
      }
      if !isPlaying {
        return;
      }
      var dart := UpdateDarts(dt);
      var raven := UpdateRavens(dt);
      var starfish;
      starfish, fault := UpdateStarfish(dt);
      shots := Shots(dart, raven, starfish);
      if fault {
        return;
      }
      UpdatePickups(dt);
    }

    /** The dart timer: frozen while a volley is being shot, otherwise grown by
        the frame time; a volley is requested when it strictly exceeds the
        cooldown. */
    method UpdateDarts(dt: real) returns (requested: bool)
      modifies weapons`dartElapsed
      ensures Gate(weapons.dartElapsed, requested)
              == DartStep(old(weapons.dartElapsed), weapons.dartCooldown, weapons.dartIsShooting, dt)
    {
      requested := false;
      if weapons.dartIsShooting {
        return;
      }
      weapons.dartElapsed := weapons.dartElapsed + dt;
      if weapons.dartElapsed > weapons.dartCooldown && !weapons.dartIsShooting {
        requested := true;
      }
    }

    /** The Raven timer: untouched while disabled; otherwise grown by the frame
        time and, on strictly exceeding the cooldown, reset to zero as a Raven
        is fired. */
    method UpdateRavens(dt: real) returns (fired: bool)
      modifies weapons`ravenElapsed
      ensures Gate(weapons.ravenElapsed, fired)
              == RavenStep(weapons.ravenIsEnabled, old(weapons.ravenElapsed), weapons.ravenCooldown, dt)
    {
      fired := false;
      if !weapons.ravenIsEnabled {
        return;
      }
      weapons.ravenElapsed := weapons.ravenElapsed + dt;
      if weapons.ravenElapsed > weapons.ravenCooldown {
        weapons.ravenElapsed := 0.0;
        fired := true;
      }
    }

    /** The Starfish timer: untouched while disabled or while a cohort is
        orbiting; otherwise grown by the frame time and, on strictly exceeding
        the cooldown, reset to zero as a cohort is fired. */
    method UpdateStarfish(dt: real) returns (fired: bool, fault: bool)
      modifies weapons`starfishElapsed, weapons`live, weapons`prefabDegreesToNext, weapons`prefabIdentifier
      ensures Gate(weapons.starfishElapsed, fired)
              == StarfishStep(weapons.starfishIsEnabled, weapons.starfishIsActive, old(weapons.starfishElapsed),
                              weapons.StarfishCooldown(), dt)
      ensures fired ==> weapons.FiredFrom(old(weapons.live), old(weapons.prefabDegreesToNext), old(weapons.prefabIdentifier))
      ensures !fired ==> unchanged(weapons`live, weapons`prefabDegreesToNext, weapons`prefabIdentifier)
      ensures fault <==> fired && weapons.CohortSize() == 0
    {
      fired, fault := false, false;
      if !weapons.starfishIsEnabled {
        return;
      }
      if weapons.starfishIsActive {
        return;
      }
      weapons.starfishElapsed := weapons.starfishElapsed + dt;
      if weapons.starfishElapsed > weapons.StarfishCooldown() {
        weapons.starfishElapsed := 0.0;
        fired := true;
        var ok := weapons.Fire();
        fault := !ok;
      }
    }

    /** Advances the two pickup timers and undoes an expired pickup. */
    method UpdatePickups(dt: real)
      modifies this`playerMoveRate, this`hasPickedUpSkateboard, this`timeElapsedSinceLastSkateboard,
               this`hasPickedUpUmbrella, this`timeElapsedSinceLastUmbrella, this`damageReductionAmount,
               this`events
      ensures PickupsAdvanced(old(SkateboardTimer()), old(UmbrellaTimer()), old(playerMoveRate),
                              old(damageReductionAmount), old(events), dt)
    {
      if hasPickedUpSkateboard {
        timeElapsedSinceLastSkateboard := timeElapsedSinceLastSkateboard + dt;
        if timeElapsedSinceLastSkateboard > timeBasedPickupDuration {
          hasPickedUpSkateboard := false;
          playerMoveRate := baseMoveRate;
          timeElapsedSinceLastSkateboard := 0.0;
          events := events + [PickupExpired(Skateboard)];
        }
      }
      if hasPickedUpUmbrella {
        timeElapsedSinceLastUmbrella := timeElapsedSinceLastUmbrella + dt;
        if timeElapsedSinceLastUmbrella > timeBasedPickupDuration {
          hasPickedUpUmbrella := false;
          damageReductionAmount := 0.0;
          timeElapsedSinceLastUmbrella := 0.0;
          events := events + [PickupExpired(Umbrella)];
        }
      }
    }

    /** A hit: hit points lose the mitigated damage, floored at zero, and
        reaching zero marks the player dead. A dead player is not exempt. */
    method TakeDamage(damage: int := 0)
      modifies this`hitPoints, this`isDead
      ensures hitPoints == HitPointsAfterDamage(old(hitPoints), damage, damageReductionAmount)
      ensures isDead <==> old(isDead) || hitPoints == 0
    {
      hitPoints := hitPoints - Mitigated(damage, damageReductionAmount);
      hitPoints := if hitPoints < 0 then 0 else hitPoints;
      if hitPoints == 0 {
        // the death coroutine marks the player dead before its first wait
        isDead := true;
      }
    }

    /** Healing: hit points gain the amount, capped at `HealCap` whatever
        `maxHitPoints` is. A dead player is not exempt. */
    method HealDamage(healAmount: int := 0)
      modifies this`hitPoints
      ensures hitPoints == HitPointsAfterHeal(old(hitPoints), healAmount)
    {
      hitPoints := hitPoints + healAmount;
      hitPoints := if hitPoints < HealCap then hitPoints else HealCap;
    }

    /** The skateboard pickup (or its removal): the move rate is overwritten
        and the flag set from the argument; picking it up restarts its timer,
        so a second skateboard replaces the first instead of adding to it. */
    method SpeedUp(newSpeed: int, hasSkateboard: bool := false)
      modifies this`playerMoveRate, this`hasPickedUpSkateboard, this`timeElapsedSinceLastSkateboard
      ensures playerMoveRate == newSpeed as real
      ensures SkateboardTimer() == if hasSkateboard then Timed(true, 0.0)
                                   else Timed(false, old(timeElapsedSinceLastSkateboard))
    {
      playerMoveRate := newSpeed as real;
      hasPickedUpSkateboard := hasSkateboard;
      if hasPickedUpSkateboard {
        timeElapsedSinceLastSkateboard := 0.0;
      }
    }

    /** The umbrella pickup (or its removal): the damage reduction is
        overwritten and the flag set from the argument; picking it up restarts
        its timer. */
    method ReduceDamage(reductionPercentage: real, hasUmbrella: bool := false)
      modifies this`damageReductionAmount, this`hasPickedUpUmbrella, this`timeElapsedSinceLastUmbrella
      ensures damageReductionAmount == reductionPercentage
      ensures UmbrellaTimer() == if hasUmbrella then Timed(true, 0.0)
                                 else Timed(false, old(timeElapsedSinceLastUmbrella))
    {
      damageReductionAmount := reductionPercentage;
      hasPickedUpUmbrella := hasUmbrella;
      if hasPickedUpUmbrella {
        timeElapsedSinceLastUmbrella := 0.0;
      }
    }
  }

  /** A player configured with a maximum of 50 and holding 40 hit points is
      healed past that maximum: healing 30 gives 70, since the cap is the
      literal 100. */
  method HealPastConfiguredMaximum(p: Player)
    requires p.maxHitPoints == 50 && p.hitPoints == 40
    modifies p
    ensures p.hitPoints == 70 > p.maxHitPoints
  {
    p.HealDamage(30);
  }
}
