/** The shared weapon state: the static fields of `Dart`, `Raven` and
    `Starfish`, the live starfish the engine is running, and the damage those
    starfish have dealt. Each Unity callback on one starfish (`Start`,
    `Update`, `LateUpdate`, `OnTriggerEnter2D`) becomes a method taking the
    index of that starfish in `live`. */
module Weapons {
  import opened Timers
  import opened StarfishRules

  /** What the physics engine reports a starfish touched: the other object's
      tag and an identity for it. */
  datatype Collider = Collider(tag: string, target: nat)

  /** One call of an enemy's `TakeDamage`. */
  datatype Hit = Hit(target: nat, amount: int)

  class World {
    // Dart: its cooldown and shooting flag belong to code outside this model
    const dartCooldown: real
    var dartIsShooting: bool
    var dartElapsed: real

    // Raven
    var ravenIsEnabled: bool
    const ravenCooldown: real
    var ravenElapsed: real

    // Starfish, with the constants it inherits from the projectile base class
    const baseDamage: int
    const baseCount: int
    const baseCooldownPercentage: real
    var damagePercentage: real
    var startingCooldown: real
    var starfishIsEnabled: bool
    var duration: real
    var degreesPerFrame: real
    var starfishIsActive: bool
    var additionalStarfish: int
    var starfishElapsed: real

    // The prefab's per-instance fields, overwritten by each spawn
    var prefabDegreesToNext: real
    var prefabIdentifier: int

    // The starfish the engine is running, and the enemy hits they dealt
    var live: seq<Orbiter>
    var hits: seq<Hit>

    /** The initial values of the Starfish static fields. The Dart and Raven
        cooldowns and the base-class constants are given; the Dart and Raven
        timers and flags start at whatever values their own classes give
        them, so nothing is promised about those. */
    constructor (dartCooldown: real, ravenCooldown: real, baseDamage: int, baseCount: int, baseCooldownPercentage: real)
      ensures this.dartCooldown == dartCooldown && this.ravenCooldown == ravenCooldown
      ensures this.baseDamage == baseDamage && this.baseCount == baseCount
      ensures this.baseCooldownPercentage == baseCooldownPercentage
      ensures CurrentTuning() == InitialTuning
      ensures degreesPerFrame == 180.0 && !starfishIsActive && additionalStarfish == 0
      ensures live == [] && hits == []
    {
      this.dartCooldown := dartCooldown;
      this.ravenCooldown := ravenCooldown;
      this.baseDamage := baseDamage;
      this.baseCount := baseCount;
      this.baseCooldownPercentage := baseCooldownPercentage;
      damagePercentage := 0.9;
      startingCooldown := 5.0;
      starfishIsEnabled := false;
      duration := 5.0;
      degreesPerFrame := 180.0;
      starfishIsActive := false;
      additionalStarfish := 0;
      starfishElapsed := 0.0;
      prefabDegreesToNext := 0.0;
      prefabIdentifier := 0;
      live := [];
      hits := [];
    }

    /** Damage dealt by one starfish overlap, at the current tuning. */
    function StarfishDamage(): int
      reads this
    {
      Damage(baseDamage, damagePercentage)
    }

    /** Seconds between cohorts, at the current tuning. */
    function StarfishCooldown(): real
      reads this
    {
      Cooldown(baseCooldownPercentage, startingCooldown)
    }

    /** How many starfish one `Fire` spawns. */
    function CohortSize(): int
      reads this
    {
      baseCount + additionalStarfish
    }

    /** The fields the upgrade table reads and writes. */
    function CurrentTuning(): Tuning
      reads this
    {
      Tuning(starfishIsEnabled, starfishElapsed, duration, damagePercentage, startingCooldown)
    }

    /** The state `Fire` leaves, given `live` and the prefab fields before it:
        for a positive cohort size `n`, the cohort is appended and the prefab
        holds the spacing and the last identifier; otherwise nothing changed. */
    ghost predicate FiredFrom(live0: seq<Orbiter>, degreesToNext0: real, identifier0: int)
      reads this
    {
      var n := CohortSize();
      if n <= 0 then
        live == live0 && prefabDegreesToNext == degreesToNext0 && prefabIdentifier == identifier0
      else
        live == live0 + Cohort(n, Spacing(n)) &&
        prefabDegreesToNext == Spacing(n) as real && prefabIdentifier == n - 1
    }

    /** Spawns a cohort. A cohort size of zero raises a division by zero
        before anything is spawned (`ok` is false); a negative size spawns
        nothing. Otherwise `n` starfish with identifiers 0 to n-1 and the
        integer spacing 360 / n are appended to `live`, and the prefab is left
        holding the last identifier. */
    method Fire() returns (ok: bool)
      modifies this`live, this`prefabDegreesToNext, this`prefabIdentifier
      ensures ok <==> CohortSize() != 0
      ensures FiredFrom(old(live), old(prefabDegreesToNext), old(prefabIdentifier))
    {
      var n := baseCount + additionalStarfish;
      if n == 0 {
        return false;
      }
      ok := true;
      // integer division, truncating toward zero as C# does
      var spacing := if 0 < n then 360 / n else -(360 / -n);
      var i := 0;
      while i < n
        invariant 0 <= i && (i <= n || i == 0)
        invariant live == old(live) + Cohort(i, spacing)
        invariant i == 0 ==> unchanged(this`prefabDegreesToNext, this`prefabIdentifier)
        invariant 0 < i ==> prefabDegreesToNext == spacing as real && prefabIdentifier == i - 1
      {
        prefabDegreesToNext := spacing as real;
        prefabIdentifier := i;
        live := live + [Spawned(i, spacing)];
        i := i + 1;
      }
    }

    /** The engine starts starfish `k`: the cohort becomes active and the
        starfish is placed at its starting angle. */
    method Start(k: nat)
      requires k < |live|
      modifies this`live, this`starfishIsActive
      ensures starfishIsActive
      ensures live == old(live)[k := old(live)[k].(angle := StartAngle(old(live)[k]), started := true)]
    {
      starfishIsActive := true;
      live := live[k := live[k].(angle := StartAngle(live[k]), started := true)];
    }

    /** One frame of starfish `k`'s lifetime: its time since activation grows
        by the frame time; when that strictly exceeds `duration` the starfish
        is destroyed and the whole cohort is marked inactive. */
    method Update(k: nat, dt: real) returns (destroyed: bool)
      requires k < |live|
      modifies this`live, this`starfishIsActive
      ensures var e := ExpiryStep(Timed(true, old(live)[k].elapsed), duration, dt);
              destroyed == e.expired &&
              (destroyed ==> !starfishIsActive && live == old(live)[..k] + old(live)[k + 1..]) &&
              (!destroyed ==> starfishIsActive == old(starfishIsActive) &&
                              live == old(live)[k := old(live)[k].(elapsed := e.timer.elapsed)])
    {
      var elapsed := live[k].elapsed + dt;
      live := live[k := live[k].(elapsed := elapsed)];
      destroyed := elapsed > duration;
      if destroyed {
        starfishIsActive := false;
        live := live[..k] + live[k + 1..];
      }
    }

    /** One frame of starfish `k`'s orbit: it turns by `degreesPerFrame`
        times the frame time. */
    method LateUpdate(k: nat, dt: real)
      requires k < |live|
      modifies this`live
      ensures live == old(live)[k := old(live)[k].(angle := Spin(old(live)[k].angle, degreesPerFrame, [dt]))]
    {
      assert [dt][1..] == [];
      assert Spin(live[k].angle, degreesPerFrame, [dt]) == Spin(live[k].angle + degreesPerFrame * dt, degreesPerFrame, []);
      live := live[k := live[k].(angle := live[k].angle + degreesPerFrame * dt)];
    }

    /** Live starfish `k` touched something: an enemy takes one hit of the
        current starfish damage; a barrier is only excluded from further
        collisions (not modelled); any other tag is ignored. No starfish is
        removed. */
    method OnTriggerEnter2D(k: nat, other: Collider)
      requires k < |live|
      modifies this`hits
      ensures other.tag == "Enemy" ==> hits == old(hits) + [Hit(other.target, StarfishDamage())]
      ensures other.tag != "Enemy" ==> hits == old(hits)
    {
      if other.tag == "Enemy" {
        DamageEnemy(other.target);
      } else if other.tag == "Barrier" {
        // the engine is told to ignore this pair from now on; no damage
      }
    }

    /** Calls the enemy's `TakeDamage` with the current starfish damage. */
    method DamageEnemy(target: nat)
      modifies this`hits
      ensures hits == old(hits) + [Hit(target, StarfishDamage())]
    {
      hits := hits + [Hit(target, StarfishDamage())];
    }

    /** Applies one level of the upgrade table. */
    method UpgradeStarfish(level: int)
      modifies this`starfishIsEnabled, this`starfishElapsed, this`duration, this`damagePercentage, this`startingCooldown
      ensures CurrentTuning() == Upgrade(old(CurrentTuning()), baseCooldownPercentage, level)
    {
      if level == 1 {
        starfishIsEnabled := true;
        starfishElapsed := StarfishCooldown() - 1.0;
      } else if level == 2 {
        duration := duration * 1.2;
        damagePercentage := 1.2;
      } else if level == 3 {
        duration := duration * 1.5;
        startingCooldown := startingCooldown * 0.7;
      }
    }
  }
}
