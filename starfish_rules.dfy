/** The Starfish weapon's formulas: damage and cooldown, the spacing of a
    cohort, the starting angle of each instance, the per-frame rotation and the
    level-based upgrade table. Angles are in degrees, measured from the
    starting direction (to the right of the player). */
module StarfishRules {
  import opened Numeric

  /** One live starfish: the identifier and spacing copied from the prefab when
      it was spawned, its time since activation, its angle around the player,
      and whether the engine has started it yet. */
  datatype Orbiter = Orbiter(identifier: int, degreesToNext: real, elapsed: real, angle: real, started: bool)

  /** Damage dealt per overlap: the `(int)` cast of base damage times the
      damage percentage. */
  function Damage(baseDamage: int, damagePercentage: real): (r: int)
    ensures 0 <= baseDamage && 0.0 <= damagePercentage ==>
              0 <= r && r as real <= baseDamage as real * damagePercentage < r as real + 1.0
  {
    Trunc(baseDamage as real * damagePercentage)
  }

  /** Seconds between cohorts. */
  function Cooldown(baseCooldownPercentage: real, startingCooldown: real): real
  {
    baseCooldownPercentage * startingCooldown
  }

  /** Degrees between neighbouring starfish of a cohort of `n`: 360 divided by
      `n` in integer arithmetic, so the largest whole number of degrees that
      fits `n` times into a full turn. */
  function Spacing(n: int): (s: int)
    requires 0 < n
    ensures 0 <= s && s * n <= 360 < (s + 1) * n
  {
    360 / n
  }

  /** The starfish spawned as number `i` of a cohort. */
  function Spawned(i: int, spacing: int): Orbiter
  {
    Orbiter(i, spacing as real, 0.0, 0.0, false)
  }

  /** The starfish spawned by one `Fire`, in spawn order. */
  function Cohort(n: nat, spacing: int): (c: seq<Orbiter>)
    ensures |c| == n
    ensures forall i :: 0 <= i < n ==> c[i] == Spawned(i, spacing)
  {
    if n == 0 then [] else Cohort(n - 1, spacing) + [Spawned(n - 1, spacing)]
  }

  /** The angle an instance takes when it starts: its spacing times its
      identifier. */
  function StartAngle(o: Orbiter): real
  {
    o.degreesToNext * o.identifier as real
  }

  /** Starfish `i` of a cohort of `n` starts at `i` spacings, which is a whole
      number of degrees in [0, 360). */
  lemma CohortStartAngles(n: int, i: int)
    requires 0 < n && 0 <= i < n
    ensures Cohort(n, Spacing(n))[i].identifier == i
    ensures StartAngle(Cohort(n, Spacing(n))[i]) == (Spacing(n) * i) as real
    ensures 0 <= Spacing(n) * i < 360
  {
    var s := Spacing(n);
    assert Cohort(n, s)[i] == Spawned(i, s);
    ScaleMonotone(s, i, n - 1);
    assert s * (n - 1) == s * n - s;
    if s == 0 {
      assert s * i == 0;
    }
  }

  /** Scaling by a non-negative whole number keeps order. */
  lemma ScaleMonotone(s: int, a: int, b: int)
    requires 0 <= s && 0 <= a <= b
    ensures 0 <= s * a <= s * b
  {
    assert s * b - s * a == s * (b - a);
  }

  /** In a cohort of at most 360 the starfish start at pairwise different
      angles. */
  lemma CohortStartAnglesDistinct(n: int, i: int, j: int)
    requires 0 < n <= 360 && 0 <= i < j < n
    ensures StartAngle(Cohort(n, Spacing(n))[i]) != StartAngle(Cohort(n, Spacing(n))[j])
  {
    CohortStartAngles(n, i);
    CohortStartAngles(n, j);
    ScaleStrict(Spacing(n), i, j);
  }

  /** Scaling by a positive whole number keeps strict order. */
  lemma ScaleStrict(s: int, a: int, b: int)
    requires 1 <= s && 0 <= a < b
    ensures s * a < s * b
  {
    ScaleMonotone(s, 0, b - a - 1);
    assert s * b - s * a == s * (b - a - 1) + s;
  }

  /** Beyond 360 starfish the integer spacing is 0 and every starfish of the
      cohort starts at the same angle. */
  lemma LargeCohortsCoincide(n: int, i: int)
    requires 360 < n && 0 <= i < n
    ensures Spacing(n) == 0
    ensures StartAngle(Cohort(n, Spacing(n))[i]) == 0.0
  {
    CohortStartAngles(n, i);
  }

  /** A cohort of four starts at 0, 90, 180 and 270 degrees; one of seven is
      spaced 51 degrees apart, leaving a wider gap before the first. */
  lemma CohortExamples()
    ensures Spacing(4) == 90 && Spacing(7) == 51
    ensures forall i :: 0 <= i < 4 ==> StartAngle(Cohort(4, 90)[i]) == (90 * i) as real
  {
    forall i | 0 <= i < 4 ensures StartAngle(Cohort(4, 90)[i]) == (90 * i) as real {
      CohortStartAngles(4, i);
    }
  }

  /** An angle after several frames of rotation at a fixed rate per second. */
  function Spin(angle: real, degreesPerFrame: real, dts: seq<real>): real
    decreases |dts|
  {
    if dts == [] then angle else Spin(angle + degreesPerFrame * dts[0], degreesPerFrame, dts[1..])
  }

  /** Rotation depends only on total elapsed time: after any frames the angle
      has moved by the rate times their total. */
  lemma {:induction false} SpinIsUniform(angle: real, degreesPerFrame: real, dts: seq<real>)
    ensures Spin(angle, degreesPerFrame, dts) == angle + degreesPerFrame * Sum(dts)
    decreases |dts|
  {
    if dts != [] {
      SpinIsUniform(angle + degreesPerFrame * dts[0], degreesPerFrame, dts[1..]);
      assert degreesPerFrame * Sum(dts) == degreesPerFrame * dts[0] + degreesPerFrame * Sum(dts[1..]);
    }
  }

  /** Two starfish rotated through the same frames keep the angle between
      them. */
  lemma SpinKeepsSeparation(a: real, b: real, degreesPerFrame: real, dts: seq<real>)
    ensures Spin(a, degreesPerFrame, dts) - Spin(b, degreesPerFrame, dts) == a - b
  {
    SpinIsUniform(a, degreesPerFrame, dts);
    SpinIsUniform(b, degreesPerFrame, dts);
  }

  /** The upgradable Starfish tuning: unlocked or not, the cooldown timer,
      lifetime, damage percentage and starting cooldown. */
  datatype Tuning = Tuning(isEnabled: bool, elapsed: real, duration: real, damagePercentage: real, startingCooldown: real)

  /** The tuning the weapon starts with. */
  const InitialTuning := Tuning(false, 0.0, 5.0, 0.9, 5.0)

  /** The upgrade table: level 1 unlocks and presets the timer one second
      short of the cooldown; level 2 lengthens the lifetime by 20% and sets the
      damage percentage to 1.2; level 3 lengthens the lifetime by 50% and
      shortens the starting cooldown to 70%; other levels change nothing. */
  function Upgrade(t: Tuning, baseCooldownPercentage: real, level: int): Tuning
  {
    if level == 1 then
      t.(isEnabled := true, elapsed := Cooldown(baseCooldownPercentage, t.startingCooldown) - 1.0)
    else if level == 2 then
      t.(duration := t.duration * 1.2, damagePercentage := 1.2)
    else if level == 3 then
      t.(duration := t.duration * 1.5, startingCooldown := t.startingCooldown * 0.7)
    else t
  }

  /** Levels 1, 2 and 3 in order leave the weapon unlocked, living 9 seconds,
      at 120% damage and with a starting cooldown of 3.5 seconds. */
  lemma UpgradePath(baseCooldownPercentage: real)
    ensures Upgrade(Upgrade(Upgrade(InitialTuning, baseCooldownPercentage, 1), baseCooldownPercentage, 2), baseCooldownPercentage, 3)
            == Tuning(true, baseCooldownPercentage * 5.0 - 1.0, 9.0, 1.2, 3.5)
  {
  }

  /** Level 2 assigns the damage percentage instead of scaling it, while it
      scales the lifetime: applied twice, damage stays at 1.2 and the lifetime
      grows by 44%. */
  lemma DamagePercentageIsAssigned(t: Tuning, baseCooldownPercentage: real)
    ensures Upgrade(Upgrade(t, baseCooldownPercentage, 2), baseCooldownPercentage, 2).damagePercentage == 1.2
    ensures Upgrade(Upgrade(t, baseCooldownPercentage, 2), baseCooldownPercentage, 2).duration == t.duration * 1.44
  {
  }

  /** Levels other than 1, 2 and 3 change nothing. */
  lemma OtherLevelsChangeNothing(t: Tuning, baseCooldownPercentage: real, level: int)
    requires level != 1 && level != 2 && level != 3
    ensures Upgrade(t, baseCooldownPercentage, level) == t
  {
  }

  /** Level 3 cuts the cooldown to 70% of what it was. */
  lemma Level3ShortensCooldown(t: Tuning, baseCooldownPercentage: real)
    ensures Cooldown(baseCooldownPercentage, Upgrade(t, baseCooldownPercentage, 3).startingCooldown)
            == 0.7 * Cooldown(baseCooldownPercentage, t.startingCooldown)
  {
  }

  /** From any damage percentage up to 1.2, level 2 does not lower the damage
      of a non-negative base damage. */
  lemma Level2NeverLowersDamage(t: Tuning, baseCooldownPercentage: real, baseDamage: int)
    requires 0 <= baseDamage && 0.0 <= t.damagePercentage <= 1.2
    ensures Damage(baseDamage, t.damagePercentage) <= Damage(baseDamage, Upgrade(t, baseCooldownPercentage, 2).damagePercentage)
  {
    assert baseDamage as real * t.damagePercentage <= baseDamage as real * 1.2;
    TruncMonotone(baseDamage as real * t.damagePercentage, baseDamage as real * 1.2);
  }
}
