/** The ranged skill (Assets/Scripts/Combat/ProjectileSkill.cs): one
    activation rolls one AttackData and spawns a fan of projectiles that all
    carry it. Spawning becomes a list of requests; the random draws are
    parameters. */
module ProjectileSkills {
  import opened Wrappers
  import opened SkillConfig
  import opened Skills
  import opened CharacterStatsModel
  import Weapons

  /** The result of one damage roll (the `AttackData` class). */
  datatype AttackData = AttackData(damage: real, isCriticalHit: bool)

  /** The arguments of one `Projectile.Initialize` call, minus the direction
      vector: its angle offset from the aim stands for it. */
  datatype SpawnRequest = SpawnRequest(angleOffset: real, speed: real, data: AttackData,
                                       duration: real, targetType: TargetType)

  /** `Random.Range(lo, hi)` for floats. */
  datatype Range = Range(lo: real, hi: real)
  datatype Ranges = Ranges(physical: Range, fire: Range, cold: Range, lightning: Range, chaos: Range)

  /** The six draws of one attack, each in [0, 1]: five interpolation
      fractions for the damage rolls and `Random.value` for the critical roll. */
  datatype Rolls = Rolls(physical: real, fire: real, cold: real, lightning: real, chaos: real, crit: real)

  predicate RollsInUnit(r: Rolls)
  {
    0.0 <= r.physical <= 1.0 && 0.0 <= r.fire <= 1.0 && 0.0 <= r.cold <= 1.0
    && 0.0 <= r.lightning <= 1.0 && 0.0 <= r.chaos <= 1.0 && 0.0 <= r.crit <= 1.0
  }

  /** Where the damage numbers come from: the five ranges, the base critical
      chance and the critical multiplier. */
  datatype Source = Source(ranges: Ranges, critChance: real, critMultiplier: real)

  function Roll(rg: Range, t: real): real
  {
    rg.lo + t * (rg.hi - rg.lo)
  }

  function RawDamage(rg: Ranges, r: Rolls): real
  {
    Roll(rg.physical, r.physical) + Roll(rg.fire, r.fire) + Roll(rg.cold, r.cold)
    + Roll(rg.lightning, r.lightning) + Roll(rg.chaos, r.chaos)
  }

  function MinDamage(rg: Ranges): real
  {
    rg.physical.lo + rg.fire.lo + rg.cold.lo + rg.lightning.lo + rg.chaos.lo
  }

  function MaxDamage(rg: Ranges): real
  {
    rg.physical.hi + rg.fire.hi + rg.cold.hi + rg.lightning.hi + rg.chaos.hi
  }

  predicate Ordered(rg: Ranges)
  {
    rg.physical.lo <= rg.physical.hi && rg.fire.lo <= rg.fire.hi && rg.cold.lo <= rg.cold.hi
    && rg.lightning.lo <= rg.lightning.hi && rg.chaos.lo <= rg.chaos.hi
  }

  function WeaponSource(w: Weapons.WeaponFields): Source
  {
    Source(Ranges(Range(w.minPhysicalDamage, w.maxPhysicalDamage), Range(w.minFireDamage, w.maxFireDamage),
                  Range(w.minColdDamage, w.maxColdDamage), Range(w.minLightningDamage, w.maxLightningDamage),
                  Range(w.minChaosDamage, w.maxChaosDamage)),
           w.baseCriticalChance, w.critMultiplier)
  }

  function SkillSource(s: SkillStats): Source
  {
    Source(Ranges(Range(s.minPhysicalDamage, s.maxPhysicalDamage), Range(s.minFireDamage, s.maxFireDamage),
                  Range(s.minColdDamage, s.maxColdDamage), Range(s.minLightningDamage, s.maxLightningDamage),
                  Range(s.minChaosDamage, s.maxChaosDamage)),
           s.baseCriticalChance, s.critMultiplier)
  }

  /** The weapon's numbers are used iff the skill is weapon-based and a weapon
      is equipped; otherwise the skill's own. */
  function DamageSource(isWeaponDamageSkill: bool, weapon: Option<Weapons.WeaponFields>, s: SkillStats): (r: Source)
    ensures isWeaponDamageSkill && weapon.Some? ==> r == WeaponSource(weapon.value)
    ensures !(isWeaponDamageSkill && weapon.Some?) ==> r == SkillSource(s)
  {
    if isWeaponDamageSkill && weapon.Some? then WeaponSource(weapon.value) else SkillSource(s)
  }

  /** ComputeAttackDamage: the five rolls are summed, scaled by the owner's
      damage multiplier, by the critical multiplier (source value plus the
      owner's bonus) when the critical roll is below the chance (source value
      plus the owner's bonus), and by the skill's damage modifier. */
  function ComputeAttackDamage(isWeaponDamageSkill: bool, weapon: Option<Weapons.WeaponFields>,
                               owner: ScalarState, s: SkillStats, rolls: Rolls): (r: AttackData)
    ensures var src := DamageSource(isWeaponDamageSkill, weapon, s);
            && (r.isCriticalHit <==> rolls.crit < src.critChance + owner.critChanceBonus)
            && r.damage == RawDamage(src.ranges, rolls) * owner.damageMultiplier
                           * (if r.isCriticalHit then src.critMultiplier + owner.critMultiplierBonus else 1.0)
                           * s.attackDamageModifier
  {
    var src := DamageSource(isWeaponDamageSkill, weapon, s);
    var totalCritChance := src.critChance + owner.critChanceBonus;
    var totalCritMultiplier := src.critMultiplier + owner.critMultiplierBonus;
    var afterOwner := RawDamage(src.ranges, rolls) * owner.damageMultiplier;
    var isCrit := rolls.crit < totalCritChance;
    var afterCrit := if isCrit then afterOwner * totalCritMultiplier else afterOwner;
    AttackData(afterCrit * s.attackDamageModifier, isCrit)
  }

  /** Each roll lands in its range. */
  lemma RollInRange(rg: Range, t: real)
    requires 0.0 <= t <= 1.0 && rg.lo <= rg.hi
    ensures rg.lo <= Roll(rg, t) <= rg.hi
  {
    var d := rg.hi - rg.lo;
    assert t * d >= 0.0;
    assert (1.0 - t) * d >= 0.0;
  }

  /** The raw damage lies between the sums of the minima and of the maxima. */
  lemma RawDamageInRange(rg: Ranges, r: Rolls)
    requires Ordered(rg) && RollsInUnit(r)
    ensures MinDamage(rg) <= RawDamage(rg, r) <= MaxDamage(rg)
  {
    RollInRange(rg.physical, r.physical);
    RollInRange(rg.fire, r.fire);
    RollInRange(rg.cold, r.cold);
    RollInRange(rg.lightning, r.lightning);
    RollInRange(rg.chaos, r.chaos);
  }

  /** A total critical chance of 0 or less never crits; one above 1 always does. */
  lemma CritChanceBounds(isWeaponDamageSkill: bool, weapon: Option<Weapons.WeaponFields>,
                         owner: ScalarState, s: SkillStats, rolls: Rolls)
    requires RollsInUnit(rolls)
    ensures var chance := DamageSource(isWeaponDamageSkill, weapon, s).critChance + owner.critChanceBonus;
            && (chance <= 0.0 ==> !ComputeAttackDamage(isWeaponDamageSkill, weapon, owner, s, rolls).isCriticalHit)
            && (chance > 1.0 ==> ComputeAttackDamage(isWeaponDamageSkill, weapon, owner, s, rolls).isCriticalHit)
  {
  }

  /** A skill that is not weapon-based ignores the weapon, and a weapon-based
      skill without a weapon behaves like one that is not. */
  lemma IndependentSkillIgnoresWeapon(w1: Option<Weapons.WeaponFields>, w2: Option<Weapons.WeaponFields>,
                                      owner: ScalarState, s: SkillStats, rolls: Rolls)
    ensures ComputeAttackDamage(false, w1, owner, s, rolls) == ComputeAttackDamage(false, w2, owner, s, rolls)
    ensures ComputeAttackDamage(true, None, owner, s, rolls) == ComputeAttackDamage(false, w2, owner, s, rolls)
  {
  }

  /** With non-negative factors, the damage lies between the scaled minimum
      and maximum rolls, a critical hit using its multiplier. */
  lemma DamageInRange(isWeaponDamageSkill: bool, weapon: Option<Weapons.WeaponFields>,
                      owner: ScalarState, s: SkillStats, rolls: Rolls)
    requires RollsInUnit(rolls)
    requires Ordered(DamageSource(isWeaponDamageSkill, weapon, s).ranges)
    requires owner.damageMultiplier >= 0.0 && s.attackDamageModifier >= 0.0
    requires DamageSource(isWeaponDamageSkill, weapon, s).critMultiplier + owner.critMultiplierBonus >= 0.0
    ensures var src := DamageSource(isWeaponDamageSkill, weapon, s);
            var r := ComputeAttackDamage(isWeaponDamageSkill, weapon, owner, s, rolls);
            var k := owner.damageMultiplier * (if r.isCriticalHit then src.critMultiplier + owner.critMultiplierBonus else 1.0)
                     * s.attackDamageModifier;
            MinDamage(src.ranges) * k <= r.damage <= MaxDamage(src.ranges) * k
  {
    var src := DamageSource(isWeaponDamageSkill, weapon, s);
    var r := ComputeAttackDamage(isWeaponDamageSkill, weapon, owner, s, rolls);
    var m := if r.isCriticalHit then src.critMultiplier + owner.critMultiplierBonus else 1.0;
    var k := owner.damageMultiplier * m * s.attackDamageModifier;
    var raw := RawDamage(src.ranges, rolls);
    RawDamageInRange(src.ranges, rolls);
    assert k >= 0.0 by {
      assert owner.damageMultiplier * m >= 0.0;
    }
    assert r.damage == raw * k;
    assert MinDamage(src.ranges) * k <= raw * k by {
      assert (raw - MinDamage(src.ranges)) * k >= 0.0;
    }
    assert raw * k <= MaxDamage(src.ranges) * k by {
      assert (MaxDamage(src.ranges) - raw) * k >= 0.0;
    }
  }

  // ---------------------------------------------------------------------
  // The fan of projectiles

  /** The angle offset of projectile `i` out of `count`, as written:
      `startAngle + i * totalSpread / max(count - 1, 1) * i`. The index is
      multiplied in twice. */
  function SpreadOffset(i: int, count: int, spreadAngle: real): (r: real)
    ensures i == 0 ==> r == -((count - 1) as real * spreadAngle) / 2.0
    ensures count == 1 ==> r == 0.0
  {
    var totalSpread := (count - 1) as real * spreadAngle;
    var startAngle := -totalSpread / 2.0;
    var divisor := if count - 1 > 0 then count - 1 else 1;
    startAngle + i as real * totalSpread / divisor as real * i as real
  }

  /** Closed form: the offsets grow with the SQUARE of the index. */
  lemma SpreadOffsetQuadratic(i: int, count: int, spreadAngle: real)
    requires count >= 2
    ensures SpreadOffset(i, count, spreadAngle)
            == -((count - 1) as real) * spreadAngle / 2.0 + (i * i) as real * spreadAngle
  {
    var n := (count - 1) as real;
    assert n > 0.0;
    assert i as real * (n * spreadAngle) / n == i as real * spreadAngle;
  }

  /** One projectile flies straight; two fan out symmetrically by half the
      spread angle each way. */
  lemma SmallVolleys(spreadAngle: real)
    ensures SpreadOffset(0, 1, spreadAngle) == 0.0
    ensures SpreadOffset(0, 2, spreadAngle) == -spreadAngle / 2.0
    ensures SpreadOffset(1, 2, spreadAngle) == spreadAngle / 2.0
  {
    SpreadOffsetQuadratic(0, 2, spreadAngle);
    SpreadOffsetQuadratic(1, 2, spreadAngle);
  }

  /** From three projectiles on, the fan is lopsided: with a spread of 5
      degrees the offsets are -5, 0 and 15. */
  lemma ThreeProjectilesLopsided()
    ensures SpreadOffset(0, 3, 5.0) == -5.0
    ensures SpreadOffset(1, 3, 5.0) == 0.0
    ensures SpreadOffset(2, 3, 5.0) == 15.0
  {
    SpreadOffsetQuadratic(0, 3, 5.0);
    SpreadOffsetQuadratic(1, 3, 5.0);
    SpreadOffsetQuadratic(2, 3, 5.0);
  }

  /** `count` spawn requests (none when count <= 0), all carrying the same
      AttackData, speed, duration and target type. */
  function Volley(count: int, spreadAngle: real, speed: real, data: AttackData,
                  duration: real, targetType: TargetType): (r: seq<SpawnRequest>)
    ensures |r| == if count > 0 then count else 0
    ensures forall i | 0 <= i < |r| ::
              r[i] == SpawnRequest(SpreadOffset(i, count, spreadAngle), speed, data, duration, targetType)
  {
    var n := if count > 0 then count else 0;
    seq(n, i => SpawnRequest(SpreadOffset(i, count, spreadAngle), speed, data, duration, targetType))
  }

  /** `speed * (1 + increase / 100)`, for both speed and duration. */
  function Increased(base: real, percent: real): real
  {
    base * (1.0 + percent / 100.0)
  }

  /** The properties of the equipped weapon, if any. */
  function WeaponOf(equippedWeapon: Weapons.Weapon?): Option<Weapons.WeaponFields>
    reads equippedWeapon
  {
    if equippedWeapon == null then None else Some(equippedWeapon.properties)
  }

  /** The volley an activation fires once its guards pass: the weapon's
      projectile count whenever a weapon is present, speed and duration
      raised by the owner's percentages, and one AttackData for the whole
      volley. */
  function Shot(isWeaponDamageSkill: bool, s: SkillStats, targetType: TargetType, owner: ScalarState,
                weapon: Option<Weapons.WeaponFields>, rolls: Rolls): seq<SpawnRequest>
  {
    var count := if weapon.None? then s.projectileAmount else weapon.value.projectileAmount;
    Volley(count, s.spreadAngle, Increased(s.projectileSpeed, owner.increasedProjectileSpeed),
           ComputeAttackDamage(isWeaponDamageSkill, weapon, owner, s, rolls),
           Increased(s.defaultProjectileDuration, owner.increasedDuration), targetType)
  }

  class ProjectileSkill {
    const skill: Skill
    var isWeaponDamageSkill: bool

    constructor (skill: Skill)
      ensures this.skill == skill && isWeaponDamageSkill
    {
      this.skill := skill;
      isWeaponDamageSkill := true;
    }

    /** ActivateSkill: nothing happens unless the skill is ready, has its
        asset and its owner has stats. Otherwise the projectile count is the
        weapon's whenever a weapon is present, speed and duration are raised
        by the owner's percentages, one AttackData is rolled for the whole
        volley, and the cooldown restarts even if the count is 0 or less. */
    method ActivateSkill(ownerStats: CharacterStats?, equippedWeapon: Weapons.Weapon?, rolls: Rolls)
      returns (spawns: seq<SpawnRequest>)
      modifies skill`currentCooldownTime
      ensures !old(skill.IsSkillReady()) || skill.skillBaseStats.None? || ownerStats == null ==>
                spawns == [] && skill.currentCooldownTime == old(skill.currentCooldownTime)
      ensures old(skill.IsSkillReady()) && skill.skillBaseStats.Some? && ownerStats != null ==>
                spawns == Shot(isWeaponDamageSkill, skill.skillBaseStats.value, skill.targetType,
                               ownerStats.Scalars(), WeaponOf(equippedWeapon), rolls)
                && skill.currentCooldownTime == skill.baseCooldownTime
    {
      spawns := [];
      if !skill.IsSkillReady() || skill.skillBaseStats.None? {
        return;
      }
      if ownerStats == null {
        return;
      }
      var s := skill.skillBaseStats.value;
      var modifiedSpeed := Increased(s.projectileSpeed, ownerStats.increasedProjectileSpeed);
      var modifiedDuration := Increased(s.defaultProjectileDuration, ownerStats.increasedDuration);
      var projectileCount := s.projectileAmount;
      var weapon: Option<Weapons.WeaponFields> := None;
      if equippedWeapon != null {
        projectileCount := equippedWeapon.properties.projectileAmount;
        weapon := Some(equippedWeapon.properties);
      }
      var attackData := ComputeAttackDamage(isWeaponDamageSkill, weapon, ownerStats.Scalars(), s, rolls);
      ghost var expected := Volley(projectileCount, s.spreadAngle, modifiedSpeed, attackData, modifiedDuration, skill.targetType);
      var i := 0;
      while i < projectileCount
        invariant 0 <= i <= |expected|
        invariant spawns == expected[..i]
      {
        var angleOffset := SpreadOffset(i, projectileCount, s.spreadAngle);
        spawns := spawns + [SpawnRequest(angleOffset, modifiedSpeed, attackData, modifiedDuration, skill.targetType)];
        i := i + 1;
      }
      assert spawns == expected;
      skill.BeginCooldown();
    }
  }
}
