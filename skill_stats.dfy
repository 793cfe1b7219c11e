/** The configuration asset of a skill (Assets/Scripts/Combat/SkillStats.cs).
    It is only ever read, so it is a value. */
module SkillConfig {
  datatype SkillStats = SkillStats(
    skillName: string,
    baseCooldownTime: real,
    projectileSpeed: real,
    defaultProjectileDuration: real,
    projectileAmount: int,
    spreadAngle: real,
    attackDamageModifier: real,
    baseCriticalChance: real,
    critMultiplier: real,
    minPhysicalDamage: real, maxPhysicalDamage: real,
    minFireDamage: real, maxFireDamage: real,
    minColdDamage: real, maxColdDamage: real,
    minLightningDamage: real, maxLightningDamage: real,
    minChaosDamage: real, maxChaosDamage: real)

  /** The inspector limits declared with `[Range]`: the damage modifier in
      [0, 5] and the critical chance in [0, 1]. */
  predicate InDeclaredRanges(s: SkillStats)
  {
    0.0 <= s.attackDamageModifier <= 5.0 && 0.0 <= s.baseCriticalChance <= 1.0
  }

  /** The field initializers of a new asset. */
  function DefaultSkillStats(): (r: SkillStats)
    ensures InDeclaredRanges(r)
    ensures r.skillName == "Skill" && r.baseCooldownTime == 1.0
    ensures r.projectileSpeed == 10.0 && r.defaultProjectileDuration == 1.0
    ensures r.projectileAmount == 1 && r.spreadAngle == 5.0
    ensures r.attackDamageModifier == 1.0 && r.baseCriticalChance == 0.05 && r.critMultiplier == 2.0
    ensures r.minPhysicalDamage == r.maxPhysicalDamage == 0.0
    ensures r.minFireDamage == r.maxFireDamage == 0.0
    ensures r.minColdDamage == r.maxColdDamage == 0.0
    ensures r.minLightningDamage == r.maxLightningDamage == 0.0
    ensures r.minChaosDamage == r.maxChaosDamage == 0.0
  {
    SkillStats("Skill", 1.0, 10.0, 1.0, 1, 5.0, 1.0, 0.05, 2.0,
               0.0, 0.0, 0.0, 0.0, 0.0, 0.0, 0.0, 0.0, 0.0, 0.0)
  }
}
