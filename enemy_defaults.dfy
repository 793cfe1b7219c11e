/** The enemy configuration asset (Assets/Scripts/Enemy/EnemyStatDefaults.cs):
    a name, a rarity and a list of base stats. The asset is only read, so it
    is a value. */
module EnemyConfig {
  import opened StatSystem

  datatype EnemyRarity = Normal | Magic | Rare | Unique

  datatype EnemyDefaults = EnemyDefaults(enemyName: string, rarity: EnemyRarity, statModifiers: seq<StatModifier>)

  /** The names a modifier list mentions, in order. */
  function NamesOf(mods: seq<StatModifier>): seq<string>
  {
    seq(|mods|, i requires 0 <= i < |mods| => mods[i].statName)
  }

  /** The stat list of a new asset: six additive entries with pairwise
      distinct names. */
  function DefaultStatModifiers(): (r: seq<StatModifier>)
    ensures |r| == 6
    ensures forall i | 0 <= i < |r| :: !r[i].isMultiplicative
    ensures forall i, j | 0 <= i < j < |r| :: r[i].statName != r[j].statName
    ensures NamesOf(r) == ["MoveSpeed", "AttackCooldown", "DetectionRange", "AttackRange", "Life", "ExperienceGiven"]
  {
    [StatModifier("MoveSpeed", 3.0, false),
     StatModifier("AttackCooldown", 1.5, false),
     StatModifier("DetectionRange", 10.0, false),
     StatModifier("AttackRange", 2.0, false),
     StatModifier("Life", 100.0, false),
     StatModifier("ExperienceGiven", 10.0, false)]
  }

  /** The field initializers of a new asset. */
  function DefaultEnemyDefaults(): (r: EnemyDefaults)
    ensures r.enemyName == "Enemy" && r.rarity == Normal
    ensures r.statModifiers == DefaultStatModifiers()
  {
    EnemyDefaults("Enemy", Normal, DefaultStatModifiers())
  }
}
