/** The one way direct hits hurt a character in this code base:
    `targetStats.GetStat("Life").BaseValue -= damage`, written out in place by
    Projectile, MeleeAttackSkill, EnemyMeleeAttack and EnemyStats. The Life
    stat is created at 0 when missing, and its base is not floored. */
module LifeDamage {
  import opened StatSystem
  import opened CharacterStatsModel
  import opened Items

  /** The base of the Life stat, 0 when there is none yet. */
  function LifeBase(v: map<string, StatState>): real
  {
    if "Life" in v then v["Life"].baseValue else 0.0
  }

  /** The table after lowering Life's base by `amount`. */
  function LifeLowered(v: map<string, StatState>, amount: real): (r: map<string, StatState>)
    ensures r.Keys == v.Keys + {"Life"}
    ensures forall k | k in v && k != "Life" :: r[k] == v[k]
    ensures LifeBase(r) == LifeBase(v) - amount
    ensures "Life" in v ==> r["Life"] == v["Life"].(baseValue := v["Life"].baseValue - amount)
    ensures "Life" !in v ==> r["Life"] == StatState(-amount, [], [])
  {
    var w := AfterLookup(v, "Life");
    w["Life" := w["Life"].(baseValue := w["Life"].baseValue - amount)]
  }

  /** `GetStat("Life").BaseValue -= amount`, returning the new base. */
  method LowerLife(cs: CharacterStats, amount: real) returns (newBase: real)
    requires cs.Valid()
    modifies cs, cs.stats.Values
    ensures cs.Valid()
    ensures cs.View() == LifeLowered(old(cs.View()), amount)
    ensures newBase == LifeBase(cs.View())
    ensures cs.Scalars() == old(cs.Scalars())
    ensures forall k | k in old(cs.stats) :: k in cs.stats && cs.stats[k] == old(cs.stats[k])
    ensures FreshOrKept(cs, old(cs.stats))
  {
    var life := cs.GetStat("Life");
    ghost var mid := cs.View();
    life.baseValue := life.baseValue - amount;
    forall k | k in cs.stats && k != "Life"
      ensures mid[k] == cs.stats[k].State()
    {
      assert cs.stats[k] != life;
    }
    ViewAfterStatChange(cs, "Life", mid);
    newBase := life.baseValue;
  }

  /** Two hits add up: lowering by a then by b is lowering by a + b. */
  lemma LifeLoweredTwice(v: map<string, StatState>, a: real, b: real)
    ensures LifeLowered(LifeLowered(v, a), b) == LifeLowered(v, a + b)
  {
    var r1 := LifeLowered(LifeLowered(v, a), b);
    var r2 := LifeLowered(v, a + b);
    assert r1.Keys == r2.Keys;
    forall k | k in r1
      ensures r1[k] == r2[k]
    {
    }
  }
}
