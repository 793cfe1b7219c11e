/** The older enemy stat component (Assets/Scripts/EnemyStats.cs), built on
    the older stat table: Start seeds Life 50 and PhysicalDamage 15 in a new
    table, and TakeDamage lowers Life's base and calls Die at or below 0. */
module LegacyEnemyStats {
  import opened StatSystem
  import opened LegacyCharacterStats
  import opened LifeDamage

  /** The table Start leaves. */
  function SeededView(): map<string, StatState>
  {
    map["Life" := StatState(50.0, [], []), "PhysicalDamage" := StatState(15.0, [], [])]
  }

  class EnemyStats {
    var stats: CharacterStats?
    /** Die calls so far (each destroys the game object). */
    var dieCalls: nat

    constructor ()
      ensures stats == null && dieCalls == 0
    {
      stats := null;
      dieCalls := 0;
    }

    /** Start: a new table, then AddStat Life 50 and PhysicalDamage 15 (each
        only if absent, which on a new table they are). */
    method Start()
      modifies this`stats
      ensures stats != null && fresh(stats) && stats.Valid()
      ensures stats.View() == SeededView()
    {
      var table := new CharacterStats();
      table.AddStat("Life", 50.0);
      table.AddStat("PhysicalDamage", 15.0);
      stats := table;
    }

    /** TakeDamage: Life's base drops by the amount, unfloored; no other stat
        changes; Die is called when the new base is at most 0. */
    method TakeDamage(amount: real)
      requires stats != null && stats.Valid()
      modifies this`dieCalls, stats, stats.stats.Values
      ensures stats.Valid()
      ensures stats.View() == LifeLowered(old(stats.View()), amount)
      ensures dieCalls == old(dieCalls) + (if LifeBase(stats.View()) <= 0.0 then 1 else 0)
    {
      var cs := stats;
      var newBase := LowerLegacyLife(cs, amount);
      if newBase <= 0.0 {
        dieCalls := dieCalls + 1;
      }
    }
  }

  /** `GetStat("Life").BaseValue -= amount` on the older table, returning
      the new base. */
  method LowerLegacyLife(cs: CharacterStats, amount: real) returns (newBase: real)
    requires cs.Valid()
    modifies cs, cs.stats.Values
    ensures cs.Valid()
    ensures cs.View() == LifeLowered(old(cs.View()), amount)
    ensures newBase == LifeBase(cs.View())
  {
    var health := cs.GetStat("Life");
    ghost var mid := cs.View();
    health.baseValue := health.baseValue - amount;
    ViewAfterChange(cs, "Life", mid);
    newBase := health.baseValue;
  }

  /** After changing the one Stat object held under `name`, the table's view
      differs from `before` only at `name`. */
  lemma ViewAfterChange(cs: CharacterStats, name: string, before: map<string, StatState>)
    requires cs.Valid() && name in cs.stats && before.Keys == cs.stats.Keys
    requires forall k | k in cs.stats && k != name :: before[k] == cs.stats[k].State()
    ensures cs.View() == before[name := cs.stats[name].State()]
  {
  }

  /** From Start, a single hit of at least 50 kills the enemy and one below
      50 does not; PhysicalDamage is untouched either way. */
  lemma FirstHitAfterStart(amount: real)
    ensures LifeBase(LifeLowered(SeededView(), amount)) <= 0.0 <==> amount >= 50.0
    ensures LifeLowered(SeededView(), amount)["PhysicalDamage"] == StatState(15.0, [], [])
  {
  }
}
