/** The enemy's contact attack (Assets/Scripts/Enemy/EnemyMeleeAttack.cs): a
    hit timer that counts down while positive, and a damage attempt on every
    trigger enter or stay. A "Player"-tagged object with stats loses the
    enemy's AttackDamage value (or the fallback when the enemy has no stat
    table) from Life's base, unfloored, and the timer restarts. */
module EnemyMeleeAttacks {
  import opened StatSystem
  import opened CharacterStatsModel
  import opened Items
  import opened LifeDamage

  /** The damage of one hit: the AttackDamage stat's value when the enemy has
      a table (the lookup creates the stat at 0 when missing, so the fallback
      is then never used), else the fallback. */
  function AttackDamage(enemyView: map<string, StatState>, hasTable: bool, fallback: real): (r: real)
    ensures !hasTable ==> r == fallback
    ensures hasTable && "AttackDamage" !in enemyView ==> r == 0.0
    ensures hasTable && "AttackDamage" in enemyView ==> r == ValueOf(enemyView["AttackDamage"])
  {
    if hasTable then ValueOf(AfterLookup(enemyView, "AttackDamage")["AttackDamage"]) else fallback
  }

  /** The player's table after a landing hit. When the enemy's table is the
      player's own, the AttackDamage lookup has already added that stat to
      it before Life is lowered. */
  function PlayerAfter(playerView: map<string, StatState>, enemyView: map<string, StatState>,
                       hasTable: bool, sameTable: bool, fallback: real): map<string, StatState>
  {
    if sameTable then LifeLowered(AfterLookup(playerView, "AttackDamage"), AttackDamage(playerView, true, fallback))
    else LifeLowered(playerView, AttackDamage(enemyView, hasTable, fallback))
  }

  /** The view of a table that may be missing. */
  ghost function ViewOf(cs: CharacterStats?): map<string, StatState>
    reads cs, if cs != null then cs.stats.Values else {}
  {
    if cs != null then cs.View() else map[]
  }

  /** Whether an attempt goes through: the timer has run out and the object
      is a "Player" with stats. */
  predicate Lands(hitTimer: real, tag: string, hasStats: bool)
  {
    hitTimer <= 0.0 && tag == "Player" && hasStats
  }

  class EnemyMeleeAttack {
    // The three serialized settings are never assigned by the script.
    const hitCooldown: real
    const defaultAttackDamage: real
    const enemyCharacterStats: CharacterStats?
    var hitTimer: real

    /** Field initializers: one second between hits, 10 damage as fallback,
        ready to hit. */
    constructor (enemyCharacterStats: CharacterStats?)
      ensures hitCooldown == 1.0 && defaultAttackDamage == 10.0 && hitTimer == 0.0
      ensures this.enemyCharacterStats == enemyCharacterStats
    {
      hitCooldown := 1.0;
      defaultAttackDamage := 10.0;
      this.enemyCharacterStats := enemyCharacterStats;
      hitTimer := 0.0;
    }

    /** Update: the timer moves only while positive, without a clamp. */
    method Update(dt: real)
      modifies this`hitTimer
      ensures old(hitTimer) > 0.0 ==> hitTimer == old(hitTimer) - dt
      ensures old(hitTimer) <= 0.0 ==> hitTimer == old(hitTimer)
    {
      if hitTimer > 0.0 {
        hitTimer := hitTimer - dt;
      }
    }

    /** TryDamagePlayer, for trigger enter and stay alike. The enemy's table
        and the player's table are either the same object or share no Stat. */
    method TryDamagePlayer(tag: string, playerStats: CharacterStats?) returns (landed: bool)
      requires playerStats != null ==> playerStats.Valid()
      requires enemyCharacterStats != null ==> enemyCharacterStats.Valid()
      requires playerStats != null && enemyCharacterStats != null && playerStats != enemyCharacterStats ==>
                 playerStats.stats.Values !! enemyCharacterStats.stats.Values
      modifies this`hitTimer
      modifies if Lands(hitTimer, tag, playerStats != null) then {playerStats} else {}
      modifies if Lands(hitTimer, tag, playerStats != null) then playerStats.stats.Values else {}
      modifies if Lands(hitTimer, tag, playerStats != null) && enemyCharacterStats != null then {enemyCharacterStats} else {}
      ensures landed <==> Lands(old(hitTimer), tag, playerStats != null)
      ensures !landed ==> hitTimer == old(hitTimer)
      ensures landed ==>
                hitTimer == hitCooldown && playerStats.Valid()
                && playerStats.Scalars() == old(playerStats.Scalars())
                && playerStats.View()
                   == PlayerAfter(old(playerStats.View()), old(ViewOf(enemyCharacterStats)),
                                  enemyCharacterStats != null, enemyCharacterStats == playerStats, defaultAttackDamage)
      ensures landed && enemyCharacterStats != null && enemyCharacterStats != playerStats ==>
                enemyCharacterStats.Valid() && enemyCharacterStats.View() == AfterLookup(old(enemyCharacterStats.View()), "AttackDamage")
    {
      if hitTimer > 0.0 {
        return false;
      }
      if tag == "Player" {
        if playerStats != null {
          Land(playerStats);
          return true;
        }
      }
      return false;
    }

    /** The landing branch: the damage, then the timer restart. */
    method Land(playerStats: CharacterStats)
      requires playerStats.Valid()
      requires enemyCharacterStats != null ==> enemyCharacterStats.Valid()
      requires enemyCharacterStats != null && playerStats != enemyCharacterStats ==>
                 playerStats.stats.Values !! enemyCharacterStats.stats.Values
      modifies this`hitTimer, playerStats, playerStats.stats.Values
      modifies if enemyCharacterStats != null then {enemyCharacterStats} else {}
      ensures hitTimer == hitCooldown && playerStats.Valid()
      ensures playerStats.Scalars() == old(playerStats.Scalars())
      ensures playerStats.View()
              == PlayerAfter(old(playerStats.View()), old(ViewOf(enemyCharacterStats)),
                             enemyCharacterStats != null, enemyCharacterStats == playerStats, defaultAttackDamage)
      ensures enemyCharacterStats != null && enemyCharacterStats != playerStats ==>
                enemyCharacterStats.Valid() && enemyCharacterStats.View() == AfterLookup(old(enemyCharacterStats.View()), "AttackDamage")
    {
      Strike(enemyCharacterStats, playerStats, defaultAttackDamage);
      label Struck:
      hitTimer := hitCooldown;
      ViewKept@Struck(playerStats);
      if enemyCharacterStats != null {
        ViewKept@Struck(enemyCharacterStats);
      }
    }
  }

  /** The landing hit: read the damage from the enemy's table (or take the
      fallback), then lower the player's Life base by it. */
  method Strike(enemy: CharacterStats?, player: CharacterStats, fallback: real)
    requires player.Valid()
    requires enemy != null ==> enemy.Valid()
    requires enemy != null && enemy != player ==> player.stats.Values !! enemy.stats.Values
    modifies player, player.stats.Values
    modifies if enemy != null then {enemy} else {}
    ensures player.Valid() && player.Scalars() == old(player.Scalars())
    ensures player.View() == PlayerAfter(old(player.View()), old(ViewOf(enemy)), enemy != null, enemy == player, fallback)
    ensures enemy != null && enemy != player ==>
              enemy.Valid() && enemy.View() == AfterLookup(old(enemy.View()), "AttackDamage")
  {
    if enemy == null {
      var _ := LowerLife(player, fallback);
    } else if enemy == player {
      var attackDamage := ReadAttackDamage(enemy, player);
      var _ := LowerLife(player, attackDamage);
    } else {
      var attackDamage := ReadAttackDamage(enemy, player);
      label Read:
      var _ := LowerLife(player, attackDamage);
      ViewKept@Read(enemy);
    }
  }

  /** `enemyCharacterStats.GetStat("AttackDamage").GetValue()`: only the
      enemy's table can gain an entry; a distinct player table is left as
      it was. */
  method ReadAttackDamage(enemy: CharacterStats, player: CharacterStats) returns (damage: real)
    requires enemy.Valid()
    requires enemy != player ==> player.stats.Values !! enemy.stats.Values
    modifies enemy
    ensures enemy.Valid() && enemy.Scalars() == old(enemy.Scalars())
    ensures damage == AttackDamage(old(enemy.View()), true, 0.0)
    ensures enemy.View() == AfterLookup(old(enemy.View()), "AttackDamage")
    ensures enemy != player ==> player.stats.Values !! enemy.stats.Values
    ensures enemy != player ==> player.View() == old(player.View())
    ensures FreshOrKept(enemy, old(enemy.stats))
  {
    var s := enemy.GetStat("AttackDamage");
    damage := s.GetValue();
  }
}
