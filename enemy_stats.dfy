/** The enemy stat component (Assets/Scripts/Stats/EnemyStats.cs): on Awake
    it copies the defaults asset's name and rarity and merges the asset's
    stat list into the CharacterStats table; TakeDamage lowers Life's base
    and calls Die at or below 0. */
module EnemyStatsModel {
  import opened Wrappers
  import opened StatSystem
  import opened CharacterStatsModel
  import opened Items
  import opened LifeDamage
  import opened EnemyConfig

  /** One step of the merge: an existing stat gets the value as its new base
      and keeps its modifiers; a new name is added at that base. The
      modifier's IsMultiplicative flag is not read. */
  function MergeOne(v: map<string, StatState>, m: StatModifier): (r: map<string, StatState>)
    ensures r.Keys == v.Keys + {m.statName}
    ensures forall k | k in v && k != m.statName :: r[k] == v[k]
    ensures m.statName in v ==> r[m.statName] == v[m.statName].(baseValue := m.value)
    ensures m.statName !in v ==> r[m.statName] == StatState(m.value, [], [])
  {
    if m.statName in v then v[m.statName := v[m.statName].(baseValue := m.value)]
    else AddedStat(v, m.statName, m.value)
  }

  /** The table after merging the whole list, in order. */
  function Merged(v: map<string, StatState>, mods: seq<StatModifier>): map<string, StatState>
  {
    if mods == [] then v else MergeOne(Merged(v, mods[..|mods| - 1]), mods[|mods| - 1])
  }

  /** The value of the last entry of the list for `name`, if any. */
  function LastValue(mods: seq<StatModifier>, name: string): Option<real>
  {
    if mods == [] then None
    else if mods[|mods| - 1].statName == name then Some(mods[|mods| - 1].value)
    else LastValue(mods[..|mods| - 1], name)
  }

  class EnemyStats {
    var enemyDefaults: Option<EnemyDefaults>
    var characterStats: CharacterStats?
    var enemyName: string
    var rarity: EnemyRarity
    /** Die calls so far (each destroys the game object). */
    var dieCalls: nat

    /** A component with the given asset assigned in the inspector (None when
        unassigned); the name starts empty and the rarity at the enum's
        first member. */
    constructor (enemyDefaults: Option<EnemyDefaults>)
      ensures this.enemyDefaults == enemyDefaults && characterStats == null
      ensures enemyName == "" && rarity == EnemyRarity.Normal && dieCalls == 0
    {
      this.enemyDefaults := enemyDefaults;
      characterStats := null;
      enemyName := "";
      rarity := EnemyRarity.Normal;
      dieCalls := 0;
    }

    /** Awake, given the CharacterStats component of the object (if any).
        Without a component or without an asset nothing else happens. */
    method Awake(component: CharacterStats?)
      requires component != null ==> component.Valid()
      modifies this`characterStats, this`enemyName, this`rarity
      modifies if component != null && enemyDefaults.Some? then {component} else {}
      modifies if component != null && enemyDefaults.Some? then component.stats.Values else {}
      ensures characterStats == component
      ensures component == null || enemyDefaults.None? ==> enemyName == old(enemyName) && rarity == old(rarity)
      ensures component != null && enemyDefaults.Some? ==>
                enemyName == enemyDefaults.value.enemyName && rarity == enemyDefaults.value.rarity
                && component.Valid() && component.Scalars() == old(component.Scalars())
                && component.View() == Merged(old(component.View()), enemyDefaults.value.statModifiers)
    {
      ghost var start := if component != null then component.View() else map[];
      characterStats := component;
      if characterStats == null {
        return;
      }
      if enemyDefaults.None? {
        return;
      }
      enemyName := enemyDefaults.value.enemyName;
      rarity := enemyDefaults.value.rarity;
      assert component.View() == start;
      MergeDefaults(component, enemyDefaults.value.statModifiers);
    }

    /** TakeDamage: Life's base drops by the amount, unfloored, and Die is
        called when the new base is at most 0 (on every such hit). */
    method TakeDamage(amount: real, isCriticalHit: bool)
      requires characterStats != null && characterStats.Valid()
      modifies this`dieCalls, characterStats, characterStats.stats.Values
      ensures characterStats.Valid() && characterStats.Scalars() == old(characterStats.Scalars())
      ensures characterStats.View() == LifeLowered(old(characterStats.View()), amount)
      ensures dieCalls == old(dieCalls) + (if LifeBase(characterStats.View()) <= 0.0 then 1 else 0)
    {
      var newBase := LowerLife(characterStats, amount);
      if newBase <= 0.0 {
        dieCalls := dieCalls + 1;
      }
    }
  }

  /** The foreach of Awake over the asset's list. */
  method MergeDefaults(cs: CharacterStats, mods: seq<StatModifier>)
    requires cs.Valid()
    modifies cs, cs.stats.Values
    ensures cs.Valid() && cs.Scalars() == old(cs.Scalars())
    ensures cs.View() == Merged(old(cs.View()), mods)
  {
    var i := 0;
    while i < |mods|
      invariant 0 <= i <= |mods|
      invariant cs.Valid() && cs.Scalars() == old(cs.Scalars())
      invariant cs.View() == Merged(old(cs.View()), mods[..i])
      invariant forall k | k in old(cs.stats) :: k in cs.stats && cs.stats[k] == old(cs.stats[k])
      invariant FreshOrKept(cs, old(cs.stats))
    {
      assert mods[..i + 1][..i] == mods[..i];
      MergeStep(cs, mods[i]);
      i := i + 1;
    }
    assert mods[..i] == mods;
  }

  /** The loop body: overwrite the base of an existing stat, or AddStat. */
  method MergeStep(cs: CharacterStats, m: StatModifier)
    requires cs.Valid()
    modifies cs, cs.stats.Values
    ensures cs.Valid() && cs.Scalars() == old(cs.Scalars())
    ensures cs.View() == MergeOne(old(cs.View()), m)
    ensures forall k | k in old(cs.stats) :: k in cs.stats && cs.stats[k] == old(cs.stats[k])
    ensures FreshOrKept(cs, old(cs.stats))
  {
    if m.statName in cs.stats {
      ghost var before := cs.View();
      cs.stats[m.statName].baseValue := m.value;
      ViewAfterStatChange(cs, m.statName, before);
    } else {
      cs.AddStat(m.statName, m.value);
    }
  }

  /** What the merge leaves under each name: the last listed value becomes
      the base (an existing stat keeps its modifiers, a new one has none);
      an unlisted name keeps its entry; nothing is removed. */
  lemma {:induction false} MergedEntry(v: map<string, StatState>, mods: seq<StatModifier>, name: string)
    ensures name in Merged(v, mods) <==> name in v || LastValue(mods, name).Some?
    ensures LastValue(mods, name).None? && name in v ==> Merged(v, mods)[name] == v[name]
    ensures LastValue(mods, name).Some? && name in v ==>
              Merged(v, mods)[name] == v[name].(baseValue := LastValue(mods, name).value)
    ensures LastValue(mods, name).Some? && name !in v ==>
              Merged(v, mods)[name] == StatState(LastValue(mods, name).value, [], [])
  {
    if mods != [] {
      MergedEntry(v, mods[..|mods| - 1], name);
    }
  }

  /** The merge does not depend on the IsMultiplicative flags: two lists
      with the same names and values give the same table. */
  lemma {:induction false} MergeIgnoresFlags(v: map<string, StatState>, a: seq<StatModifier>, b: seq<StatModifier>)
    requires |a| == |b|
    requires forall i | 0 <= i < |a| :: a[i].statName == b[i].statName && a[i].value == b[i].value
    ensures Merged(v, a) == Merged(v, b)
  {
    if a != [] {
      MergeIgnoresFlags(v, a[..|a| - 1], b[..|b| - 1]);
    }
  }

  /** When a name is listed twice, the later value wins. */
  lemma LastDuplicateWins(v: map<string, StatState>, name: string, x: real, y: real)
    ensures Merged(v, [StatModifier(name, x, false), StatModifier(name, y, true)])[name].baseValue == y
  {
    var mods := [StatModifier(name, x, false), StatModifier(name, y, true)];
    assert mods[..1] == [StatModifier(name, x, false)];
    assert mods[..1][..0] == [];
  }

  /** With pairwise distinct names, the last value for a listed name is its
      only one. */
  lemma {:induction false} LastValueDistinct(mods: seq<StatModifier>, i: int)
    requires 0 <= i < |mods|
    requires forall a, b | 0 <= a < b < |mods| :: mods[a].statName != mods[b].statName
    ensures LastValue(mods, mods[i].statName) == Some(mods[i].value)
  {
    if i < |mods| - 1 {
      LastValueDistinct(mods[..|mods| - 1], i);
    }
  }

  /** An unlisted name has no value. */
  lemma {:induction false} LastValueAbsent(mods: seq<StatModifier>, name: string)
    requires forall i | 0 <= i < |mods| :: mods[i].statName != name
    ensures LastValue(mods, name) == None
  {
    if mods != [] {
      LastValueAbsent(mods[..|mods| - 1], name);
    }
  }

  /** The default asset lists MoveSpeed 3, AttackCooldown 1.5,
      DetectionRange 10, AttackRange 2, Life 100 and ExperienceGiven 10, and
      neither MovementSpeed nor TimeToIdle. */
  lemma DefaultValues()
    ensures LastValue(DefaultStatModifiers(), "MoveSpeed") == Some(3.0)
    ensures LastValue(DefaultStatModifiers(), "AttackCooldown") == Some(1.5)
    ensures LastValue(DefaultStatModifiers(), "DetectionRange") == Some(10.0)
    ensures LastValue(DefaultStatModifiers(), "AttackRange") == Some(2.0)
    ensures LastValue(DefaultStatModifiers(), "Life") == Some(100.0)
    ensures LastValue(DefaultStatModifiers(), "ExperienceGiven") == Some(10.0)
    ensures LastValue(DefaultStatModifiers(), "MovementSpeed") == None
    ensures LastValue(DefaultStatModifiers(), "TimeToIdle") == None
  {
    var mods := DefaultStatModifiers();
    LastValueDistinct(mods, 0);
    LastValueDistinct(mods, 1);
    LastValueDistinct(mods, 2);
    LastValueDistinct(mods, 3);
    LastValueDistinct(mods, 4);
    LastValueDistinct(mods, 5);
    LastValueAbsent(mods, "MovementSpeed");
    LastValueAbsent(mods, "TimeToIdle");
  }

  /** On a table that already holds CharacterStats' four base stats, the
      default asset sets Life to 100, leaves Strength alone and adds
      AttackRange at 2. */
  lemma DefaultsOverInitialTable()
    ensures var t := Merged(InitialView(), DefaultStatModifiers());
            "Life" in t && t["Life"] == StatState(100.0, [], [])
            && "Strength" in t && t["Strength"] == StatState(10.0, [], [])
            && "AttackRange" in t && t["AttackRange"] == StatState(2.0, [], [])
  {
    DefaultValues();
    LastValueAbsent(DefaultStatModifiers(), "Strength");
    MergedEntry(InitialView(), DefaultStatModifiers(), "Life");
    MergedEntry(InitialView(), DefaultStatModifiers(), "Strength");
    MergedEntry(InitialView(), DefaultStatModifiers(), "AttackRange");
  }
}
