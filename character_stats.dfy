/** The stat table of a character (Assets/Scripts/Stats/CharacterStats.cs):
    a dictionary from stat name to Stat, plus a few scalar combat bonuses.
    Looking up a name that is missing silently creates it at 0. */
module CharacterStatsModel {
  import opened StatSystem

  const DefaultStrength: real := 10.0
  const DefaultDexterity: real := 10.0
  const DefaultIntelligence: real := 10.0
  const DefaultLife: real := 100.0

  /** The table InitializeStats produces. */
  function InitialView(): map<string, StatState>
  {
    map["Strength" := StatState(DefaultStrength, [], []),
        "Dexterity" := StatState(DefaultDexterity, [], []),
        "Intelligence" := StatState(DefaultIntelligence, [], []),
        "Life" := StatState(DefaultLife, [], [])]
  }

  /** The view of the table after looking `name` up: unchanged if present,
      otherwise extended with a zero stat. */
  function AfterLookup(v: map<string, StatState>, name: string): (r: map<string, StatState>)
    ensures name in r && r.Keys == v.Keys + {name}
    ensures name in v ==> r == v
    ensures name !in v ==> r[name] == StatState(0.0, [], [])
    ensures forall k | k in v :: r[k] == v[k]
  {
    if name in v then v else v[name := StatState(0.0, [], [])]
  }

  /** The scalar fields of a table. */
  datatype ScalarState = ScalarState(damageMultiplier: real, critChanceBonus: real, critMultiplierBonus: real,
                             attackSpeedBonus: real, currentMana: real, increasedProjectileSpeed: real,
                             increasedDuration: real, statsChangedNotifications: nat)

  class CharacterStats {
    var stats: map<string, Stat>
    var damageMultiplier: real
    var critChanceBonus: real
    var critMultiplierBonus: real
    var attackSpeedBonus: real
    var currentMana: real
    // Read by other components but not declared in CharacterStats.cs: kept
    // as plain fields whose values the model does not fix.
    var increasedProjectileSpeed: real
    var increasedDuration: real
    // Number of NotifyStatsChanged calls (that method is not part of the file).
    var statsChangedNotifications: nat

    /** Every entry holds its own Stat object. */
    ghost predicate Valid()
      reads this
    {
      forall a, b | a in stats && b in stats && a != b :: stats[a] != stats[b]
    }

    /** The scalar fields, as one value. */
    function Scalars(): ScalarState
      reads this
    {
      ScalarState(damageMultiplier, critChanceBonus, critMultiplierBonus, attackSpeedBonus,
              currentMana, increasedProjectileSpeed, increasedDuration, statsChangedNotifications)
    }

    ghost function View(): map<string, StatState>
      reads this, stats.Values
    {
      map k | k in stats :: stats[k].State()
    }

    /** Field initializers: an empty table and the scalar defaults. */
    constructor (increasedProjectileSpeed: real, increasedDuration: real)
      ensures Valid() && stats == map[]
      ensures damageMultiplier == 1.0 && critChanceBonus == 0.0 && critMultiplierBonus == 0.0
      ensures attackSpeedBonus == 0.0 && currentMana == 100.0
      ensures this.increasedProjectileSpeed == increasedProjectileSpeed
      ensures this.increasedDuration == increasedDuration
      ensures statsChangedNotifications == 0
    {
      stats := map[];
      damageMultiplier := 1.0;
      critChanceBonus := 0.0;
      critMultiplierBonus := 0.0;
      attackSpeedBonus := 0.0;
      currentMana := 100.0;
      this.increasedProjectileSpeed := increasedProjectileSpeed;
      this.increasedDuration := increasedDuration;
      statsChangedNotifications := 0;
    }

    /** Awake / InitializeStats: (over)writes the four base stats with fresh
        Stat objects; other entries are kept. */
    method InitializeStats()
      requires Valid()
      modifies this
      ensures Valid()
      ensures View() == old(View()) + InitialView()
      ensures stats.Keys == old(stats).Keys + InitialView().Keys
      ensures forall k | k in old(stats) && k !in InitialView() :: stats[k] == old(stats[k])
      ensures Scalars() == old(Scalars())
    {
      ghost var v0 := View();
      PutNewStat("Strength", DefaultStrength);
      PutNewStat("Dexterity", DefaultDexterity);
      PutNewStat("Intelligence", DefaultIntelligence);
      PutNewStat("Life", DefaultLife);
      FourWritesAsUnion(v0, "Strength", StatState(DefaultStrength, [], []), "Dexterity", StatState(DefaultDexterity, [], []),
                        "Intelligence", StatState(DefaultIntelligence, [], []), "Life", StatState(DefaultLife, [], []));
      assert stats.Keys == View().Keys && v0.Keys == old(stats).Keys;
    }

    /** `Stats[name] = new Stat(baseValue)`: the dictionary indexer inserts or
        overwrites. */
    method PutNewStat(statName: string, baseValue: real)
      requires Valid()
      modifies this
      ensures Valid()
      ensures statName in stats && fresh(stats[statName])
      ensures stats == old(stats)[statName := stats[statName]]
      ensures View() == old(View())[statName := StatState(baseValue, [], [])]
      ensures Scalars() == old(Scalars())
    {
      var s := new Stat(baseValue);
      stats := stats[statName := s];
    }

    /** Never fails: a missing name is inserted as a new Stat with base 0 and
        that entry is returned; other entries are neither altered nor removed. */
    method GetStat(statName: string) returns (s: Stat)
      requires Valid()
      modifies this
      ensures Valid()
      ensures statName in stats && s == stats[statName]
      ensures statName in old(stats) ==> stats == old(stats)
      ensures statName !in old(stats) ==> fresh(s) && stats == old(stats)[statName := s]
      ensures View() == AfterLookup(old(View()), statName)
      ensures Scalars() == old(Scalars())
    {
      if statName !in stats {
        var fresh0 := new Stat(0.0);
        stats := stats[statName := fresh0];
      }
      s := stats[statName];
    }

    /** Inserts only when the name is absent: an existing stat keeps its base
        and its modifiers, so the call is idempotent. */
    method AddStat(statName: string, baseValue: real)
      requires Valid()
      modifies this
      ensures Valid()
      ensures statName in stats
      ensures statName in old(stats) ==> stats == old(stats)
      ensures statName !in old(stats) ==> fresh(stats[statName]) && stats == old(stats)[statName := stats[statName]]
      ensures View() == AddedStat(old(View()), statName, baseValue)
      ensures Scalars() == old(Scalars())
    {
      if statName !in stats {
        var s := new Stat(baseValue);
        stats := stats[statName := s];
      }
    }

    /** Not part of CharacterStats.cs: counts the change notifications. */
    method NotifyStatsChanged()
      modifies this`statsChangedNotifications
      ensures statsChangedNotifications == old(statsChangedNotifications) + 1
    {
      statsChangedNotifications := statsChangedNotifications + 1;
    }
  }

  /** AddStat, as a change of the table's view: inserting only when absent. */
  function AddedStat(v: map<string, StatState>, name: string, baseValue: real): map<string, StatState>
  {
    if name in v then v else v[name := StatState(baseValue, [], [])]
  }

  /** AddStat is idempotent. */
  lemma AddStatIdempotent(v: map<string, StatState>, name: string, baseValue: real)
    ensures AddedStat(AddedStat(v, name, baseValue), name, baseValue) == AddedStat(v, name, baseValue)
  {
  }

  /** A stat that exists is never reset by AddStat, whatever base is asked for. */
  lemma AddStatKeepsExisting(v: map<string, StatState>, name: string, baseValue: real)
    requires name in v
    ensures AddedStat(v, name, baseValue)[name] == v[name]
  {
  }

  /** After Awake the table holds exactly the four base stats with values
      10, 10, 10 and 100. */
  lemma InitialValues()
    ensures InitialView().Keys == {"Strength", "Dexterity", "Intelligence", "Life"}
    ensures ValueOf(InitialView()["Strength"]) == 10.0 && ValueOf(InitialView()["Dexterity"]) == 10.0
    ensures ValueOf(InitialView()["Intelligence"]) == 10.0 && ValueOf(InitialView()["Life"]) == 100.0
  {
  }
}
