/** The older stat table (Assets/Scripts/CharacterStats.cs). It inserts with
    `Dictionary.Add`, which throws on a key that is already present; the
    model returns that failure instead of throwing. */
module LegacyCharacterStats {
  import opened StatSystem

  /** Value `defaultStatValue` of the class: the base of auto-created stats. */
  const DefaultStatValue: real := 0.0

  datatype AddOutcome = Added | DuplicateKey(name: string)

  class CharacterStats {
    var stats: map<string, Stat>

    ghost predicate Valid()
      reads this
    {
      forall a, b | a in stats && b in stats && a != b :: stats[a] != stats[b]
    }

    ghost function View(): map<string, StatState>
      reads this, stats.Values
    {
      map k | k in stats :: stats[k].State()
    }

    /** Field initializer only (this is also what `new CharacterStats()` gives:
        Awake is not run for a component created with `new`). */
    constructor ()
      ensures Valid() && stats == map[]
    {
      stats := map[];
    }

    /** `Stats.Add(name, new Stat(baseValue))`: fails without change when the
        key is present. */
    method Add(statName: string, baseValue: real) returns (outcome: AddOutcome)
      requires Valid()
      modifies this
      ensures Valid()
      ensures outcome == (if statName in old(stats) then DuplicateKey(statName) else Added)
      ensures outcome.DuplicateKey? ==> stats == old(stats)
      ensures outcome.Added? ==> statName in stats && fresh(stats[statName]) && stats == old(stats)[statName := stats[statName]]
      ensures View() == if outcome.Added? then old(View())[statName := StatState(baseValue, [], [])] else old(View())
    {
      if statName in stats {
        outcome := DuplicateKey(statName);
      } else {
        var s := new Stat(baseValue);
        stats := stats[statName := s];
        outcome := Added;
      }
    }

    /** Awake / InitializeStats: adds Strength, Dexterity, Intelligence at 10
        and Life at 100 in that order; `Add` throws at the first name already
        present, so the later names are then not added. */
    method InitializeStats() returns (outcome: AddOutcome)
      requires Valid()
      modifies this
      ensures Valid()
      ensures (outcome, View()) == Initialized(old(View()))
    {
      outcome := Add("Strength", 10.0);
      if outcome.Added? {
        outcome := Add("Dexterity", 10.0);
        if outcome.Added? {
          outcome := Add("Intelligence", 10.0);
          if outcome.Added? {
            outcome := Add("Life", 100.0);
          }
        }
      }
    }

    /** A missing name is added with DefaultStatValue; the Add is guarded, so
        the duplicate-key failure never happens here. */
    method GetStat(statName: string) returns (s: Stat)
      requires Valid()
      modifies this
      ensures Valid()
      ensures statName in stats && s == stats[statName]
      ensures statName in old(stats) ==> stats == old(stats)
      ensures statName !in old(stats) ==> fresh(s) && stats == old(stats)[statName := s]
      ensures View() == if statName in old(View()) then old(View())
                        else old(View())[statName := StatState(DefaultStatValue, [], [])]
    {
      if statName !in stats {
        var outcome := Add(statName, DefaultStatValue);
        assert outcome == Added;
      }
      s := stats[statName];
    }

    /** Inserts only when absent, so it is idempotent and never fails. */
    method AddStat(statName: string, baseValue: real)
      requires Valid()
      modifies this
      ensures Valid()
      ensures statName in old(stats) ==> stats == old(stats)
      ensures statName in stats
      ensures statName !in old(stats) ==> fresh(stats[statName]) && stats == old(stats)[statName := stats[statName]]
      ensures View() == if statName in old(View()) then old(View())
                        else old(View())[statName := StatState(baseValue, [], [])]
    {
      if statName !in stats {
        var outcome := Add(statName, baseValue);
        assert outcome == Added;
      }
    }
  }

  /** The base names in the order InitializeStats adds them. */
  const BaseStatOrder: seq<string> := ["Strength", "Dexterity", "Intelligence", "Life"]

  /** How many base names InitializeStats adds to a table with keys `keys`
      before it reaches one already present: all four when none is. */
  function AbsentRun(keys: set<string>): (n: nat)
    ensures n <= 4
    ensures forall j | 0 <= j < n :: BaseStatOrder[j] !in keys
    ensures n < 4 ==> BaseStatOrder[n] in keys
  {
    if "Strength" in keys then 0
    else if "Dexterity" in keys then 1
    else if "Intelligence" in keys then 2
    else if "Life" in keys then 3
    else 4
  }

  /** The outcome and the table InitializeStats leaves from a table `v`:
      the four Adds in order, stopping at the first name already present. */
  function Initialized(v: map<string, StatState>): (AddOutcome, map<string, StatState>)
  {
    var ten := StatState(10.0, [], []);
    if "Strength" in v then (DuplicateKey("Strength"), v)
    else if "Dexterity" in v then (DuplicateKey("Dexterity"), v["Strength" := ten])
    else if "Intelligence" in v then (DuplicateKey("Intelligence"), v["Strength" := ten]["Dexterity" := ten])
    else if "Life" in v then (DuplicateKey("Life"), v["Strength" := ten]["Dexterity" := ten]["Intelligence" := ten])
    else (Added, v["Strength" := ten]["Dexterity" := ten]["Intelligence" := ten]["Life" := StatState(100.0, [], [])])
  }

  /** What InitializeStats does to a table: on one without the base names
      it succeeds and adds the four of them; a table holding any base name
      fails with DuplicateKey at the first one present, and the names before
      it stay added. No entry that was there changes, and no other name
      appears. */
  lemma InitializedTable(v: map<string, StatState>)
    ensures var r := Initialized(v);
            && (InitialView().Keys !! v.Keys <==> r.0 == Added)
            && (r.0 == Added ==> r.1 == v + InitialView())
            && (r.0.DuplicateKey? ==> r.0.name in v && r.0.name in InitialView())
    ensures var r, n := Initialized(v), AbsentRun(v.Keys);
            && (n < 4 ==> r.0 == DuplicateKey(BaseStatOrder[n]))
            && r.1.Keys == v.Keys + FirstBaseNames(n)
            && forall k | k in v :: k in r.1 && r.1[k] == v[k]
  {
    PresentBaseNameEndsRun(v.Keys);
    BaseStatNamesDistinct();
    var ten := StatState(10.0, [], []);
    if "Strength" in v {
      RunLength(v.Keys, 0);
    } else if "Dexterity" in v {
      RunLength(v.Keys, 1);
    } else if "Intelligence" in v {
      RunLength(v.Keys, 2);
    } else if "Life" in v {
      RunLength(v.Keys, 3);
    } else {
      RunLength(v.Keys, 4);
      FourWritesAsUnion(v, "Strength", ten, "Dexterity", ten, "Intelligence", ten, "Life", StatState(100.0, [], []));
    }
  }

  /** The run ends exactly at the first base name present. */
  lemma RunLength(keys: set<string>, i: nat)
    requires i <= 4 && forall j | 0 <= j < i :: BaseStatOrder[j] !in keys
    requires i < 4 ==> BaseStatOrder[i] in keys
    ensures AbsentRun(keys) == i
  {
  }

  /** A table holding any base name stops the run before the end. */
  lemma PresentBaseNameEndsRun(keys: set<string>)
    ensures !(InitialView().Keys !! keys) <==> AbsentRun(keys) < 4
  {
    assert InitialView().Keys == {"Strength", "Dexterity", "Intelligence", "Life"};
  }

  /** The first `n` names of BaseStatOrder, as a set. */
  function FirstBaseNames(n: nat): (r: set<string>)
    requires n <= 4
    ensures forall j | 0 <= j < n :: BaseStatOrder[j] in r
    ensures r <= InitialView().Keys
  {
    if n == 0 then {}
    else if n == 1 then {"Strength"}
    else if n == 2 then {"Strength", "Dexterity"}
    else if n == 3 then {"Strength", "Dexterity", "Intelligence"}
    else {"Strength", "Dexterity", "Intelligence", "Life"}
  }

  /** The table InitializeStats adds. */
  function InitialView(): map<string, StatState>
  {
    map["Strength" := StatState(10.0, [], []), "Dexterity" := StatState(10.0, [], []),
        "Intelligence" := StatState(10.0, [], []), "Life" := StatState(100.0, [], [])]
  }
}
