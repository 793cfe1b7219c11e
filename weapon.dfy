/** The equipped weapon (Assets/Scripts/Combat/Weapon.cs): sixteen numeric
    properties that equipment overrides wholesale, resets to a snapshot taken
    at Awake, or shifts additively. */
module Weapons {
  import Wrappers

  datatype WeaponStat =
    | BaseAttackSpeed | BaseCriticalChance | CritMultiplier | ProjectileAmount | ProjectileSpeed
    | MinPhysicalDamage | MaxPhysicalDamage | MinFireDamage | MaxFireDamage | MinColdDamage
    | MaxColdDamage | MinLightningDamage | MaxLightningDamage | MinChaosDamage | MaxChaosDamage
    | AreaOfEffect

  datatype WeaponType = Gun | Rifle | Melee | None

  /** C#'s `(int)` cast of a float: truncation toward zero. */
  function Trunc(x: real): int
  {
    if x >= 0.0 then x.Floor else -((-x).Floor)
  }

  /** The numeric properties of a weapon, as one value. */
  datatype WeaponFields = WeaponFields(
    baseAttackSpeed: real, baseCriticalChance: real, critMultiplier: real, projectileAmount: int,
    projectileSpeed: real, minPhysicalDamage: real, maxPhysicalDamage: real, minFireDamage: real,
    maxFireDamage: real, minColdDamage: real, maxColdDamage: real, minLightningDamage: real,
    maxLightningDamage: real, minChaosDamage: real, maxChaosDamage: real, areaOfEffect: real)

  /** The property initializers. */
  const DefaultFields: WeaponFields :=
    WeaponFields(1.0, 0.05, 1.5, 1, 10.0, 0.0, 0.0, 0.0, 0.0, 0.0, 0.0, 0.0, 0.0, 0.0, 0.0, 0.0)

  /** The property a WeaponStat names (ProjectileAmount read as a float). */
  function Get(f: WeaponFields, s: WeaponStat): real
  {
    match s
    case BaseAttackSpeed => f.baseAttackSpeed
    case BaseCriticalChance => f.baseCriticalChance
    case CritMultiplier => f.critMultiplier
    case ProjectileAmount => f.projectileAmount as real
    case ProjectileSpeed => f.projectileSpeed
    case MinPhysicalDamage => f.minPhysicalDamage
    case MaxPhysicalDamage => f.maxPhysicalDamage
    case MinFireDamage => f.minFireDamage
    case MaxFireDamage => f.maxFireDamage
    case MinColdDamage => f.minColdDamage
    case MaxColdDamage => f.maxColdDamage
    case MinLightningDamage => f.minLightningDamage
    case MaxLightningDamage => f.maxLightningDamage
    case MinChaosDamage => f.minChaosDamage
    case MaxChaosDamage => f.maxChaosDamage
    case AreaOfEffect => f.areaOfEffect
  }

  /** Two weapons with the same sixteen properties are the same value. */
  lemma FieldsExtensional(f: WeaponFields, g: WeaponFields)
    requires forall s :: Get(f, s) == Get(g, s)
    ensures f == g
  {
    assert Get(f, ProjectileAmount) == Get(g, ProjectileAmount);
    assert Get(f, BaseAttackSpeed) == Get(g, BaseAttackSpeed);
    assert Get(f, BaseCriticalChance) == Get(g, BaseCriticalChance);
    assert Get(f, CritMultiplier) == Get(g, CritMultiplier);
    assert Get(f, ProjectileSpeed) == Get(g, ProjectileSpeed);
    assert Get(f, MinPhysicalDamage) == Get(g, MinPhysicalDamage);
    assert Get(f, MaxPhysicalDamage) == Get(g, MaxPhysicalDamage);
    assert Get(f, MinFireDamage) == Get(g, MinFireDamage);
    assert Get(f, MaxFireDamage) == Get(g, MaxFireDamage);
    assert Get(f, MinColdDamage) == Get(g, MinColdDamage);
    assert Get(f, MaxColdDamage) == Get(g, MaxColdDamage);
    assert Get(f, MinLightningDamage) == Get(g, MinLightningDamage);
    assert Get(f, MaxLightningDamage) == Get(g, MaxLightningDamage);
    assert Get(f, MinChaosDamage) == Get(g, MinChaosDamage);
    assert Get(f, MaxChaosDamage) == Get(g, MaxChaosDamage);
    assert Get(f, AreaOfEffect) == Get(g, AreaOfEffect);
  }

  /** `dict.ContainsKey(s) ? dict[s] : 0f`. */
  function Lookup(m: map<WeaponStat, real>, s: WeaponStat): real
  {
    if s in m then m[s] else 0.0
  }

  /** What Awake stores in baseWeaponStats: every stat but CritMultiplier. */
  function Snapshot(f: WeaponFields): (m: map<WeaponStat, real>)
    ensures CritMultiplier !in m
    ensures forall s | s in m :: m[s] == Get(f, s)
  {
    map[BaseAttackSpeed := f.baseAttackSpeed, BaseCriticalChance := f.baseCriticalChance,
        ProjectileAmount := f.projectileAmount as real, ProjectileSpeed := f.projectileSpeed,
        MinPhysicalDamage := f.minPhysicalDamage, MaxPhysicalDamage := f.maxPhysicalDamage,
        MinFireDamage := f.minFireDamage, MaxFireDamage := f.maxFireDamage,
        MinColdDamage := f.minColdDamage, MaxColdDamage := f.maxColdDamage,
        MinLightningDamage := f.minLightningDamage, MaxLightningDamage := f.maxLightningDamage,
        MinChaosDamage := f.minChaosDamage, MaxChaosDamage := f.maxChaosDamage,
        AreaOfEffect := f.areaOfEffect]
  }

  /** The fields after `SetWeaponStats(m)`. */
  function Overridden(f: WeaponFields, m: map<WeaponStat, real>): WeaponFields
  {
    WeaponFields(Lookup(m, BaseAttackSpeed), Lookup(m, BaseCriticalChance), f.critMultiplier,
                 Trunc(Lookup(m, ProjectileAmount)), Lookup(m, ProjectileSpeed),
                 Lookup(m, MinPhysicalDamage), Lookup(m, MaxPhysicalDamage),
                 Lookup(m, MinFireDamage), Lookup(m, MaxFireDamage),
                 Lookup(m, MinColdDamage), Lookup(m, MaxColdDamage),
                 Lookup(m, MinLightningDamage), Lookup(m, MaxLightningDamage),
                 Lookup(m, MinChaosDamage), Lookup(m, MaxChaosDamage), Lookup(m, AreaOfEffect))
  }

  /** The change one `+=` (adding) or `-=` (not adding) entry makes to stat `s`:
      ProjectileAmount moves by the truncated value; CritMultiplier has no
      case in the switch and falls to the warning. */
  function Delta(s: WeaponStat, v: real, adding: bool): real
  {
    if s == CritMultiplier then 0.0
    else if s == ProjectileAmount then (if adding then Trunc(v) else -Trunc(v)) as real
    else if adding then v else -v
  }

  /** `a += v` or `a -= v`. */
  function Step(a: real, v: real, adding: bool): real
  {
    if adding then a + v else a - v
  }

  /** The fields after one switch case of Apply/RemoveItemStats. */
  function Entry(f: WeaponFields, s: WeaponStat, v: real, adding: bool): (r: WeaponFields)
    ensures forall t :: Get(r, t) == Get(f, t) + (if t == s then Delta(s, v, adding) else 0.0)
  {
    match s
    case BaseAttackSpeed => f.(baseAttackSpeed := Step(f.baseAttackSpeed, v, adding))
    case BaseCriticalChance => f.(baseCriticalChance := Step(f.baseCriticalChance, v, adding))
    case CritMultiplier => f
    case ProjectileAmount => f.(projectileAmount := if adding then f.projectileAmount + Trunc(v) else f.projectileAmount - Trunc(v))
    case ProjectileSpeed => f.(projectileSpeed := Step(f.projectileSpeed, v, adding))
    case MinPhysicalDamage => f.(minPhysicalDamage := Step(f.minPhysicalDamage, v, adding))
    case MaxPhysicalDamage => f.(maxPhysicalDamage := Step(f.maxPhysicalDamage, v, adding))
    case MinFireDamage => f.(minFireDamage := Step(f.minFireDamage, v, adding))
    case MaxFireDamage => f.(maxFireDamage := Step(f.maxFireDamage, v, adding))
    case MinColdDamage => f.(minColdDamage := Step(f.minColdDamage, v, adding))
    case MaxColdDamage => f.(maxColdDamage := Step(f.maxColdDamage, v, adding))
    case MinLightningDamage => f.(minLightningDamage := Step(f.minLightningDamage, v, adding))
    case MaxLightningDamage => f.(maxLightningDamage := Step(f.maxLightningDamage, v, adding))
    case MinChaosDamage => f.(minChaosDamage := Step(f.minChaosDamage, v, adding))
    case MaxChaosDamage => f.(maxChaosDamage := Step(f.maxChaosDamage, v, adding))
    case AreaOfEffect => f.(areaOfEffect := Step(f.areaOfEffect, v, adding))
  }

  /** The fields after every entry of `m` has been applied with `adding`; the
      entries touch distinct stats, so the order does not matter. */
  function Shifted(f: WeaponFields, m: map<WeaponStat, real>, adding: bool): WeaponFields
  {
    WeaponFields(Step(f.baseAttackSpeed, Lookup(m, BaseAttackSpeed), adding),
                 Step(f.baseCriticalChance, Lookup(m, BaseCriticalChance), adding),
                 f.critMultiplier,
                 if adding then f.projectileAmount + Trunc(Lookup(m, ProjectileAmount)) else f.projectileAmount - Trunc(Lookup(m, ProjectileAmount)),
                 Step(f.projectileSpeed, Lookup(m, ProjectileSpeed), adding),
                 Step(f.minPhysicalDamage, Lookup(m, MinPhysicalDamage), adding),
                 Step(f.maxPhysicalDamage, Lookup(m, MaxPhysicalDamage), adding),
                 Step(f.minFireDamage, Lookup(m, MinFireDamage), adding),
                 Step(f.maxFireDamage, Lookup(m, MaxFireDamage), adding),
                 Step(f.minColdDamage, Lookup(m, MinColdDamage), adding),
                 Step(f.maxColdDamage, Lookup(m, MaxColdDamage), adding),
                 Step(f.minLightningDamage, Lookup(m, MinLightningDamage), adding),
                 Step(f.maxLightningDamage, Lookup(m, MaxLightningDamage), adding),
                 Step(f.minChaosDamage, Lookup(m, MinChaosDamage), adding),
                 Step(f.maxChaosDamage, Lookup(m, MaxChaosDamage), adding),
                 Step(f.areaOfEffect, Lookup(m, AreaOfEffect), adding))
  }

  /** The entries of `m` whose keys are in `d`. */
  function Restrict(m: map<WeaponStat, real>, d: set<WeaponStat>): map<WeaponStat, real>
  {
    map s | s in m && s in d :: m[s]
  }

  /** A Weapon component. Its sixteen numeric properties are kept as one
      record value, `properties`; each property assignment of the source is
      an update of that record. */
  class Weapon {
    var properties: WeaponFields
    var weaponType: WeaponType
    var baseWeaponStats: map<WeaponStat, real>

    /** Property initializers: speed 1, crit 0.05, crit multiplier 1.5, one
        projectile at speed 10, no damage or area, type None, no snapshot. */
    constructor ()
      ensures properties == DefaultFields && weaponType == None && baseWeaponStats == map[]
    {
      properties := DefaultFields;
      weaponType := None;
      baseWeaponStats := map[];
    }

    /** Awake: records the fifteen stats other than CritMultiplier (fifteen
        indexer assignments, i.e. a merge of the snapshot). */
    method Awake()
      modifies this`baseWeaponStats
      ensures baseWeaponStats == old(baseWeaponStats) + Snapshot(properties)
    {
      baseWeaponStats := baseWeaponStats + Snapshot(properties);
    }

    /** Overrides the fifteen stats from `newStats`, 0 where a key is absent;
        CritMultiplier, weaponType and the snapshot are kept. */
    method SetWeaponStats(newStats: map<WeaponStat, real>)
      modifies this`properties
      ensures properties == Overridden(old(properties), newStats)
    {
      properties := properties.(
        baseAttackSpeed := Lookup(newStats, BaseAttackSpeed),
        baseCriticalChance := Lookup(newStats, BaseCriticalChance),
        // `(int)newStats[ProjectileAmount]`, or 0 (which is `(int)0f`) when absent
        projectileAmount := Trunc(Lookup(newStats, ProjectileAmount)),
        projectileSpeed := Lookup(newStats, ProjectileSpeed),
        minPhysicalDamage := Lookup(newStats, MinPhysicalDamage),
        maxPhysicalDamage := Lookup(newStats, MaxPhysicalDamage),
        minFireDamage := Lookup(newStats, MinFireDamage),
        maxFireDamage := Lookup(newStats, MaxFireDamage),
        minColdDamage := Lookup(newStats, MinColdDamage),
        maxColdDamage := Lookup(newStats, MaxColdDamage),
        minLightningDamage := Lookup(newStats, MinLightningDamage),
        maxLightningDamage := Lookup(newStats, MaxLightningDamage),
        minChaosDamage := Lookup(newStats, MinChaosDamage),
        maxChaosDamage := Lookup(newStats, MaxChaosDamage),
        areaOfEffect := Lookup(newStats, AreaOfEffect));
    }

    /** Re-applies the Awake snapshot and sets the type to None; when the
        snapshot was taken of the current properties, nothing moves. */
    method ResetWeaponStats()
      modifies this`properties, this`weaponType
      ensures properties == Overridden(old(properties), baseWeaponStats)
      ensures weaponType == None
      ensures baseWeaponStats == Snapshot(old(properties)) ==> properties == old(properties)
    {
      ghost var before := properties;
      SetWeaponStats(baseWeaponStats);
      weaponType := None;
      if baseWeaponStats == Snapshot(before) {
        ResetRestoresSnapshot(before, before);
      }
    }

    /** One case of the switch: `property += v` (adding) or `property -= v`
        (not adding); CritMultiplier has no case and only logs a warning. */
    method ShiftStat(s: WeaponStat, v: real, adding: bool)
      modifies this`properties
      ensures properties == Entry(old(properties), s, v, adding)
    {
      match s {
        case BaseAttackSpeed => properties := properties.(baseAttackSpeed := Step(properties.baseAttackSpeed, v, adding));
        case BaseCriticalChance => properties := properties.(baseCriticalChance := Step(properties.baseCriticalChance, v, adding));
        case CritMultiplier =>
        case ProjectileAmount =>
          properties := properties.(projectileAmount :=
            if adding then properties.projectileAmount + Trunc(v) else properties.projectileAmount - Trunc(v));
        case ProjectileSpeed => properties := properties.(projectileSpeed := Step(properties.projectileSpeed, v, adding));
        case MinPhysicalDamage => properties := properties.(minPhysicalDamage := Step(properties.minPhysicalDamage, v, adding));
        case MaxPhysicalDamage => properties := properties.(maxPhysicalDamage := Step(properties.maxPhysicalDamage, v, adding));
        case MinFireDamage => properties := properties.(minFireDamage := Step(properties.minFireDamage, v, adding));
        case MaxFireDamage => properties := properties.(maxFireDamage := Step(properties.maxFireDamage, v, adding));
        case MinColdDamage => properties := properties.(minColdDamage := Step(properties.minColdDamage, v, adding));
        case MaxColdDamage => properties := properties.(maxColdDamage := Step(properties.maxColdDamage, v, adding));
        case MinLightningDamage => properties := properties.(minLightningDamage := Step(properties.minLightningDamage, v, adding));
        case MaxLightningDamage => properties := properties.(maxLightningDamage := Step(properties.maxLightningDamage, v, adding));
        case MinChaosDamage => properties := properties.(minChaosDamage := Step(properties.minChaosDamage, v, adding));
        case MaxChaosDamage => properties := properties.(maxChaosDamage := Step(properties.maxChaosDamage, v, adding));
        case AreaOfEffect => properties := properties.(areaOfEffect := Step(properties.areaOfEffect, v, adding));
      }
    }

    /** The loop shared by ApplyItemStats and RemoveItemStats. Dictionary
        iteration order is not fixed, so each round takes any remaining key. */
    method ShiftAll(itemStats: map<WeaponStat, real>, adding: bool)
      modifies this`properties
      ensures properties == Shifted(old(properties), itemStats, adding)
    {
      var remaining := itemStats.Keys;
      ghost var done: set<WeaponStat> := {};
      while remaining != {}
        invariant remaining + done == itemStats.Keys && remaining !! done
        invariant properties == Shifted(old(properties), Restrict(itemStats, done), adding)
        decreases remaining
      {
        var s :| s in remaining;
        ShiftStat(s, itemStats[s], adding);
        ShiftedStep(old(properties), itemStats, done, s, adding);
        remaining := remaining - {s};
        done := done + {s};
      }
      assert Restrict(itemStats, done) == itemStats;
    }

    /** Adds each entry to its property; a missing dictionary is a no-op. */
    method ApplyItemStats(itemStats: Wrappers.Option<map<WeaponStat, real>>)
      modifies this`properties
      ensures itemStats.None? ==> properties == old(properties)
      ensures itemStats.Some? ==> properties == Shifted(old(properties), itemStats.value, true)
    {
      if itemStats.None? {
        return;
      }
      ShiftAll(itemStats.value, true);
    }

    /** Subtracts each entry from its property; a missing dictionary is a no-op. */
    method RemoveItemStats(itemStats: Wrappers.Option<map<WeaponStat, real>>)
      modifies this`properties
      ensures itemStats.None? ==> properties == old(properties)
      ensures itemStats.Some? ==> properties == Shifted(old(properties), itemStats.value, false)
    {
      if itemStats.None? {
        return;
      }
      ShiftAll(itemStats.value, false);
    }
  }

  // ---------------------------------------------------------------------
  // Properties

  /** Each stat moves by its own entry's delta and by nothing else. */
  lemma ShiftedGet(f: WeaponFields, m: map<WeaponStat, real>, adding: bool, s: WeaponStat)
    ensures Get(Shifted(f, m, adding), s) == Get(f, s) + (if s in m then Delta(s, m[s], adding) else 0.0)
  {
    match s {
      case BaseAttackSpeed =>
      case BaseCriticalChance =>
      case CritMultiplier =>
      case ProjectileAmount =>
      case ProjectileSpeed =>
      case MinPhysicalDamage =>
      case MaxPhysicalDamage =>
      case MinFireDamage =>
      case MaxFireDamage =>
      case MinColdDamage =>
      case MaxColdDamage =>
      case MinLightningDamage =>
      case MaxLightningDamage =>
      case MinChaosDamage =>
      case MaxChaosDamage =>
      case AreaOfEffect =>
    }
  }

  /** SetWeaponStats writes the map's value, or 0 when the key is absent, to
      each of the fifteen stats, truncating ProjectileAmount; CritMultiplier
      is kept. */
  lemma OverriddenGet(f: WeaponFields, m: map<WeaponStat, real>, s: WeaponStat)
    ensures s == CritMultiplier ==> Get(Overridden(f, m), s) == Get(f, s)
    ensures s == ProjectileAmount ==> Overridden(f, m).projectileAmount == Trunc(Lookup(m, s))
    ensures s != CritMultiplier && s != ProjectileAmount ==> Get(Overridden(f, m), s) == Lookup(m, s)
  {
  }

  /** One more key processed by the loop is one more switch case. */
  lemma ShiftedStep(f: WeaponFields, m: map<WeaponStat, real>, d: set<WeaponStat>, s: WeaponStat, adding: bool)
    requires s in m && s !in d
    ensures Shifted(f, Restrict(m, d + {s}), adding) == Entry(Shifted(f, Restrict(m, d), adding), s, m[s], adding)
  {
    var a := Shifted(f, Restrict(m, d + {s}), adding);
    var b := Entry(Shifted(f, Restrict(m, d), adding), s, m[s], adding);
    forall t ensures Get(a, t) == Get(b, t) {
      ShiftedGet(f, Restrict(m, d + {s}), adding, t);
      ShiftedGet(f, Restrict(m, d), adding, t);
      if t == s {
        assert s in Restrict(m, d + {s}) && Restrict(m, d + {s})[s] == m[s] && s !in Restrict(m, d);
      } else if t in Restrict(m, d) {
        assert t in Restrict(m, d + {s}) && Restrict(m, d + {s})[t] == Restrict(m, d)[t];
      } else {
        assert t !in Restrict(m, d + {s});
      }
    }
    FieldsExtensional(a, b);
  }

  /** ApplyItemStats(m) then RemoveItemStats(m) restores every property
      exactly, and a property whose key is absent from m is never touched. */
  lemma ApplyThenRemoveRestores(f: WeaponFields, m: map<WeaponStat, real>)
    ensures Shifted(Shifted(f, m, true), m, false) == f
    ensures forall s | s !in m :: Get(Shifted(f, m, true), s) == Get(f, s)
  {
    forall s | s !in m ensures Get(Shifted(f, m, true), s) == Get(f, s) {
      ShiftedGet(f, m, true, s);
    }
  }

  /** An entry for CritMultiplier never changes the weapon. */
  lemma CritMultiplierEntryIgnored(f: WeaponFields, v: real, adding: bool)
    ensures Shifted(f, map[CritMultiplier := v], adding) == f
  {
  }

  /** SetWeaponStats is idempotent, and its result does not depend on the
      stats it overwrites (only CritMultiplier survives). */
  lemma OverrideIdempotent(f: WeaponFields, g: WeaponFields, m: map<WeaponStat, real>)
    ensures Overridden(Overridden(f, m), m) == Overridden(f, m)
    ensures f.critMultiplier == g.critMultiplier ==> Overridden(f, m) == Overridden(g, m)
  {
  }

  /** Truncating a whole number gives it back. */
  lemma TruncOfInt(n: int)
    ensures Trunc(n as real) == n
  {
  }

  /** Re-applying the snapshot of `snap` gives back `snap`'s stats from any
      current stats with the same CritMultiplier (the one stat neither
      SetWeaponStats nor ApplyItemStats can move). */
  lemma ResetRestoresSnapshot(f: WeaponFields, snap: WeaponFields)
    requires f.critMultiplier == snap.critMultiplier
    ensures Overridden(f, Snapshot(snap)) == snap
  {
    TruncOfInt(snap.projectileAmount);
  }

  /** Awake of a default weapon snapshots speed 1, crit 0.05, one projectile
      at speed 10 and zero for the eleven damage and area stats. */
  lemma DefaultSnapshot()
    ensures Snapshot(DefaultFields) ==
      map[BaseAttackSpeed := 1.0, BaseCriticalChance := 0.05, ProjectileAmount := 1.0, ProjectileSpeed := 10.0,
          MinPhysicalDamage := 0.0, MaxPhysicalDamage := 0.0, MinFireDamage := 0.0, MaxFireDamage := 0.0,
          MinColdDamage := 0.0, MaxColdDamage := 0.0, MinLightningDamage := 0.0, MaxLightningDamage := 0.0,
          MinChaosDamage := 0.0, MaxChaosDamage := 0.0, AreaOfEffect := 0.0]
  {
  }
}
