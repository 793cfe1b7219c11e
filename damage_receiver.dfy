/** The damage entry point of a character (Assets/Scripts/Combat/DamageReceiver.cs):
    ignored while the owner dodges; otherwise Life is set to its current
    value minus the damage, floored at 0, and the damage event fires,
    followed by the death event when the new life is 0 or by a health-bar
    registration otherwise. The C# events are an emitted list. */
module DamageReceivers {
  import opened StatSystem
  import opened CharacterStatsModel
  import opened Items

  datatype ReceiverEvent =
    | DamageTaken(amount: real)
    | CharacterDeath
    | HealthBarRegistered

  /** Life after a non-dodged hit: the Life value (0 when Life is missing,
      since the lookup creates it) minus the damage, not below 0. Mitigation
      is the identity. */
  function NewLife(v: map<string, StatState>, amount: real): (r: real)
    ensures r >= 0.0
    ensures r == 0.0 <==> ValueOf(AfterLookup(v, "Life")["Life"]) <= amount
    ensures r > 0.0 ==> r == ValueOf(AfterLookup(v, "Life")["Life"]) - amount
  {
    var life := ValueOf(AfterLookup(v, "Life")["Life"]) - amount;
    if life < 0.0 then 0.0 else life
  }

  /** The table after `SetValue(newLife)` on Life: the new life becomes the
      base, the modifiers stay. */
  function LifeSet(v: map<string, StatState>, newLife: real): (r: map<string, StatState>)
    ensures r.Keys == v.Keys + {"Life"}
    ensures forall k | k in v && k != "Life" :: r[k] == v[k]
    ensures r["Life"].baseValue == newLife
    ensures r["Life"].additive == AfterLookup(v, "Life")["Life"].additive
    ensures r["Life"].multiplicative == AfterLookup(v, "Life")["Life"].multiplicative
  {
    var w := AfterLookup(v, "Life");
    w["Life" := w["Life"].(baseValue := newLife)]
  }

  /** The events of a non-dodged hit. */
  function DamageEvents(newLife: real, amount: real, healthBarManagerFound: bool): (r: seq<ReceiverEvent>)
    ensures |r| >= 1 && r[0] == DamageTaken(amount)
    ensures CharacterDeath in r <==> newLife <= 0.0
    ensures HealthBarRegistered in r <==> newLife > 0.0 && healthBarManagerFound
    ensures |r| <= 2
  {
    [DamageTaken(amount)]
      + (if newLife <= 0.0 then [CharacterDeath]
         else if healthBarManagerFound then [HealthBarRegistered] else [])
  }

  class DamageReceiver {
    var characterStats: CharacterStats?
    var enabled: bool
    var events: seq<ReceiverEvent>

    /** A component whose serialized CharacterStats reference is given. */
    constructor (characterStats: CharacterStats?)
      ensures this.characterStats == characterStats && enabled && events == []
    {
      this.characterStats := characterStats;
      enabled := true;
      events := [];
    }

    /** Awake: an unset reference falls back to the CharacterStats found on
        the object; with none there either, the component disables itself. */
    method Awake(found: CharacterStats?)
      modifies this`characterStats, this`enabled
      ensures old(characterStats) != null ==> characterStats == old(characterStats) && enabled == old(enabled)
      ensures old(characterStats) == null ==> characterStats == found
      ensures old(characterStats) == null && found == null ==> !enabled
      ensures old(characterStats) == null && found != null ==> enabled == old(enabled)
    {
      if characterStats == null {
        characterStats := found;
        if characterStats == null {
          enabled := false;
        }
      }
    }

    /** TakeDamage. `isDodging` is whether the object has a PlayerController
        that is dodging; `healthBarManagerFound` whether the scene has a
        health-bar manager. The Life lookup creates the stat, so the branch
        for a missing Life is never taken. */
    method TakeDamage(damageAmount: real, isDodging: bool, healthBarManagerFound: bool)
      requires !isDodging ==> characterStats != null && characterStats.Valid()
      modifies this`events
      modifies if !isDodging && characterStats != null then {characterStats} else {}
      modifies if !isDodging && characterStats != null then characterStats.stats.Values else {}
      ensures isDodging ==> events == old(events)
      ensures !isDodging ==>
                characterStats.Valid() && characterStats.Scalars() == old(characterStats.Scalars())
                && characterStats.View() == LifeSet(old(characterStats.View()), NewLife(old(characterStats.View()), damageAmount))
                && events == old(events) + DamageEvents(NewLife(old(characterStats.View()), damageAmount), damageAmount, healthBarManagerFound)
    {
      if !isDodging {
        var cs := characterStats;
        var mitigatedDamage := damageAmount;
        var newLife := ApplyDamage(cs, mitigatedDamage);
        label Damaged:
        var emitted := [DamageTaken(mitigatedDamage)];
        if newLife <= 0.0 {
          emitted := emitted + [CharacterDeath];
        } else if healthBarManagerFound {
          emitted := emitted + [HealthBarRegistered];
        }
        events := events + emitted;
        ViewKept@Damaged(cs);
      }
    }
  }

  /** The stat part of TakeDamage: reads Life's value, floors the
      difference at 0 and writes it back with SetValue. */
  method ApplyDamage(cs: CharacterStats, amount: real) returns (newLife: real)
    requires cs.Valid()
    modifies cs, cs.stats.Values
    ensures cs.Valid() && cs.Scalars() == old(cs.Scalars())
    ensures newLife == NewLife(old(cs.View()), amount)
    ensures cs.View() == LifeSet(old(cs.View()), newLife)
  {
    ghost var before := cs.View();
    var lifeStat := cs.GetStat("Life");
    ghost var mid := cs.View();
    var currentLife := lifeStat.GetValue();
    newLife := currentLife - amount;
    if newLife < 0.0 {
      newLife := 0.0;
    }
    lifeStat.SetValue(newLife);
    ViewAfterStatChange(cs, "Life", mid);
  }

  /** With no modifiers on Life, the Life value after the hit is the old
      value minus the damage, floored at 0. */
  lemma PlainLifeAfterHit(v: map<string, StatState>, amount: real)
    requires "Life" in v && v["Life"].additive == [] && v["Life"].multiplicative == []
    ensures ValueOf(LifeSet(v, NewLife(v, amount))["Life"])
            == (if v["Life"].baseValue - amount < 0.0 then 0.0 else v["Life"].baseValue - amount)
  {
    var r := LifeSet(v, NewLife(v, amount))["Life"];
    assert r.additive == [] && r.multiplicative == [];
    assert ValueOf(v["Life"]) == v["Life"].baseValue;
  }

  /** The death event has no once-only guard: a character at 0 life that is
      hit again stays at 0 and reports its death again. */
  lemma DeathRepeats(v: map<string, StatState>, amount: real)
    requires "Life" in v && v["Life"] == StatState(0.0, [], [])
    requires amount >= 0.0
    ensures NewLife(v, amount) == 0.0
    ensures LifeSet(v, NewLife(v, amount)) == v
    ensures CharacterDeath in DamageEvents(NewLife(v, amount), amount, true)
  {
    assert ValueOf(v["Life"]) == 0.0;
    var r := LifeSet(v, 0.0);
    assert r["Life"] == v["Life"];
    assert r.Keys == v.Keys;
  }
}
