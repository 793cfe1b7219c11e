/** A flying projectile (Assets/Scripts/Combat/Projectile.cs): it times out
    on its serialized duration, is destroyed by any object its target type
    rejects, and lowers the Life base of a matching object that has stats,
    after which it may pierce. Movement, rotation and the engine's destroy
    are left to the engine: `destroyed` records that Destroy was called. */
module Projectiles {
  import opened Wrappers
  import opened StatSystem
  import opened CharacterStatsModel
  import opened Items
  import opened Skills
  import opened LifeDamage
  import opened ProjectileSkills

  /** A pierce happens when the roll in [0, 100] is below the chance. */
  predicate Pierces(pierceChance: real, roll: real)
  {
    roll < pierceChance
  }

  /** The chance left after a pierce: 100 points less, not below 0. */
  function PierceChanceAfter(pierceChance: real): (r: real)
    ensures r >= 0.0
    ensures pierceChance <= 100.0 ==> r == 0.0
    ensures pierceChance > 100.0 ==> r == pierceChance - 100.0
  {
    if pierceChance - 100.0 < 0.0 then 0.0 else pierceChance - 100.0
  }

  /** How many hits in a row a projectile pierces, given the rolls of
      successive hits; the first roll that fails destroys it. */
  function PierceRun(pierceChance: real, rolls: seq<real>): nat
    decreases rolls
  {
    if rolls == [] then 0
    else if Pierces(pierceChance, rolls[0]) then 1 + PierceRun(PierceChanceAfter(pierceChance), rolls[1..])
    else 0
  }

  /** The timer and the destroyed flag after one Update of `dt`. */
  function Ticked(timer: real, destroyed: bool, duration: real, dt: real): (real, bool)
  {
    (timer + dt, destroyed || timer + dt >= duration)
  }

  /** The timer and the destroyed flag after one Update per frame in `dts`. */
  function TickedAll(timer: real, destroyed: bool, duration: real, dts: seq<real>): (real, bool)
  {
    if dts == [] then (timer, destroyed)
    else
      var prev := TickedAll(timer, destroyed, duration, dts[..|dts| - 1]);
      Ticked(prev.0, prev.1, duration, dts[|dts| - 1])
  }

  class Projectile {
    var direction: (real, real)
    var speed: real
    var attackData: AttackData
    var targetType: TargetType
    var timer: real
    var duration: real
    var pierceChance: real
    var activeDuration: real
    /** Destroy(gameObject) has been called. */
    var destroyed: bool
    /** The delay of the destroy Start schedules, once Start has run. */
    var scheduledDestroy: Option<real>

    /** A new projectile. `duration` and `pierceChance` are serialized
        fields whose script defaults are 1 and 0; the rest start at the C#
        defaults (TargetType's first member is Player). */
    constructor (duration: real, pierceChance: real)
      ensures this.duration == duration && this.pierceChance == pierceChance
      ensures timer == 0.0 && activeDuration == 0.0 && !destroyed && scheduledDestroy == None
      ensures speed == 0.0 && targetType == Player
    {
      direction := (0.0, 0.0);
      speed := 0.0;
      attackData := AttackData(0.0, false);
      targetType := Player;
      timer := 0.0;
      this.duration := duration;
      this.pierceChance := pierceChance;
      activeDuration := 0.0;
      destroyed := false;
      scheduledDestroy := None;
    }

    /** Start: schedules a destroy after the active duration. */
    method Start()
      modifies this`scheduledDestroy
      ensures scheduledDestroy == Some(activeDuration)
    {
      scheduledDestroy := Some(activeDuration);
    }

    /** Initialize: records the flight parameters, takes the custom duration
        as the active one and resets the timer; the serialized duration and
        the pierce chance are kept. */
    method Initialize(dir: (real, real), projSpeed: real, data: AttackData, customDuration: real, targetType: TargetType)
      modifies this`direction, this`speed, this`attackData, this`activeDuration, this`targetType, this`timer
      ensures direction == dir && speed == projSpeed && attackData == data
      ensures activeDuration == customDuration && this.targetType == targetType && timer == 0.0
    {
      direction := dir;
      speed := projSpeed;
      attackData := data;
      activeDuration := customDuration;
      this.targetType := targetType;
      timer := 0.0;
    }

    /** The timer step of Update: the projectile is destroyed once the timer
        reaches the serialized `duration`; the active duration is not read. */
    method Update(dt: real)
      modifies this`timer, this`destroyed
      ensures (timer, destroyed) == Ticked(old(timer), old(destroyed), duration, dt)
    {
      timer := timer + dt;
      if timer >= duration {
        destroyed := true;
      }
    }

    /** OnTriggerEnter2D for an object with the given tag and stat table.
        A rejected object destroys the projectile and takes nothing. A
        matching object without stats changes nothing. A matching object
        with stats loses the attack's damage from Life's base, unfloored;
        then the projectile pierces when the roll is below the chance, which
        drops by 100 but not below 0, and is destroyed otherwise. */
    method OnTriggerEnter2D(tag: string, target: CharacterStats?, pierceRoll: real)
      requires 0.0 <= pierceRoll <= 100.0
      requires target != null ==> target.Valid()
      modifies this`pierceChance, this`destroyed
      modifies if target != null && IsCorrectTargetType(targetType, tag) then {target} else {}
      modifies if target != null && IsCorrectTargetType(targetType, tag) then target.stats.Values else {}
      ensures old(destroyed) ==> destroyed
      ensures !IsCorrectTargetType(targetType, tag) ==> destroyed && pierceChance == old(pierceChance)
      ensures IsCorrectTargetType(targetType, tag) && target == null ==>
                destroyed == old(destroyed) && pierceChance == old(pierceChance)
      ensures IsCorrectTargetType(targetType, tag) && target != null ==>
                target.Valid() && target.Scalars() == old(target.Scalars())
                && target.View() == LifeLowered(old(target.View()), attackData.damage)
                && (Pierces(old(pierceChance), pierceRoll) ==>
                      pierceChance == PierceChanceAfter(old(pierceChance)) && destroyed == old(destroyed))
                && (!Pierces(old(pierceChance), pierceRoll) ==> destroyed && pierceChance == old(pierceChance))
    {
      if IsCorrectTargetType(targetType, tag) {
        if target != null {
          var damageToDeal := attackData.damage;
          var _ := LowerLife(target, damageToDeal);
          label Hit:
          if pierceRoll < pierceChance {
            pierceChance := if pierceChance - 100.0 < 0.0 then 0.0 else pierceChance - 100.0;
          } else {
            destroyed := true;
          }
          ViewKept@Hit(target);
        }
      } else {
        destroyed := true;
      }
    }
  }

  /** A projectile whose chance is at most 100 times k pierces at most k
      hits in a row: each pierce costs 100 points and a spent chance never
      pierces. */
  lemma {:induction false} PierceRunBounded(pierceChance: real, rolls: seq<real>, k: nat)
    requires pierceChance <= 100.0 * k as real
    requires forall i | 0 <= i < |rolls| :: 0.0 <= rolls[i] <= 100.0
    ensures PierceRun(pierceChance, rolls) <= k
    decreases rolls
  {
    if rolls != [] && Pierces(pierceChance, rolls[0]) {
      assert pierceChance > 0.0;
      assert k > 0;
      var j: nat := k - 1;
      assert PierceChanceAfter(pierceChance) <= 100.0 * j as real;
      PierceRunBounded(PierceChanceAfter(pierceChance), rolls[1..], j);
    }
  }

  /** From a fresh timer, with non-negative frame times, the projectile has
      been destroyed by its updates exactly when at least one frame ran and
      the frames add up to the serialized duration; the custom duration
      plays no part. */
  lemma {:induction false} TimesOutOnDuration(duration: real, dts: seq<real>)
    requires forall i | 0 <= i < |dts| :: dts[i] >= 0.0
    ensures TickedAll(0.0, false, duration, dts).0 == Elapsed(dts)
    ensures TickedAll(0.0, false, duration, dts).1 <==> dts != [] && Elapsed(dts) >= duration
  {
    if dts != [] {
      var init := dts[..|dts| - 1];
      TimesOutOnDuration(duration, init);
      ElapsedNonNegative(init);
    }
  }
}
