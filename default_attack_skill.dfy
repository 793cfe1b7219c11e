/** The player's default attack (Assets/Scripts/Combat/DefaultAttackSkill.cs):
    a cooldown that counts down each frame without a clamp, an optional mana
    cost, and a cooldown derived from the weapon's attack rate. Firing the
    weapon is an opaque action, counted as a fire request. */
module DefaultAttackSkills {
  import opened CharacterStatsModel

  /** The cooldown timer. `1f / 0f` is +Infinity in single precision: a zero
      attack rate leaves a cooldown that never runs out, written Forever. */
  datatype Cooldown = Seconds(s: real) | Forever

  /** Whether the timer blocks an activation (`currentCooldown > 0f`). */
  predicate OnCooldown(c: Cooldown)
  {
    c.Forever? || c.s > 0.0
  }

  /** One frame of countdown: only a running timer moves, and it is not
      clamped, so it can stop below zero. Infinity minus dt stays infinite. */
  function CountedDown(c: Cooldown, dt: real): (r: Cooldown)
    ensures c.Forever? ==> r == c
    ensures c.Seconds? && c.s <= 0.0 ==> r == c
    ensures c.Seconds? && c.s > 0.0 ==> r.Seconds? && r.s + dt == c.s
  {
    if c.Seconds? && c.s > 0.0 then Seconds(c.s - dt) else c
  }

  /** The attack rate: attacks per second of the weapon, raised by the bonus. */
  function AttackRate(weaponAttackSpeed: real, attackSpeedBonus: real): real
  {
    weaponAttackSpeed * (1.0 + attackSpeedBonus)
  }

  /** The cooldown set on success, the inverse of the attack rate, with no
      guard against a zero rate. */
  function EffectiveCooldown(rate: real): (r: Cooldown)
    ensures r.Forever? <==> rate == 0.0
    ensures r.Seconds? ==> r.s * rate == 1.0
    ensures rate > 0.0 ==> r.Seconds? && r.s > 0.0
    ensures rate < 0.0 ==> r.Seconds? && r.s < 0.0
  {
    if rate == 0.0 then Forever else Seconds(1.0 / rate)
  }

  /** Whether TryActivateSkill gets past its two checks. */
  predicate CanActivate(c: Cooldown, manaCost: real, currentMana: real)
  {
    !OnCooldown(c) && !(manaCost > 0.0 && currentMana < manaCost)
  }

  /** The mana after a successful activation. */
  function ManaAfter(currentMana: real, manaCost: real): (r: real)
    ensures manaCost > 0.0 ==> r == currentMana - manaCost
    ensures manaCost <= 0.0 ==> r == currentMana
  {
    if manaCost > 0.0 then currentMana - manaCost else currentMana
  }

  class DefaultAttackSkill {
    var baseCooldown: real
    var manaCost: real
    var currentCooldown: Cooldown
    /** WeaponFirer.FireWeapon calls issued so far. */
    var fireRequests: nat

    /** Field initializers: one second of base cooldown, no mana cost, ready. */
    constructor ()
      ensures baseCooldown == 1.0 && manaCost == 0.0
      ensures currentCooldown == Seconds(0.0) && !OnCooldown(currentCooldown)
      ensures fireRequests == 0
    {
      baseCooldown := 1.0;
      manaCost := 0.0;
      currentCooldown := Seconds(0.0);
      fireRequests := 0;
    }

    /** Update: the countdown, then an activation attempt when the button
        went down this frame. The mouse state and the weapon's attack speed
        are parameters. */
    method Update(dt: real, buttonDown: bool, playerStats: CharacterStats, weaponAttackSpeed: real)
      returns (fired: bool)
      modifies this`currentCooldown, this`fireRequests, playerStats`currentMana
      ensures fired ==> buttonDown
      ensures !buttonDown ==>
                currentCooldown == CountedDown(old(currentCooldown), dt)
                && fireRequests == old(fireRequests) && playerStats.currentMana == old(playerStats.currentMana)
      ensures buttonDown ==> (fired <==> CanActivate(CountedDown(old(currentCooldown), dt), manaCost, old(playerStats.currentMana)))
      ensures !fired ==>
                currentCooldown == CountedDown(old(currentCooldown), dt) && playerStats.currentMana == old(playerStats.currentMana)
      ensures fired ==>
                currentCooldown == EffectiveCooldown(AttackRate(weaponAttackSpeed, playerStats.attackSpeedBonus))
                && playerStats.currentMana == ManaAfter(old(playerStats.currentMana), manaCost)
      ensures fireRequests == old(fireRequests) + (if fired then 1 else 0)
    {
      if currentCooldown.Seconds? && currentCooldown.s > 0.0 {
        currentCooldown := Seconds(currentCooldown.s - dt);
      }
      fired := false;
      if buttonDown {
        fired := TryActivateSkill(playerStats, weaponAttackSpeed);
      }
    }

    /** TryActivateSkill: refused while the timer runs or when a positive cost
        exceeds the mana; otherwise sets the cooldown from the attack rate,
        pays the cost and fires. */
    method TryActivateSkill(playerStats: CharacterStats, weaponAttackSpeed: real) returns (fired: bool)
      modifies this`currentCooldown, this`fireRequests, playerStats`currentMana
      ensures fired <==> CanActivate(old(currentCooldown), manaCost, old(playerStats.currentMana))
      ensures !fired ==>
                currentCooldown == old(currentCooldown) && fireRequests == old(fireRequests)
                && playerStats.currentMana == old(playerStats.currentMana)
      ensures fired ==>
                currentCooldown == EffectiveCooldown(AttackRate(weaponAttackSpeed, playerStats.attackSpeedBonus))
                && playerStats.currentMana == ManaAfter(old(playerStats.currentMana), manaCost)
                && fireRequests == old(fireRequests) + 1
      ensures fired && manaCost > 0.0 ==> playerStats.currentMana >= 0.0
    {
      if currentCooldown.Forever? || currentCooldown.s > 0.0 {
        return false;
      }
      if manaCost > 0.0 && playerStats.currentMana < manaCost {
        return false;
      }
      var effectiveAttackRate := weaponAttackSpeed * (1.0 + playerStats.attackSpeedBonus);
      if effectiveAttackRate == 0.0 {
        currentCooldown := Forever;
      } else {
        currentCooldown := Seconds(1.0 / effectiveAttackRate);
      }
      if manaCost > 0.0 {
        playerStats.currentMana := playerStats.currentMana - manaCost;
      }
      fireRequests := fireRequests + 1;
      return true;
    }
  }

  /** A positive attack rate blocks a second activation right after the
      first: the new cooldown is running. */
  lemma FiringStartsCooldown(rate: real)
    requires rate > 0.0
    ensures OnCooldown(EffectiveCooldown(rate))
  {
  }

  /** A zero attack rate (for instance a bonus of -1) blocks the skill for
      good: no sequence of frames brings the timer down. */
  lemma {:induction false} ZeroRateBlocksForever(dts: seq<real>)
    ensures CountedDownAll(EffectiveCooldown(0.0), dts) == Forever
  {
    if dts != [] {
      ZeroRateBlocksForever(dts[..|dts| - 1]);
    }
  }

  /** The timer after one update per frame time in `dts`. */
  function CountedDownAll(c: Cooldown, dts: seq<real>): Cooldown
  {
    if dts == [] then c else CountedDown(CountedDownAll(c, dts[..|dts| - 1]), dts[|dts| - 1])
  }

  /** The countdown is not clamped: half a second left and a one-second
      frame leave -0.5, which already counts as ready. */
  lemma CountdownOvershoots()
    ensures CountedDown(Seconds(0.5), 1.0) == Seconds(-0.5)
    ensures !OnCooldown(CountedDown(Seconds(0.5), 1.0))
  {
  }

  /** A finite timer never rises while the frame times are non-negative. */
  lemma {:induction false} CountdownMonotone(c: Cooldown, dts: seq<real>)
    requires c.Seconds?
    requires forall i | 0 <= i < |dts| :: dts[i] >= 0.0
    ensures CountedDownAll(c, dts).Seconds? && CountedDownAll(c, dts).s <= c.s
  {
    if dts != [] {
      CountdownMonotone(c, dts[..|dts| - 1]);
    }
  }

  /** Mana is paid only on success and only when the cost is positive, so a
      non-negative mana pool stays non-negative on that path. */
  lemma ManaNeverOverdrawn(c: Cooldown, manaCost: real, currentMana: real)
    requires currentMana >= 0.0
    requires CanActivate(c, manaCost, currentMana)
    ensures ManaAfter(currentMana, manaCost) >= 0.0
    ensures ManaAfter(currentMana, manaCost) <= currentMana
  {
  }
}
