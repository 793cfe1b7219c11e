# A verified model of an action-RPG stat, equipment and combat core

This project models, in Dafny, the gameplay core of a Unity action-RPG
written in C#. It does not model the rendering, physics or input layers.
Most core C# files become one Dafny module each. The two UI2 files,
`Container.cs` and `Draggable.cs`, share the module `UiContainers`
because their classes call each other; `LifeDamage` and `Wrappers` are
shared helpers that model no single file. Objects whose fields the game
updates in place become classes, and configuration values become
datatypes. The model covers:

- **Stats** (`stat.dfy`, `character_stats.dfy`, `legacy_character_stats.dfy`).
  A `Stat` has a base value plus additive and multiplicative modifier lists.
  It is worth `(base + Σadditive) * (1 + Σmultiplicative)`. A
  `CharacterStats` table maps stat names to `Stat` objects and creates a
  missing stat on lookup.
- **Items, inventory and weapon** (`item.dfy`, `inventory.dfy`, `weapon.dfy`).
  Items add their modifiers to a stats table and take them off again. The
  inventory is a bag of nullable slots plus an equipment dictionary. A
  weapon's sixteen properties are overridden from a stat dictionary,
  shifted by item bonuses, and reset to the snapshot taken at Awake.
- **Skills** (`skill_stats.dfy`, `skill.dfy`, `projectile_skill.dfy`,
  `melee_attack_skill.dfy`, `default_attack_skill.dfy`, `life_damage.dfy`).
  A `Skill`'s cooldown timer counts down with the frame time and is
  clamped at zero. The default attack's timer and the enemy contact
  attack's timer count down without a clamp, so they can go negative.
  Damage is rolled from the weapon's or the skill's range, with a critical
  multiplier. Projectile volleys spread quadratically. A melee sweep hits
  every target of the right kind. The default attack is gated by attack
  speed and mana.
- **Combat objects** (`projectile.dfy`, `damage_receiver.dfy`).
  A projectile times out, hits targets of its target type and pierces by
  chance. The damage receiver floors the new life at zero and raises a
  death event at zero life, every time.
- **Enemies** (`enemy_defaults.dfy`, `enemy_stats.dfy`,
  `legacy_enemy_stats.dfy`, `enemy_melee_attack.dfy`,
  `enemy_controller.dfy`). Enemy defaults are merged into the stats table.
  The enemy's state machine runs through Idle, Awake, Chase, Attack and
  Die, choosing states by distance and gating skill use on readiness and
  the attack animation. A contact attack has its own cooldown.
- **Player** (`player_controller.dfy`). This covers the dodge roll, the
  recovery at reduced speed that follows it, and the projectile skill
  fired on a click when it is ready.
- **UI slots** (`ui_container.dfy`, `legacy_container.dfy`).
  These are drag-and-drop containers. A drop merges stacks, swaps items or
  places the item, and equipment slots equip and unequip what they hold.
  Right-clicking an item offers it to the first container that takes it.

`Option` lives in `wrappers.dfy`.

Engine side effects are not performed. Instead they are returned as
values that the properties can talk about: instantiating, destroying,
animator triggers, events and the equip calls a slot makes all become
returned action lists, flags or counters. Randomness, frame times,
distances and player input are parameters.

## Model

| member | source | states |
|---|---|---|
| StatSystem.Stat.constructor | Assets/Scripts/Stats/Stat.cs:15-21 | a new Stat holds the given base and two empty lists, so GetValue returns the base |
| StatSystem.Stat.GetValue | Assets/Scripts/Stats/Stat.cs:35-41 | with no modifiers a Stat is worth its base; with no multiplicative modifiers it is the base plus the additive sum; with no additive modifiers it is the base scaled by one plus the multiplicative sum |
| StatSystem.Stat.AddModifier | Assets/Scripts/Stats/Stat.cs:23-27 | the value is appended to exactly the list isMultiplicative picks; the other list and the base are unchanged |
| StatSystem.Stat.RemoveModifier | Assets/Scripts/Stats/Stat.cs:29-33 | only the first equal value is removed from the chosen list; a value that is not there leaves the Stat unchanged; the base is kept |
| StatSystem.Stat.SetValue | Assets/Scripts/Combat/DamageReceiver.cs:63 | (a member Stat.cs does not declare) the base becomes the new value and both lists are kept |
| StatSystem.RemoveFirstAbsent | Assets/Scripts/Stats/Stat.cs:29-33 | removing a value the list does not hold returns the list unchanged |
| StatSystem.RemoveFirstMultiset | Assets/Scripts/Stats/Stat.cs:29-33 | removing a present value takes out exactly one copy and shortens the list by one |
| StatSystem.RemoveFirstSum | Assets/Scripts/Stats/Stat.cs:29-33 | removing a present value lowers the list's sum by exactly that value |
| StatSystem.SumOfPermutation | Assets/Scripts/Stats/Stat.cs:38-39 | the sum of a modifier list depends only on its multiset of values |
| StatSystem.ValueIgnoresModifierOrder | Assets/Scripts/Stats/Stat.cs:35-41 | GetValue depends only on the base and the multisets of the two lists, not on the order in which modifiers were added |
| StatSystem.MultiplicativeBonusesAdd | Assets/Scripts/Stats/Stat.cs:35-41 | multiplicative bonuses are summed, never multiplied together: base b with m1, m2 is worth b * (1 + m1 + m2) |
| StatSystem.ValueExample | Assets/Scripts/Stats/Stat.cs:35-41 | base 100 with additive [10, -5] and multiplicative [0.1, 0.2] is worth 136.5 |
| StatSystem.AddThenRemoveSameModifiers | Assets/Scripts/Stats/Stat.cs:23-33 | AddModifier then RemoveModifier of the same value restores the base and both lists as multisets |
| StatSystem.AddThenRemoveRestoresValue | Assets/Scripts/Stats/Stat.cs:23-41 | AddModifier then RemoveModifier of the same value restores GetValue |
| CharacterStatsModel.AfterLookup | Assets/Scripts/Stats/CharacterStats.cs:36-44 | looking a name up adds exactly that name when it is missing, at base 0 with no modifiers, and keeps every other entry |
| CharacterStatsModel.CharacterStats.constructor | Assets/Scripts/Stats/CharacterStats.cs:8-19 | an empty table with DamageMultiplier 1, the crit and attack-speed bonuses 0 and CurrentMana 100 |
| CharacterStatsModel.CharacterStats.InitializeStats | Assets/Scripts/Stats/CharacterStats.cs:21-33 | Strength, Dexterity and Intelligence at 10 and Life at 100 are (over)written with fresh Stat objects; every other entry and all scalar fields are kept |
| CharacterStatsModel.CharacterStats.PutNewStat | Assets/Scripts/Stats/CharacterStats.cs:29 | the dictionary indexer inserts or overwrites the name with a fresh Stat and touches no other entry |
| CharacterStatsModel.CharacterStats.GetStat | Assets/Scripts/Stats/CharacterStats.cs:36-44 | never fails: a missing name is inserted as a fresh Stat at base 0 and returned; an existing entry is returned and the table is unchanged |
| CharacterStatsModel.CharacterStats.AddStat | Assets/Scripts/Stats/CharacterStats.cs:47-53 | inserts a fresh Stat only when the name is absent; an existing stat keeps its base and its modifiers |
| CharacterStatsModel.AddStatIdempotent | Assets/Scripts/Stats/CharacterStats.cs:47-53 | calling AddStat twice with the same arguments leaves the same table as calling it once |
| CharacterStatsModel.AddStatKeepsExisting | Assets/Scripts/Stats/CharacterStats.cs:47-53 | a stat that exists is never reset by AddStat, whatever base is asked for |
| CharacterStatsModel.InitialValues | Assets/Scripts/Stats/CharacterStats.cs:11-14 | after Awake exactly the four base stats exist, worth 10, 10, 10 and 100 |
| LegacyCharacterStats.CharacterStats.constructor | Assets/Scripts/CharacterStats.cs:6 | the table starts empty |
| LegacyCharacterStats.CharacterStats.Add | Assets/Scripts/CharacterStats.cs:20-23 | Dictionary.Add fails, changing nothing, on a present key and otherwise inserts a fresh Stat |
| LegacyCharacterStats.CharacterStats.InitializeStats | Assets/Scripts/CharacterStats.cs:13-25 | the outcome and the new table are those Initialized gives for the old table: the four Adds run in order and the first failing one ends the method |
| LegacyCharacterStats.InitializedTable | Assets/Scripts/CharacterStats.cs:18-24 | success iff no base name is present, and then the table gains exactly the four fresh stats; otherwise DuplicateKey names the first base name present, the names before it stay added, no other name appears and no existing entry changes |
| LegacyCharacterStats.CharacterStats.GetStat | Assets/Scripts/CharacterStats.cs:28-37 | a missing name is added at defaultStatValue 0 and returned, so the guarded Add never fails; an existing entry leaves the table unchanged |
| LegacyCharacterStats.CharacterStats.AddStat | Assets/Scripts/CharacterStats.cs:38-42 | inserts only when absent, so it never fails and an existing stat is untouched |
| Items.Item.Default | Assets/Scripts/Items/Item.cs:33-42 | the field initializers: a non-stackable Normal BagItem, stack 1 of at most 1, no modifiers |
| Items.Item.constructor | Assets/Scripts/Items/Item.cs:33-42 | an item asset holds the configured fields |
| Items.Item.Clone | Assets/Scripts/Inventory.cs:43 | `Instantiate(item)`: a new item object with the same configuration and stack as the original |
| Items.Item.ApplyTo | Assets/Scripts/Items/Item.cs:44-54 | each modifier, in list order, is added to the stat it names (created at 0 when missing); no existing entry is replaced and no scalar changes |
| Items.Item.RemoveFrom | Assets/Scripts/Items/Item.cs:56-66 | each modifier, in list order, is removed from the stat it names (created at 0 when missing) |
| Items.AddToStat | Assets/Scripts/Items/Item.cs:48-52 | one loop step: GetStat, then AddModifier on that stat only |
| Items.RemoveFromStat | Assets/Scripts/Items/Item.cs:60-64 | one loop step: GetStat, then RemoveModifier on that stat only |
| Items.ModifiedKeys | Assets/Scripts/Items/Item.cs:44-66 | ApplyTo and RemoveFrom each add exactly the missing stats the modifiers name |
| Items.ModifiedBase | Assets/Scripts/Items/Item.cs:44-66 | neither ApplyTo nor RemoveFrom changes any base value; a created stat has base 0 |
| Items.ApplyAllLists | Assets/Scripts/Items/Item.cs:44-54 | ApplyTo appends the item's values for each stat and list, in list order, to that list |
| Items.UnnamedUntouched | Assets/Scripts/Items/Item.cs:44-66 | a stat no modifier names is neither created nor changed by ApplyTo or RemoveFrom |
| Items.RemoveAllLists | Assets/Scripts/Items/Item.cs:56-66 | when every value is present, RemoveFrom takes exactly one copy of each item value out of its stat's list |
| Items.ApplyAllRemoveAllSameModifiers | Assets/Scripts/Items/Item.cs:44-66 | ApplyTo then RemoveFrom of the same item leaves every list with the same multiset of values |
| Items.ApplyThenRemoveRestoresValues | Assets/Scripts/Items/Item.cs:44-66 | ApplyTo then RemoveFrom of the same item restores the value of every stat; stats it created stay at base 0, worth 0 |
| Inventories.IndexOf | Assets/Scripts/Inventory.cs:54 | List.IndexOf: -1 exactly when the item is absent, otherwise the first index holding it |
| Inventories.Inventory.constructor | Assets/Scripts/Inventory.cs:9-12 | nothing equipped, an empty bag, TotalSlots 60 |
| Inventories.Inventory.Awake | Assets/Scripts/Inventory.cs:17-35 | every equipment slot is set to empty and TotalSlots empty entries are appended to the bag |
| Inventories.Inventory.AddToBag | Assets/Scripts/Inventory.cs:37-50 | the first empty entry receives a new copy of the item holding `quantity`; a full bag is left unchanged and raises no event; the bag's length never changes |
| Inventories.Inventory.RemoveFromBag | Assets/Scripts/Inventory.cs:52-60 | the first entry holding the item becomes empty and the event fires; an absent item changes nothing |
| Inventories.Inventory.SwapItems | Assets/Scripts/Inventory.cs:62-75 | two valid indices exchange their entries and the event fires; any index out of range changes nothing |
| Inventories.Inventory.GetItemIndex | Assets/Scripts/Inventory.cs:82-85 | -1 exactly when the item is not in the bag, otherwise the first index holding it |
| Inventories.Inventory.GetEquippedItem | Assets/Scripts/Inventory.cs:87-90 | the item in the slot; nothing exactly when the slot has no entry or is empty |
| Inventories.Inventory.UnequipItem | Assets/Scripts/Inventory.cs:104-109 | the held item's modifiers are removed from the table and the slot becomes empty; a slot with no entry throws (KeyNotFound) and changes nothing |
| Inventories.Inventory.EquipItem | Assets/Scripts/Inventory.cs:92-102 | the previous item is unequipped first, then the new one is stored and its modifiers added; the event fires once per step; a slot with no entry throws and changes nothing |
| Inventories.Inventory.StoreAndApply | Assets/Scripts/Inventory.cs:99-101 | the slot holds the item, its modifiers are added, the equipment event fires |
| Inventories.SwapExchanges | Assets/Scripts/Inventory.cs:70-72 | a swap exchanges exactly the two entries, keeps the rest, and swapping again restores the bag |
| Inventories.SwapKeepsContents | Assets/Scripts/Inventory.cs:70-72 | a swap neither loses nor duplicates an item |
| Inventories.AwakeBag | Assets/Scripts/Inventory.cs:25-34 | after Awake on a fresh inventory the bag is 60 empty entries and every slot is empty |
| Weapons.Snapshot | Assets/Scripts/Combat/Weapon.cs:59-77 | the Awake snapshot holds every stat except CritMultiplier, each at its current value |
| Weapons.Entry | Assets/Scripts/Combat/Weapon.cs:121-173 | one switch case moves only its own stat: by the value, by the truncated value for ProjectileAmount, and not at all for CritMultiplier, which has no case |
| Weapons.Weapon.constructor | Assets/Scripts/Combat/Weapon.cs:35-57 | the property initializers: speed 1, crit chance 0.05, crit multiplier 1.5, one projectile at speed 10, zero damage and area, type None, an empty snapshot |
| Weapons.Weapon.Awake | Assets/Scripts/Combat/Weapon.cs:59-77 | the snapshot of the current fifteen stats is written into baseWeaponStats |
| Weapons.Weapon.SetWeaponStats | Assets/Scripts/Combat/Weapon.cs:84-101 | every stat but CritMultiplier takes the dictionary's value, or 0 when its key is absent, with ProjectileAmount truncated |
| Weapons.Weapon.ResetWeaponStats | Assets/Scripts/Combat/Weapon.cs:107-111 | the snapshot is re-applied and the type becomes None; with an Awake snapshot of the current stats nothing moves |
| Weapons.Weapon.ShiftStat | Assets/Scripts/Combat/Weapon.cs:123-172 | one `+=` or `-=` switch case, as Entry states |
| Weapons.Weapon.ShiftAll | Assets/Scripts/Combat/Weapon.cs:121-174 | iterating the dictionary in any order shifts every stat by its own entry |
| Weapons.Weapon.ApplyItemStats | Assets/Scripts/Combat/Weapon.cs:116-175 | each entry is added to its stat; a missing dictionary changes nothing |
| Weapons.Weapon.RemoveItemStats | Assets/Scripts/Combat/Weapon.cs:180-239 | each entry is subtracted from its stat; a missing dictionary changes nothing |
| Weapons.ShiftedGet | Assets/Scripts/Combat/Weapon.cs:116-239 | after a shift, each stat has moved by its own entry's delta and by nothing else |
| Weapons.OverriddenGet | Assets/Scripts/Combat/Weapon.cs:84-101 | SetWeaponStats, stat by stat: the value or 0 for fifteen stats, truncated for ProjectileAmount, CritMultiplier kept |
| Weapons.ShiftedStep | Assets/Scripts/Combat/Weapon.cs:121-174 | processing one more key of the loop is one more switch case |
| Weapons.ApplyThenRemoveRestores | Assets/Scripts/Combat/Weapon.cs:116-239 | ApplyItemStats then RemoveItemStats of the same dictionary restores every property exactly; a stat without an entry is never touched |
| Weapons.CritMultiplierEntryIgnored | Assets/Scripts/Combat/Weapon.cs:121-172 | an entry for CritMultiplier never changes the weapon |
| Weapons.OverrideIdempotent | Assets/Scripts/Combat/Weapon.cs:84-101 | SetWeaponStats is idempotent, and its result depends on the old stats only through CritMultiplier |
| Weapons.ResetRestoresSnapshot | Assets/Scripts/Combat/Weapon.cs:59-111 | after any override or shift, ResetWeaponStats with the Awake snapshot gives back exactly the Awake stats |
| Weapons.DefaultSnapshot | Assets/Scripts/Combat/Weapon.cs:35-77 | Awake of a default weapon snapshots speed 1, crit 0.05, one projectile at speed 10 and 0 for the eleven damage and area stats |
| SkillConfig.DefaultSkillStats | Assets/Scripts/Combat/SkillStats.cs:12-55 | a new skill asset's defaults (cooldown 1, speed 10, one projectile, spread 5, crit 5% at x2, no damage) lie within the declared [Range] limits |
| Skills.TargetFilter | Assets/Scripts/Combat/Projectile.cs:108-117 | Both accepts every tag; Player accepts exactly the tag "Player" and Enemy exactly "Enemy" |
| Skills.IsCorrectTargetType | Assets/Scripts/Combat/Projectile.cs:108-117 | apart from Both, only objects tagged "Player" or "Enemy" can be hit; an object with any other tag is hit only by a Both skill |
| Skills.CooledDown | Assets/Scripts/Combat/Skill.cs:51-61 | a ready (non-positive) timer is left alone; a running one drops by the frame time and never below zero, and never rises for a non-negative frame time |
| Skills.Skill.constructor | Assets/Scripts/Combat/Skill.cs:21-30 | a new skill is named "Skill", has one second of base cooldown, targets both sides and is ready |
| Skills.Skill.InitializeSkill | Assets/Scripts/Combat/Skill.cs:35-38 | the timer is reset to zero, so the skill is ready |
| Skills.Skill.UpdateSkillCooldown | Assets/Scripts/Combat/Skill.cs:51-61 | one frame moves the timer exactly as CooledDown describes |
| Skills.Skill.BeginCooldown | Assets/Scripts/Combat/Skill.cs:66-69 | the timer restarts at the base cooldown |
| Skills.Skill.IsSkillReady | Assets/Scripts/Combat/Skill.cs:75-78 | a positive timer is not ready, and a timer kept non-negative (as the clamped countdown does) is ready exactly at zero |
| Skills.CooldownClosedForm | Assets/Scripts/Combat/Skill.cs:51-61 | from a non-negative timer and non-negative frame times, any run of updates leaves max(0, cooldown - elapsed time) |
| Skills.ReadyExactlyAfterCooldown | Assets/Scripts/Combat/Skill.cs:51-78 | the timer stays within [0, start], and the skill is ready again iff the elapsed time has reached the cooldown |
| Skills.CoolDownAll | Assets/Scripts/Enemy/EnemyController.cs:105-109 | the per-frame loop over the skill list updates each listed skill once per occurrence in the list, and no base cooldown changes; only the timers may change, so every skill keeps its name, base cooldown, target type and stats (Setup) |
| Skills.InitializeAll | Assets/Scripts/Enemy/EnemyController.cs:88-95 | after the initialisation loop every listed skill is ready, and no base cooldown changes; only the timers may change, so every skill keeps its name, base cooldown, target type and stats (Setup) |
| ProjectileSkills.DamageSource | Assets/Scripts/Combat/ProjectileSkill.cs:91-155 | the weapon's ranges and critical numbers are used iff the skill is weapon-based and a weapon is equipped, otherwise the skill asset's |
| ProjectileSkills.ComputeAttackDamage | Assets/Scripts/Combat/ProjectileSkill.cs:83-175 | the attack is critical iff the crit roll is below source chance plus owner bonus; damage is the rolled sum times the owner's multiplier, times (source multiplier plus owner bonus) on a critical hit, times the skill's damage modifier |
| ProjectileSkills.RollInRange | Assets/Scripts/Combat/ProjectileSkill.cs:108-112 | each damage roll lies within its [min, max] range |
| ProjectileSkills.RawDamageInRange | Assets/Scripts/Combat/ProjectileSkill.cs:107-115 | the summed roll lies between the sum of the minima and the sum of the maxima |
| ProjectileSkills.CritChanceBounds | Assets/Scripts/Combat/ProjectileSkill.cs:161-167 | a total critical chance of 0 or less never crits, one above 1 always does |
| ProjectileSkills.IndependentSkillIgnoresWeapon | Assets/Scripts/Combat/ProjectileSkill.cs:91-155 | an independent skill's damage does not depend on the weapon, and a weapon-based skill without a weapon deals the independent damage |
| ProjectileSkills.DamageInRange | Assets/Scripts/Combat/ProjectileSkill.cs:83-175 | with non-negative factors the final damage lies between the scaled minimum and maximum rolls |
| ProjectileSkills.SpreadOffsetQuadratic | Assets/Scripts/Combat/ProjectileSkill.cs:54-63 | for two or more projectiles the offset of projectile i is -(n-1)*spread/2 + i*i*spread: it grows with the square of the index |
| ProjectileSkills.SpreadOffset | Assets/Scripts/Combat/ProjectileSkill.cs:55-63 | the first projectile flies at minus half the total spread, and a single projectile flies straight ahead |
| ProjectileSkills.SmallVolleys | Assets/Scripts/Combat/ProjectileSkill.cs:54-63 | one projectile flies straight; two fan out by half the spread angle each way |
| ProjectileSkills.ThreeProjectilesLopsided | Assets/Scripts/Combat/ProjectileSkill.cs:54-63 | three projectiles at a 5 degree spread get offsets -5, 0 and 15, so the fan is not symmetric |
| ProjectileSkills.Volley | Assets/Scripts/Combat/ProjectileSkill.cs:61-74 | a volley has max(count, 0) projectiles, projectile i at spread offset i, all with the same speed, damage, duration and target type |
| ProjectileSkills.ProjectileSkill.constructor | Assets/Scripts/Combat/ProjectileSkill.cs:18 | a projectile skill is weapon-based by default |
| ProjectileSkills.ProjectileSkill.ActivateSkill | Assets/Scripts/Combat/ProjectileSkill.cs:22-78 | a skill that is cooling down, has no asset or no owner stats spawns nothing and keeps its timer; otherwise it spawns the volley (weapon's projectile count when a weapon is present, speed and duration raised by the owner's percentages, one damage roll shared by all) and restarts the cooldown |
| LifeDamage.LifeLowered | Assets/Scripts/Combat/MeleeAttackSkill.cs:43-44 | lowering Life creates it at 0 when missing, keeps every other stat, and lowers Life's base by exactly the amount, with no floor |
| LifeDamage.LowerLife | Assets/Scripts/Combat/MeleeAttackSkill.cs:43-44 | `GetStat("Life").BaseValue -= amount` on a stat table: the table becomes LifeLowered of the old one, the existing Stat objects stay in place, and the new base is returned |
| LifeDamage.LifeLoweredTwice | Assets/Scripts/Combat/MeleeAttackSkill.cs:43-44 | two hits add up: lowering by a then by b equals lowering by a + b |
| MeleeAttackSkills.MeleeAttackSkill.constructor | Assets/Scripts/Combat/MeleeAttackSkill.cs:11-14 | a melee skill reaches 1.5 units and deals 10 base damage |
| MeleeAttackSkills.MeleeAttackSkill.ActivateSkill | Assets/Scripts/Combat/MeleeAttackSkill.cs:18-55 | a skill that is cooling down changes nothing; otherwise every struck table loses base damage once per hit that is not the caster, matches the target type and has stats, and the cooldown restarts once |
| MeleeAttackSkills.HitAll | Assets/Scripts/Combat/MeleeAttackSkill.cs:32-50 | the hit loop leaves each target's table lowered once per damaging hit on it, with the other scalars unchanged |
| MeleeAttackSkills.LoweredTimesClosedForm | Assets/Scripts/Combat/MeleeAttackSkill.cs:32-50 | k hits of the same amount lower Life by k times the amount |
| MeleeAttackSkills.CountBounds | Assets/Scripts/Combat/MeleeAttackSkill.cs:32-50 | a target is hit at most once per entry of the hit list, and never when no entry is for it |
| DefaultAttackSkills.CountedDown | Assets/Scripts/Combat/DefaultAttackSkill.cs:18-22 | an infinite or non-positive timer is left alone; a running one drops by exactly the frame time, without a clamp |
| DefaultAttackSkills.EffectiveCooldown | Assets/Scripts/Combat/DefaultAttackSkill.cs:53-55 | the cooldown is the inverse of the attack rate: infinite iff the rate is 0, positive for a positive rate, negative for a negative one |
| DefaultAttackSkills.ManaAfter | Assets/Scripts/Combat/DefaultAttackSkill.cs:60-64 | a positive cost is subtracted from the mana; a non-positive one is not |
| DefaultAttackSkills.DefaultAttackSkill.constructor | Assets/Scripts/Combat/DefaultAttackSkill.cs:6-14 | one second of base cooldown, no mana cost, ready |
| DefaultAttackSkills.DefaultAttackSkill.Update | Assets/Scripts/Combat/DefaultAttackSkill.cs:16-29 | the timer counts down first; it fires only on the button, and then iff the counted-down timer and the mana allow it; without firing the timer is the counted-down one and the mana is unchanged; firing restarts the cooldown at 1 over the effective attack rate, spends the mana cost and adds one fire request |
| DefaultAttackSkills.DefaultAttackSkill.TryActivateSkill | Assets/Scripts/Combat/DefaultAttackSkill.cs:34-68 | fires iff the timer is not running and a positive cost does not exceed the mana; a refusal changes nothing; success sets the cooldown to the inverse attack rate, pays the cost (never driving the mana negative) and issues one fire request |
| DefaultAttackSkills.FiringStartsCooldown | Assets/Scripts/Combat/DefaultAttackSkill.cs:53-58 | at a positive attack rate a second activation right after the first is refused |
| DefaultAttackSkills.ZeroRateBlocksForever | Assets/Scripts/Combat/DefaultAttackSkill.cs:53-58 | at attack rate 0 the cooldown never runs out, whatever frames follow |
| DefaultAttackSkills.CountdownOvershoots | Assets/Scripts/Combat/DefaultAttackSkill.cs:18-22 | half a second left and a one-second frame leave -0.5, which already counts as ready |
| DefaultAttackSkills.CountdownMonotone | Assets/Scripts/Combat/DefaultAttackSkill.cs:18-22 | a finite timer never rises while frame times are non-negative |
| DefaultAttackSkills.ManaNeverOverdrawn | Assets/Scripts/Combat/DefaultAttackSkill.cs:43-64 | an accepted activation never takes a non-negative mana pool below zero, and never raises it |
| Projectiles.PierceChanceAfter | Assets/Scripts/Combat/Projectile.cs:83-84 | after a pierce the chance is 100 points lower but never below 0 |
| Projectiles.Projectile.constructor | Assets/Scripts/Combat/Projectile.cs:9-19 | a new projectile carries its serialized duration and pierce chance, a zero timer and active duration, and is not destroyed |
| Projectiles.Projectile.Start | Assets/Scripts/Combat/Projectile.cs:22-26 | Start schedules a destroy after the active duration |
| Projectiles.Projectile.Initialize | Assets/Scripts/Combat/Projectile.cs:36-49 | records direction, speed, attack data, target type and the custom duration as the active one, and resets the timer; the serialized duration and pierce chance are kept |
| Projectiles.Projectile.Update | Assets/Scripts/Combat/Projectile.cs:51-60 | the timer advances by the frame time and the projectile is destroyed once it reaches the serialized duration |
| Projectiles.Projectile.OnTriggerEnter2D | Assets/Scripts/Combat/Projectile.cs:62-99 | a rejected object destroys the projectile and takes nothing; a matching object without stats changes nothing; a matching object with stats loses the attack's damage from Life, then the projectile pierces (chance 100 lower, floored at 0) when the roll is below the chance and is destroyed otherwise; a destroyed projectile stays destroyed |
| Projectiles.PierceRunBounded | Assets/Scripts/Combat/Projectile.cs:80-91 | a chance of at most 100 times k pierces at most k hits in a row |
| Projectiles.TimesOutOnDuration | Assets/Scripts/Combat/Projectile.cs:51-60 | from a fresh timer the timer equals the elapsed time, and the projectile is destroyed iff at least one frame ran and the elapsed time reached the serialized duration; the custom duration plays no part |
| DamageReceivers.NewLife | Assets/Scripts/Combat/DamageReceiver.cs:56-62 | the new life is never negative; it is 0 iff the current Life value is at most the damage, and otherwise the value minus the damage |
| DamageReceivers.LifeSet | Assets/Scripts/Combat/DamageReceiver.cs:57-63 | writing the new life touches only Life (created when missing): its base becomes the new life and its modifiers stay |
| DamageReceivers.DamageEvents | Assets/Scripts/Combat/DamageReceiver.cs:64-80 | the damage event always comes first; the death event fires iff the new life is 0 or less, the health-bar registration iff the character lives and a manager exists; at most two events |
| DamageReceivers.DamageReceiver.constructor | Assets/Scripts/Combat/DamageReceiver.cs:6-14 | a receiver starts enabled with its serialized stats reference and no events |
| DamageReceivers.DamageReceiver.Awake | Assets/Scripts/Combat/DamageReceiver.cs:16-29 | a set reference is kept; an unset one takes the stats found on the object, and the component disables itself when there are none |
| DamageReceivers.DamageReceiver.TakeDamage | Assets/Scripts/Combat/DamageReceiver.cs:45-86 | a dodging owner takes nothing and emits nothing; otherwise Life is set to the floored new life, nothing else in the table changes, and DamageEvents is appended |
| DamageReceivers.ApplyDamage | Assets/Scripts/Combat/DamageReceiver.cs:57-63 | reads Life's value, floors the difference at 0, writes it back and returns it |
| DamageReceivers.PlainLifeAfterHit | Assets/Scripts/Combat/DamageReceiver.cs:56-63 | with no modifiers on Life the Life value after a hit is max(0, old value - damage) |
| DamageReceivers.DeathRepeats | Assets/Scripts/Combat/DamageReceiver.cs:66-70 | a dead character (life 0) hit again stays at 0, its table is unchanged and the death event fires again |
| EnemyConfig.DefaultStatModifiers | Assets/Scripts/Enemy/EnemyStatDefaults.cs:21-28 | a new asset lists six additive entries with pairwise distinct names: MoveSpeed, AttackCooldown, DetectionRange, AttackRange, Life, ExperienceGiven |
| EnemyConfig.DefaultEnemyDefaults | Assets/Scripts/Enemy/EnemyStatDefaults.cs:15-28 | a new asset is named "Enemy", is of Normal rarity and carries the default stat list |
| EnemyStatsModel.MergeOne | Assets/Scripts/Stats/EnemyStats.cs:38-46 | an existing stat gets the value as its base and keeps its modifiers; a new name is added at that base with none; no other stat changes |
| EnemyStatsModel.EnemyStats.constructor | Assets/Scripts/Stats/EnemyStats.cs:5-13 | a component holds its inspector asset (or none), no stats, an empty name and Normal rarity |
| EnemyStatsModel.EnemyStats.Awake | Assets/Scripts/Stats/EnemyStats.cs:15-48 | the stats reference is always cached; without stats or without an asset nothing else changes; otherwise name and rarity are copied and the table becomes the merge of the asset's list, in order |
| EnemyStatsModel.EnemyStats.TakeDamage | Assets/Scripts/Stats/EnemyStats.cs:51-63 | Life's base drops by the amount, unfloored, nothing else changes, and Die is called iff the new base is at most 0, on every such hit |
| EnemyStatsModel.MergeDefaults | Assets/Scripts/Stats/EnemyStats.cs:36-47 | the loop leaves the table as the in-order merge of the whole list |
| EnemyStatsModel.MergeStep | Assets/Scripts/Stats/EnemyStats.cs:39-46 | one loop body turns the table into MergeOne of it |
| EnemyStatsModel.MergedEntry | Assets/Scripts/Stats/EnemyStats.cs:36-47 | after the merge a name is present iff it was or is listed; an unlisted name keeps its entry; a listed one takes its last listed value as base, keeping its modifiers if it existed |
| EnemyStatsModel.MergeIgnoresFlags | Assets/Scripts/Stats/EnemyStats.cs:36-47 | the merge does not read IsMultiplicative: lists with the same names and values give the same table |
| EnemyStatsModel.LastDuplicateWins | Assets/Scripts/Stats/EnemyStats.cs:36-47 | when a name is listed twice the later value wins |
| EnemyStatsModel.LastValueDistinct | Assets/Scripts/Stats/EnemyStats.cs:36-47 | with distinct names, a listed name's last value is its only value |
| EnemyStatsModel.LastValueAbsent | Assets/Scripts/Stats/EnemyStats.cs:36-47 | an unlisted name has no listed value |
| EnemyStatsModel.DefaultValues | Assets/Scripts/Enemy/EnemyStatDefaults.cs:21-28 | the default asset gives MoveSpeed 3, AttackCooldown 1.5, DetectionRange 10, AttackRange 2, Life 100, ExperienceGiven 10, and no MovementSpeed or TimeToIdle |
| EnemyStatsModel.DefaultsOverInitialTable | Assets/Scripts/Stats/EnemyStats.cs:36-47 | merging the default asset into the initial four-stat table sets Life to 100, leaves Strength at 10 and adds AttackRange at 2 |
| LegacyEnemyStats.EnemyStats.constructor | Assets/Scripts/EnemyStats.cs:5 | a component starts without a table and without Die calls |
| LegacyEnemyStats.EnemyStats.Start | Assets/Scripts/EnemyStats.cs:7-12 | Start installs a new table holding exactly Life 50 and PhysicalDamage 15 |
| LegacyEnemyStats.EnemyStats.TakeDamage | Assets/Scripts/EnemyStats.cs:14-21 | Life's base drops by the amount, unfloored, and Die is called iff the new base is at most 0 |
| LegacyEnemyStats.LowerLegacyLife | Assets/Scripts/EnemyStats.cs:16-17 | lowering Life on the older table gives LifeLowered of the old table and returns the new base |
| LegacyEnemyStats.FirstHitAfterStart | Assets/Scripts/EnemyStats.cs:7-21 | right after Start a single hit kills iff it is at least 50, and PhysicalDamage stays 15 |
| EnemyMeleeAttacks.AttackDamage | Assets/Scripts/Enemy/EnemyMeleeAttack.cs:63-69 | without an enemy table the fallback is used; with one, the AttackDamage value, which is 0 when the stat is missing (the lookup creates it, so the fallback is never reached) |
| EnemyMeleeAttacks.EnemyMeleeAttack.constructor | Assets/Scripts/Enemy/EnemyMeleeAttack.cs:11-23 | one second between hits, 10 fallback damage, ready to hit |
| EnemyMeleeAttacks.EnemyMeleeAttack.Update | Assets/Scripts/Enemy/EnemyMeleeAttack.cs:25-32 | a positive timer drops by the frame time without a clamp; a non-positive one stays |
| EnemyMeleeAttacks.EnemyMeleeAttack.TryDamagePlayer | Assets/Scripts/Enemy/EnemyMeleeAttack.cs:35-84 | a hit lands iff the timer has run out and the object is a "Player" with stats; a miss changes nothing; a hit lowers the player's Life base by AttackDamage, restarts the timer at hitCooldown, and adds at most the AttackDamage entry to a separate enemy table |
| EnemyMeleeAttacks.EnemyMeleeAttack.Land | Assets/Scripts/Enemy/EnemyMeleeAttack.cs:61-77 | the landing branch lowers the player's Life and restarts the timer |
| EnemyMeleeAttacks.Strike | Assets/Scripts/Enemy/EnemyMeleeAttack.cs:63-73 | the damage is read from the enemy's table (or the fallback) before the player's Life is lowered; when both tables are the same object the AttackDamage entry is added to it first |
| EnemyMeleeAttacks.ReadAttackDamage | Assets/Scripts/Enemy/EnemyMeleeAttack.cs:68 | reading AttackDamage returns its value (0 when missing) and adds at most that entry to the enemy's table, leaving a separate player table alone |
| EnemyControllers.StateCode | Assets/Scripts/Enemy/EnemyController.cs:168-188 | the animator receives a code in 0..4, and 4 exactly for Die |
| EnemyControllers.StatValue | Assets/Scripts/Enemy/EnemyController.cs:128-131 | a stat missing from the table reads as 0 |
| EnemyControllers.Selected | Assets/Scripts/Enemy/EnemyController.cs:133-165 | Awake and Die are kept; without a target the enemy goes Idle; with one it is in Attack iff within attack range, in Chase iff beyond attack range but within detection range, Idle iff beyond both; only the state and the idle timer change |
| EnemyControllers.DeathActions | Assets/Scripts/Enemy/EnemyController.cs:334-368 | the death trigger and the delayed destroy are asked for iff there is an animator, experience is awarded iff there is a target with stats, and a death never moves or uses a skill |
| EnemyControllers.CooldownsOf | Assets/Scripts/Enemy/EnemyController.cs:326-330 | the cooldowns of the skill list, position by position |
| EnemyControllers.FirstReady | Assets/Scripts/Enemy/EnemyController.cs:324-332 | the position found is ready and every earlier one is not; none is found iff no position is ready |
| EnemyControllers.EnemyController.constructor | Assets/Scripts/Enemy/EnemyController.cs:16-41 | a new controller is Idle with all timers 0, timeToIdle 3, not aggravated, no attack animation, awake maximum 2 and attack-animation maximum 1 |
| EnemyControllers.EnemyController.InitializeSkills | Assets/Scripts/Enemy/EnemyController.cs:88-95 | every listed skill is ready afterwards; the skills keep their configuration (Setup), only their timers change |
| EnemyControllers.EnemyController.Update | Assets/Scripts/Enemy/EnemyController.cs:97-207 | each listed skill's cooldown advances once per occurrence; the new fields, the actions and the stat table after the lookups are exactly those Tick describes for the old fields, the stat values and the first ready skill; the chosen skill's activation is returned as a UseSkill action, not performed; the skills keep their configuration (Setup), only their timers change |
| EnemyControllers.EnemyController.Advance | Assets/Scripts/Enemy/EnemyController.cs:99-125 | the attack timer runs down while positive, every skill cools down, then the animation lock step is taken; the skills keep their configuration (Setup), only their timers change |
| EnemyControllers.EnemyController.AttackAnimationLock | Assets/Scripts/Enemy/EnemyController.cs:111-125 | a playing attack animation runs its timer and blocks the frame until the timer reaches the maximum, which releases the lock |
| EnemyControllers.EnemyController.Decide | Assets/Scripts/Enemy/EnemyController.cs:127-206 | the unlocked part of a frame does what Decided describes and leaves the table with its lookups applied |
| EnemyControllers.EnemyController.Behave | Assets/Scripts/Enemy/EnemyController.cs:167-206 | the animator code, then the behaviour of the selected state, as Behaved describes |
| EnemyControllers.EnemyController.ReadRanges | Assets/Scripts/Enemy/EnemyController.cs:127-165 | the four stat reads add at most those four stats at 0, return MovementSpeed's value, and select the state with timeToIdle replaced by its stat |
| EnemyControllers.EnemyController.SelectState | Assets/Scripts/Enemy/EnemyController.cs:133-165 | the fields change as Selected describes |
| EnemyControllers.EnemyController.ChaseBehavior | Assets/Scripts/Enemy/EnemyController.cs:222-258 | nothing without a target or when dead; the first chase with an animator switches to Awake; Awake runs its timer up to the maximum, then Chase; Chase moves by speed times the frame time |
| EnemyControllers.EnemyController.AttackBehavior | Assets/Scripts/Enemy/EnemyController.cs:275-303 | nothing while the attack timer runs, in Awake or in Die; with a ready skill and an animator the attack starts, and otherwise nothing changes; the skill's activation is returned as a UseSkill action, not performed |
| EnemyControllers.EnemyController.StartAttack | Assets/Scripts/Enemy/EnemyController.cs:286-297 | the attack sets the animation lock, resets its timer, emits UseSkill for the chosen skill (its activation is not performed), raises OnAttack and restarts the attack timer at the AttackCooldown value |
| EnemyControllers.EnemyController.IdleBehavior | Assets/Scripts/Enemy/EnemyController.cs:209-214 | aggravation and the awake timer are reset and nothing else changes |
| EnemyControllers.EnemyController.OnAwakeAnimationFinished | Assets/Scripts/Enemy/EnemyController.cs:264-269 | the enemy moves on to Chase with the awake timer at 0 |
| EnemyControllers.EnemyController.OnAttackAnimationFinished | Assets/Scripts/Enemy/EnemyController.cs:309-314 | the attack animation lock is released and its timer reset |
| EnemyControllers.EnemyController.ChooseSkill | Assets/Scripts/Enemy/EnemyController.cs:324-332 | the result is the first ready skill in list order, or null when none is ready |
| EnemyControllers.EnemyController.HandleCharacterDeath | Assets/Scripts/Enemy/EnemyController.cs:334-368 | the state becomes Die whatever it was, and the death actions are asked for |
| EnemyControllers.ReadRangeStats | Assets/Scripts/Enemy/EnemyController.cs:128-131 | the four reads return the values the table had before them and leave it with those four lookups applied |
| EnemyControllers.ReadStat | Assets/Scripts/Enemy/EnemyController.cs:128-131 | one `GetStat(name).GetValue()`: the value is the stat's value (0 when missing), the table gains at most that name at 0, and the scalar fields are kept |
| EnemyControllers.RangesReadIsLookedUp | Assets/Scripts/Enemy/EnemyController.cs:128-131 | looking up the four range stats and then more names is the same as the four reads followed by the rest |
| EnemyControllers.LockedFrameChangesNothing | Assets/Scripts/Enemy/EnemyController.cs:111-125 | while the attack animation plays below its maximum a frame only runs the two timers: no state change, no action, no stat read |
| EnemyControllers.LockReleasedAtMaximum | Assets/Scripts/Enemy/EnemyController.cs:112-119 | reaching the maximum releases the lock in the same frame; the animation then plays only if the frame started a new attack |
| EnemyControllers.DieIsFinal | Assets/Scripts/Enemy/EnemyController.cs:135-206 | no frame leaves Die, moves or uses a skill once dead |
| EnemyControllers.SelectionByDistance | Assets/Scripts/Enemy/EnemyController.cs:133-206 | over a whole frame: within attack range the enemy is in Attack; within detection range it chases, or first awakens when aggravation is due; beyond both, or without a target, it idles with aggravation reset |
| EnemyControllers.FirstChaseAwakens | Assets/Scripts/Enemy/EnemyController.cs:227-236 | the first chase with an animator plays the awake animation instead of moving |
| EnemyControllers.AwakeEndsAtMaximum | Assets/Scripts/Enemy/EnemyController.cs:238-252 | Awake lasts until its timer reaches the maximum, then Chase with the timer at 0; no move or skill use meanwhile |
| EnemyControllers.AwakeWithoutTargetIsStuck | Assets/Scripts/Enemy/EnemyController.cs:224-225 | an Awake enemy without a target stays Awake with its timer frozen |
| EnemyControllers.SkillUseIsGated | Assets/Scripts/Enemy/EnemyController.cs:275-303 | a skill is used only when the attack timer has run out, there is an animator and it is the first ready skill; the enemy is then in Attack, locked, with its attack timer at AttackCooldown and that stat looked up after the four others |
| EnemyControllers.ReadyAttackFires | Assets/Scripts/Enemy/EnemyController.cs:275-303 | conversely, an enemy in attack range with its timer run out, an animator and a ready skill uses it in that frame |
| EnemyControllers.NoAnimatorNoAttack | Assets/Scripts/Enemy/EnemyController.cs:228-283 | without an animator the enemy never uses a skill and never enters Awake by itself |
| EnemyControllers.MissingSpeedMeansNoMovement | Assets/Scripts/Enemy/EnemyController.cs:130 | a table without MovementSpeed (the default enemy asset lists none) makes every chase step 0 |
| EnemyControllers.FrameLookups | Assets/Scripts/Enemy/EnemyController.cs:111-297 | a frame looks up nothing while locked, otherwise the four range stats and, when it attacks, AttackCooldown after them |
| EnemyControllers.LookupsOnlyAddZeroStats | Assets/Scripts/Enemy/EnemyController.cs:128-131 | lookups keep every existing entry and only add looked-up names at 0 |
| EnemyControllers.LookedUpKeepsValues | Assets/Scripts/Enemy/EnemyController.cs:128-131 | no lookup changes a value a frame reads |
| EnemyControllers.LookupsKeepValue | Assets/Scripts/Enemy/EnemyController.cs:128-131 | the four reads leave every stat's value as it was |
| EnemyControllers.ReadySkillIsFirstReady | Assets/Scripts/Enemy/EnemyController.cs:324-332 | no skill is chosen iff none is ready; otherwise the chosen one is ready and none before it is |
| PlayerControllers.PlayerMovement.constructor | Assets/Scripts/Player/PlayerController.cs:34 | the movement component holds the speed the controller reads and writes |
| PlayerControllers.PlayerController.constructor | Assets/Scripts/Player/PlayerController.cs:8-36 | half a second of dodge at speed 10, half a second of recovery at half speed, neither dodging nor recovering; the projectile skill, the owner's stats and weapon are the ones given |
| PlayerControllers.PlayerController.Awake | Assets/Scripts/Player/PlayerController.cs:38-61 | every listed skill is ready, and the movement speed is stored as the original speed when there is a PlayerMovement; the skills keep their configuration (Setup), only their timers change |
| PlayerControllers.PlayerController.Update | Assets/Scripts/Player/PlayerController.cs:63-106 | each listed skill other than the projectile skill cools down once per occurrence (even while dodging); the dodge fields, the actions and the movement speed then become what PlayerTick gives for the old fields and the projectile skill's readiness after its cooldown; a fired projectile skill spawns the volley Shot describes and restarts its cooldown, and otherwise keeps the cooled-down timer; the skills keep their configuration (Setup), only their timers change |
| PlayerControllers.PlayerController.StartDodge | Assets/Scripts/Player/PlayerController.cs:108-132 | the dodge begins with a zero timer and plays DodgeRoll when there is an animator |
| PlayerControllers.PlayerController.UpdateDodge | Assets/Scripts/Player/PlayerController.cs:134-144 | the dodge timer runs and the player steps dodgeSpeed times the frame time; at dodgeDuration the dodge ends |
| PlayerControllers.PlayerController.EndDodge | Assets/Scripts/Player/PlayerController.cs:146-154 | the dodge stops and the recovery starts from zero |
| PlayerControllers.PlayerController.Recover | Assets/Scripts/Player/PlayerController.cs:85-103 | the recovery timer runs and the speed is penalised; at the recovery duration the recovery ends and the original speed is written back |
| PlayerControllers.PlayerController.HandleInput | Assets/Scripts/Player/PlayerController.cs:156-167 | a click with a projectile skill present calls ActivateSkill: when the skill is ready and has an asset and owner stats it spawns the volley Shot describes for the owner's stats and weapon and restarts the cooldown; otherwise nothing spawns and the timer is kept; the skills keep their configuration (Setup), only their timers change |
| PlayerControllers.PlayerController.TryActivateProjectileSkill | Assets/Scripts/Player/PlayerController.cs:169-184 | the ActivateProjectileSkill action is emitted iff the skill is ready, and the skill is then activated: its spawns and new timer are those of ProjectileSkill.ActivateSkill for the owner's stats and weapon |
| PlayerControllers.TimersStayBounded | Assets/Scripts/Player/PlayerController.cs:63-154 | the initial fields satisfy the timer bounds (a running timer in [0, limit), a stopped one 0) and every frame of non-negative length keeps them |
| PlayerControllers.DodgeStartsOnlyOutsideDodge | Assets/Scripts/Player/PlayerController.cs:71-75 | DodgeRoll plays iff there is an animator and the key went down outside a dodge; without the key no dodge begins |
| PlayerControllers.StartedDodgeRunsAtOnce | Assets/Scripts/Player/PlayerController.cs:71-82 | a dodge started this frame already moves and runs its timer this frame, and ends at once when the frame is at least dodgeDuration long |
| PlayerControllers.NoSkillWhileDodging | Assets/Scripts/Player/PlayerController.cs:77-82 | while dodging or starting to, no click is handled and the movement speed is not written |
| PlayerControllers.FireExactlyWhenReady | Assets/Scripts/Player/PlayerController.cs:156-184 | outside a dodge the projectile skill fires iff clicked, present and ready |
| PlayerControllers.DodgeEndsAtDuration | Assets/Scripts/Player/PlayerController.cs:134-154 | a dodge continues iff its timer stays below dodgeDuration; when it ends the recovery begins with a zero timer |
| PlayerControllers.RecoverySpeed | Assets/Scripts/Player/PlayerController.cs:85-103 | during the recovery the speed is the original times the penalty, and the frame it ends the original speed is written back |
| PlayerControllers.SpeedWrittenOnlyInRecovery | Assets/Scripts/Player/PlayerController.cs:85-103 | the speed is written only by a recovery outside a dodge, with a PlayerMovement, and only with one of those two speeds |
| UiContainers.RemovalCalls | Assets/Scripts/UI2/Container.cs:152-161 | removing an item unequips it iff the slot is an Equipment slot and holds an item; at most one call |
| UiContainers.EquipCalls | Assets/Scripts/UI2/Container.cs:134-149 | an Equipment slot equips what it receives, and no other slot makes a call |
| UiContainers.UnequipCalls | Assets/Scripts/UI2/Container.cs:163-205 | a swap in an Equipment slot unequips the held item, even when there is none; other slots make no call |
| UiContainers.Clamp | Assets/Scripts/UI2/Draggable.cs:76 | Mathf.Clamp: a value inside the bounds is kept, one below the minimum becomes the minimum, one above the maximum becomes the maximum, and the result lies within ordered bounds |
| UiContainers.Transfer | Assets/Scripts/UI2/Container.cs:96-119 | a merge moves at most the moving stack and at most the free room, exactly one of the two; the target never exceeds MaxStack, a non-empty stack always moves something, and the moving stack is used up iff it fits |
| UiContainers.LowerNamesDistinct | Assets/Scripts/UI2/Container.cs:227-240 | no two WeaponStat names are equal up to letter case |
| UiContainers.ParseWeaponStatSpec | Assets/Scripts/UI2/Container.cs:231 | a name parses to a member iff it equals that member's name up to letter case |
| UiContainers.ParseWeaponStat | Assets/Scripts/UI2/Container.cs:231 | a parsed stat's name equals the modifier's name up to ASCII letter case (ParseWeaponStatSpec gives the converse) |
| UiContainers.ParseNames | Assets/Scripts/UI2/Container.cs:231 | each member's own name, and its lower-case form, parses to it |
| UiContainers.ParseIgnoresCase | Assets/Scripts/UI2/Container.cs:231 | parsing ignores letter case |
| UiContainers.BuildWeaponStats | Assets/Scripts/UI2/Container.cs:227-240 | the loop builds exactly the parsed dictionary of the item's modifiers |
| UiContainers.ParsedStatsKeys | Assets/Scripts/UI2/Container.cs:227-240 | a stat is in the dictionary iff some modifier's name parses to it |
| UiContainers.ParsedStatsSource | Assets/Scripts/UI2/Container.cs:227-240 | every stat in the dictionary comes from a modifier whose name parses to it |
| UiContainers.ParsedStatsCovers | Assets/Scripts/UI2/Container.cs:227-240 | every modifier whose name parses puts its stat in the dictionary |
| UiContainers.ParsedStatsLastWins | Assets/Scripts/UI2/Container.cs:227-240 | a stat's value is that of the last modifier that names it |
| UiContainers.EquipThenUnequipWeapon | Assets/Scripts/UI2/Container.cs:212-280 | unequipping a weapon item after equipping it restores the weapon's Awake properties, whatever the modifiers |
| UiContainers.AcceptRules | Assets/Scripts/UI2/Container.cs:56-73 | no item is refused; Inventory, Stash and Loot accept every item; Equipment accepts exactly its own item type |
| UiContainers.Container.CanAcceptItem | Assets/Scripts/UI2/Container.cs:56-73 | no slot accepts a missing item; Inventory, Stash and Loot slots accept every item; an Equipment slot accepts exactly its accepted item type |
| UiContainers.Container.constructor | Assets/Scripts/UI2/Container.cs:17-32 | a slot starts empty with its configured type, accepted item type, stat table and weapon |
| UiContainers.Container.Awake | Assets/Scripts/UI2/Container.cs:34-54 | an assigned weapon is kept; an unassigned one is taken from the children |
| UiContainers.Container.SetCurrentItem | Assets/Scripts/UI2/Container.cs:324-328 | the slot holds exactly the given object and item |
| UiContainers.Container.GetCurrentItemTransform | Assets/Scripts/UI2/Container.cs:319-322 | returns the object the slot holds, the first half of Slot |
| UiContainers.Container.PutInside | Assets/Scripts/UI2/Container.cs:75-150 | success iff the drop merges, swaps or places; a refused drop or a full stack changes nothing; on success Dropped holds: a merge moves Transfer items and conserves the total, a swap exchanges the objects between the two slots with unequip-then-equip calls, placing fills the slot, empties the previous one and equips; a slot holding only acceptable items keeps doing so |
| UiContainers.Container.SwapItems | Assets/Scripts/UI2/Container.cs:163-205 | the slot takes the new object, the previous container the held one, both objects learn their container, and an Equipment slot unequips the old item before equipping the new |
| UiContainers.Container.EquipItem | Assets/Scripts/UI2/Container.cs:212-253 | with an item and a table: a weapon item sets the weapon type and overrides the weapon with the parsed modifiers, leaving the table; any other item adds its modifiers to the table; the change is notified once; with no item or table nothing changes |
| UiContainers.Container.UnequipItem | Assets/Scripts/UI2/Container.cs:259-280 | with an item and a table: a weapon item clears the weapon type and resets the weapon to its snapshot; any other item takes its modifiers off the table; the change is notified once; with no item or table nothing changes |
| UiContainers.Container.RemoveItem | Assets/Scripts/UI2/Container.cs:152-161 | the slot is emptied, after an unequip when it is an occupied Equipment slot |
| UiContainers.Draggable.constructor | Assets/Scripts/UI2/Draggable.cs:14-20 | a new object is a stack of one in no container |
| UiContainers.Draggable.InitializeItem | Assets/Scripts/UI2/Draggable.cs:73-86 | the object takes the item and its stack count clamped into 1..MaxStack |
| UiContainers.Draggable.Start | Assets/Scripts/UI2/Draggable.cs:25-40 | an item set in the editor is initialized; otherwise the stack is kept |
| UiContainers.Draggable.OnPointerDown | Assets/Scripts/UI2/Draggable.cs:104-117 | picking the object up empties its container, which unequips it when that is an Equipment slot |
| UiContainers.Draggable.ReturnToOriginalPosition | Assets/Scripts/UI2/Draggable.cs:252-260 | the object is back in its container, which holds it and its item again |
| UiContainers.Draggable.OnPointerUp | Assets/Scripts/UI2/Draggable.cs:119-189 | a missing or refusing container sends the object back; the same stackable item stacks onto the slot's object, a fully merged stack is destroyed and a partial one goes back; otherwise PutInside decides: a taken object belongs to the new container and the slots, stacks, equip calls and destroyed flag are as Dropped states, while a refused one goes back |
| UiContainers.Draggable.TryEquipItem | Assets/Scripts/UI2/Draggable.cs:51-71 | a bag item never moves; otherwise the first container that is not Inventory and takes the object (FirstTaker) becomes its container, with the slots, stacks, equip calls and destroyed flag as Dropped states for that container; when none takes it nothing changes |
| UiContainers.Draggable.Offer | Assets/Scripts/UI2/Draggable.cs:56-70 | one turn of the loop: the object is taken iff the container is not Inventory, accepts the item and PutInside succeeds; it then belongs to the container with the outcome Dropped states, and otherwise nothing changes |
| UiContainers.Draggable.FirstTaker | Assets/Scripts/UI2/Draggable.cs:54-70 | the index of the first container that takes the object, or the list length when none does: every container before it refuses and the one at it takes |
| UiContainers.Draggable.OnPointerClick | Assets/Scripts/UI2/Draggable.cs:42-49 | only a right click on a non-bag item offers it to the containers; the first that takes it becomes the object's container with the outcome Dropped states, as in TryEquipItem; when none takes it nothing changes and every slot keeps its contents |
| UiContainers.Draggable.StackItems | Assets/Scripts/UI2/Draggable.cs:233-250 | with room, Transfer items move onto the target and the stack is empty iff it fit; without room nothing moves |
| LegacyContainers.ItemObject.constructor | Assets/Scripts/Draggable.cs:11 | a new item object is in no container |
| LegacyContainers.Container.constructor | Assets/Scripts/Container.cs:6-8 | a new slot is empty |
| LegacyContainers.Container.RemoveItem | Assets/Scripts/Container.cs:45-48 | the slot is emptied |
| LegacyContainers.Container.GetCurrentItem | Assets/Scripts/Container.cs:50-53 | returns the object in the slot |
| LegacyContainers.Container.PutInside | Assets/Scripts/Container.cs:24-43 | an empty slot takes the object and the previous slot is emptied (so a drop back on its own slot leaves it empty); an occupied slot swaps |
| LegacyContainers.Container.SwapItems | Assets/Scripts/Container.cs:55-72 | the slot takes the new object, the previous slot the held one, and both objects learn their slot |
| LegacyContainers.SwapConserves | Assets/Scripts/Container.cs:55-72 | between two different slots a swap conserves the objects, one in each slot, each knowing its slot |

## Left out

- Rendering, physics, audio, animation clips, coroutines and `Debug.Log` are not modelled. Animator triggers become entries in an action list, and "has an animator" is a flag.
- Positions and vectors are not modelled. Distances to the target, frame times and move directions are inputs, and movement is recorded as a stride length in the action list. That covers camera-relative direction, rotation, `firePoint` and spawn positions.
- `Random.Range` and `Random.value` are not modelled. Each draw is a parameter: in [0, 1] for damage and critical rolls, and in [0, 100] for the pierce roll. A damage roll maps its draw linearly into the damage range.
- Component lookups done in `Awake`/`Start` (`GetComponent`, `GetComponentInChildren`, `FindObjectsOfType`) are not modelled. Their results are parameters, and a missing component is `null` or `None`. The container found under the pointer (`DetectContainer`) is a parameter of `UiContainers.Draggable.OnPointerUp`.
- Object destruction (`Destroy`) and instantiation of prefabs are not performed. They are reported as flags or actions. `ProjectileSkills.ProjectileSkill.ActivateSkill` returns the projectiles it would spawn, as values.
- Player input is not read. The dodge key and the mouse click are boolean parameters of `PlayerControllers.PlayerController.Update`.
- C# events (`OnDamageTaken`, `OnDeath`, `InventoryChanged`) are not modelled. They become lists of raised events or counters.
- `Stat.SetValue`, `IncreasedProjectileSpeed`, `IncreasedDuration`, `NotifyStatsChanged`, `AddExperience` and `EquipmentSlot` are used by the core but not declared in its files:
  - `SetValue` is read as overwriting the base value. So when Life carries modifiers, its value after a hit differs from the new life computed in `DamageReceiver.cs`.
  - The two projectile bonuses are plain fields of the stats table.
  - `NotifyStatsChanged` is a counter.
  - `AddExperience` is an emitted request.
  - `EquipmentSlot` is a type parameter of the inventory.
- `ProjectileSkill.cs` calls `Projectile.Initialize` with a sixth argument, the shooter, that `Projectile.cs` does not declare. The shooter is not modelled.
- `PlayerMovement` declares `moveSpeed`, but `PlayerController.cs` reads `movementSpeed` and `moveDir`. The model's `PlayerMovement` has the `movementSpeed` field the controller uses. The direction is not modelled.
- `EnemyController.cs` calls `GetStat` on `EnemyStats` and reads `enemyDefaults.ExperienceGiven`; neither is declared. The model reads the enemy's stats table directly and takes the experience amount as a parameter. "MovementSpeed" and "TimeToIdle" are not among the enemy defaults, so they are created at 0 by the lookup, and an enemy without such a stat does not move.
- `EnemyControllers.EnemyController.HandleCharacterDeath`: the destruction scheduled at the end of the death animation needs an animator. Without one the object is never destroyed, and the model keeps this.
- `MeleeAttackSkill.cs` tests `TargetType.All`, which the enum does not declare. It is read as `Both`, the value its comment describes.
- `DefaultAttackSkill.cs` sets the cooldown to 1 divided by the effective attack rate. A rate of 0 gives an unbounded cooldown, so the skill never fires again; float division by zero itself is not modelled.
- The serialized fields of `EnemyMeleeAttack` (damage and cooldown) are constants at their inspector defaults.
- `Container.cs` (UI2) calls a three-argument `AddModifier`/`RemoveModifier` that `Stat.cs` does not declare. It is read as the two-argument one.
- `UiContainers.Container.EquipItem` and `UiContainers.ParseWeaponStat`: `Enum.TryParse` with `ignoreCase` is not modelled in full. The model matches names up to ASCII letter case only; the numeric, comma-separated and whitespace-padded forms and non-ASCII case folding are not modelled.
- `UiContainers.Container.PutInside`, `UiContainers.Container.SwapItems`, `UiContainers.Container.RemoveItem`, `UiContainers.Draggable.OnPointerDown` and `UiContainers.Draggable.OnPointerUp` return the `EquipItem`/`UnequipItem` calls they make, in order, instead of performing them. A stats table or weapon may be shared between slots, and the combined heap effect is not stated. `EquipItem` and `UnequipItem` are modelled in full on their own.
- The `RectTransform` of a dragged item is modelled as its `Draggable`. Parents, sibling order, raycast blocking, highlight colours, tooltips and stack-count text are not modelled.
- `UiContainers.Draggable.TryEquipItem`: the contract states the outcome for the first container that takes the item. It does not state that the containers before it, which refuse the item, are left unchanged.
- `UiContainers.Draggable.ReturnToOriginalPosition` puts the object back in its slot without calling `EquipItem` again, as the source does. So an item picked up from an equipment slot and dropped back is unequipped.
- `UiContainers.Container.SwapItems` gives the held item to the previous container without asking whether that container accepts it, as the source does.
- `LegacyContainers.Container.PutInside` requires a previous container when the slot is occupied. The source dereferences it in that case.
- `EnemyControllers.EnemyController.Update`: the chosen skill's `ActivateSkill` is a virtual call (a melee sweep or a projectile volley). It is returned as a `UseSkill` action and not performed, so the skill's cooldown restart, damage and spawns are not part of the frame's new state.
- `EnemyControllers.EnemyController.AttackBehavior`: the same holds for the attack it starts. `UseSkill(k)` in the actions stands for the call, and the skill's own effects are not stated.
- `EnemyControllers.EnemyController.StartAttack`: it emits `UseSkill` for the chosen skill instead of calling its `ActivateSkill`, for the same reason.
- `DamageReceivers.DamageReceiver.TakeDamage` requires a stats table when the player is not dodging. Without one the source throws a NullReferenceException at `DamageReceiver.cs` line 57, and that exception is not modelled.
- `EnemyStatsModel.EnemyStats.TakeDamage` requires a stats table. Without one the source throws a NullReferenceException at `Stats/EnemyStats.cs` line 53, and that exception is not modelled.
- `LegacyEnemyStats.EnemyStats.TakeDamage` requires a stats table. Before `Start` has run, `Stats` is null and the source throws at `EnemyStats.cs` line 16; that exception is not modelled.
- `Inventories.Inventory.constructor` takes a non-null stats table. `Inventory.cs` only logs an error when the component is missing, and the NullReferenceException a later equip would then throw is not modelled.
- `UiContainers.Draggable.OnPointerClick` requires an item on a right-click. A right-click on an object with no item makes the source throw a NullReferenceException at `UI2/Draggable.cs` line 45, and that exception is not modelled.
- `UiContainers.Container.PutInside`, `UiContainers.Draggable.OnPointerUp`, `UiContainers.Draggable.TryEquipItem` and `UiContainers.Draggable.OnPointerClick` require, through `PutReady`, that a slot receiving a stackable item holds an object with an item. A slot object without one makes the source throw at `UI2/Container.cs` line 98, and that exception is not modelled.
- Integer stack counts and damage are unbounded integers. No 32-bit overflow is modelled, and floats are reals, so rounding is not modelled.
- Files outside the core (level spawning, damage pop-ups, menus, the commented-out `WeaponFirer`) are not part of this model.
