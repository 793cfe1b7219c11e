/** Inventory and equipment slots of the newer UI (Assets/Scripts/UI2/Container.cs
    and Assets/Scripts/UI2/Draggable.cs). A Container is a slot that holds at
    most one dragged item; a Draggable is the on-screen item, with its own
    stack count. Dropping an item on a slot merges stacks, swaps, or places it,
    and an Equipment slot equips what it receives.

    The slot operations do not perform their EquipItem and UnequipItem calls
    here: they return them, in order, as EquipCall values, and EquipItem and
    UnequipItem are modelled on their own. Several slots usually share one
    stat table and one weapon, so the combined effect is the calls' effects
    applied in that order. */
module UiContainers {
  import opened Wrappers
  import opened StatSystem
  import opened CharacterStatsModel
  import opened Items
  import Weapons

  datatype ContainerType = Inventory | Equipment | Stash | Loot

  /** A call to EquipItem or UnequipItem on a container. */
  datatype EquipCall = EquipOn(target: Container, item: Item?) | UnequipOn(target: Container, item: Item?)

  /** The calls RemoveItem makes: an unequip, for an occupied Equipment slot. */
  function RemovalCalls(c: Container, item: Item?): (r: seq<EquipCall>)
    ensures |r| <= 1
    ensures r != [] <==> item != null && c.containerType == Equipment
    ensures r != [] ==> r[0] == UnequipOn(c, item)
  {
    if item != null && c.containerType == Equipment then [UnequipOn(c, item)] else []
  }

  /** The equip call an Equipment slot makes when it receives an item. */
  function EquipCalls(c: Container, item: Item?): (r: seq<EquipCall>)
    ensures r != [] <==> c.containerType == Equipment
    ensures r != [] ==> r == [EquipOn(c, item)]
  {
    if c.containerType == Equipment then [EquipOn(c, item)] else []
  }

  /** The unequip call of a swap in an Equipment slot (made even for no item). */
  function UnequipCalls(c: Container, item: Item?): (r: seq<EquipCall>)
    ensures r != [] <==> c.containerType == Equipment
    ensures r != [] ==> r == [UnequipOn(c, item)]
  {
    if c.containerType == Equipment then [UnequipOn(c, item)] else []
  }

  // ---------------------------------------------------------------------
  // Stack arithmetic

  /** Mathf.Min on ints. */
  function Min(a: int, b: int): int
  {
    if a < b then a else b
  }

  /** Mathf.Clamp on ints, as Unity defines it: below `min` gives `min`,
      otherwise above `max` gives `max`; with max < min a value of at least
      `min` gives `max`. */
  function Clamp(value: int, min: int, max: int): (r: int)
    ensures min <= max ==> min <= r <= max
    ensures min <= value <= max ==> r == value
    ensures value < min ==> r == min
    ensures value >= min && value > max ==> r == max
  {
    if value < min then min else if value > max then max else value
  }

  /** How much of a moving stack of `moving` joins a stack of `present` out
      of `maxStack`, when there is room. */
  function Transfer(moving: int, present: int, maxStack: int): (t: int)
    requires present < maxStack
    ensures t <= moving && t <= maxStack - present
    ensures t == moving || t == maxStack - present
    ensures present + t <= maxStack
    ensures moving > 0 ==> t > 0
    ensures moving - t <= 0 <==> moving <= maxStack - present
  {
    Min(moving, maxStack - present)
  }

  /** Two items merge into one stack: both stackable, with the same ID. */
  predicate Stacks(incoming: Item, present: Item?)
  {
    incoming.isStackable && present != null && present.isStackable && incoming.id == present.id
  }

  // ---------------------------------------------------------------------
  // Weapon stat names matched up to ASCII letter case (the part of
  // Enum.TryParse with ignoreCase that EquipItem relies on)

  function LowerChar(c: char): char
  {
    if 'A' <= c <= 'Z' then (c as int + 32) as char else c
  }

  /** ASCII lower case, letter by letter. */
  function Lower(s: string): string
  {
    seq(|s|, i requires 0 <= i < |s| => LowerChar(s[i]))
  }

  /** The enum member names. */
  function StatName(s: Weapons.WeaponStat): string
  {
    match s
    case BaseAttackSpeed => "BaseAttackSpeed"
    case BaseCriticalChance => "BaseCriticalChance"
    case CritMultiplier => "CritMultiplier"
    case ProjectileAmount => "ProjectileAmount"
    case ProjectileSpeed => "ProjectileSpeed"
    case MinPhysicalDamage => "MinPhysicalDamage"
    case MaxPhysicalDamage => "MaxPhysicalDamage"
    case MinFireDamage => "MinFireDamage"
    case MaxFireDamage => "MaxFireDamage"
    case MinColdDamage => "MinColdDamage"
    case MaxColdDamage => "MaxColdDamage"
    case MinLightningDamage => "MinLightningDamage"
    case MaxLightningDamage => "MaxLightningDamage"
    case MinChaosDamage => "MinChaosDamage"
    case MaxChaosDamage => "MaxChaosDamage"
    case AreaOfEffect => "AreaOfEffect"
  }

  /** The only member a lower-case name can be: the sixteen lower-case names
      differ in length or in their first, third or fourth letter. */
  function NameClass(l: string): Option<Weapons.WeaponStat>
  {
    if |l| < 4 then None
    else if |l| == 12 then Some(Weapons.AreaOfEffect)
    else if |l| == 16 then Some(Weapons.ProjectileAmount)
    else if |l| == 15 then Some(if l[0] == 'b' then Weapons.BaseAttackSpeed else Weapons.ProjectileSpeed)
    else if |l| == 18 then
      Some(if l[2] == 's' then Weapons.BaseCriticalChance
           else if l[2] == 'n' then Weapons.MinLightningDamage else Weapons.MaxLightningDamage)
    else if |l| == 14 then
      Some(if l[2] == 'i' then Weapons.CritMultiplier
           else if l[2] == 'n' then Weapons.MinChaosDamage else Weapons.MaxChaosDamage)
    else if |l| == 17 then Some(if l[2] == 'n' then Weapons.MinPhysicalDamage else Weapons.MaxPhysicalDamage)
    else if |l| == 13 then
      Some(if l[2] == 'n' then (if l[3] == 'f' then Weapons.MinFireDamage else Weapons.MinColdDamage)
           else (if l[3] == 'f' then Weapons.MaxFireDamage else Weapons.MaxColdDamage))
    else None
  }

  lemma LowerNameClassified(s: Weapons.WeaponStat)
    ensures NameClass(Lower(StatName(s))) == Some(s)
  {
    var l := Lower(StatName(s));
    assert |l| == |StatName(s)|;
    assert |l| >= 4 ==> l[0] == LowerChar(StatName(s)[0]) && l[2] == LowerChar(StatName(s)[2]) && l[3] == LowerChar(StatName(s)[3]);
  }

  /** No two members' names are equal up to letter case. */
  lemma LowerNamesDistinct(a: Weapons.WeaponStat, b: Weapons.WeaponStat)
    ensures Lower(StatName(a)) == Lower(StatName(b)) ==> a == b
  {
    LowerNameClassified(a);
    LowerNameClassified(b);
  }

  /** The weapon stat a modifier name selects in EquipItem: the member
      whose name equals `name` up to ASCII letter case, found as the one
      candidate NameClass gives, checked in full. This models only the
      name-matching part of a case-insensitive `Enum.TryParse`. */
  function ParseWeaponStat(name: string): (r: Option<Weapons.WeaponStat>)
    ensures r.Some? ==> Lower(StatName(r.value)) == Lower(name)
  {
    var lowered := Lower(name);
    var candidate := NameClass(lowered);
    if candidate.Some? && Lower(StatName(candidate.value)) == lowered then candidate else None
  }

  /** A name parses to a member exactly when it is that member's name up to
      letter case. */
  lemma ParseWeaponStatSpec(name: string, s: Weapons.WeaponStat)
    ensures ParseWeaponStat(name) == Some(s) <==> Lower(name) == Lower(StatName(s))
  {
    LowerNameClassified(s);
  }

  /** Each member's own name parses to it, in any letter case. */
  lemma ParseNames(s: Weapons.WeaponStat)
    ensures ParseWeaponStat(StatName(s)) == Some(s)
    ensures ParseWeaponStat(Lower(StatName(s))) == Some(s)
  {
    ParseWeaponStatSpec(StatName(s), s);
    LowerIdempotent(StatName(s));
    ParseWeaponStatSpec(Lower(StatName(s)), s);
  }

  lemma LowerIdempotent(x: string)
    ensures Lower(Lower(x)) == Lower(x)
  {
  }

  /** Parsing ignores letter case. */
  lemma ParseIgnoresCase(name: string)
    ensures ParseWeaponStat(Lower(name)) == ParseWeaponStat(name)
  {
    LowerIdempotent(name);
  }

  /** The dictionary EquipItem builds from a weapon's modifiers: names that
      parse set their stat to the modifier's value, later ones overwriting
      earlier ones; the others are skipped. */
  function ParsedStats(mods: seq<StatModifier>): map<Weapons.WeaponStat, real>
  {
    if mods == [] then map[]
    else
      var m := mods[|mods| - 1];
      var before := ParsedStats(mods[..|mods| - 1]);
      match ParseWeaponStat(m.statName)
      case None => before
      case Some(s) => before[s := m.value]
  }

  /** The dictionary-building loop of EquipItem. */
  method BuildWeaponStats(mods: seq<StatModifier>) returns (weaponStats: map<Weapons.WeaponStat, real>)
    ensures weaponStats == ParsedStats(mods)
  {
    weaponStats := map[];
    for i := 0 to |mods|
      invariant weaponStats == ParsedStats(mods[..i])
    {
      assert mods[..i + 1][..i] == mods[..i];
      var stat := ParseWeaponStat(mods[i].statName);
      if stat.Some? {
        weaponStats := weaponStats[stat.value := mods[i].value];
      }
    }
    assert mods[..|mods|] == mods;
  }

  /** A stat is in the dictionary exactly when some modifier's name parses
      to it. */
  lemma {:induction false} ParsedStatsKeys(mods: seq<StatModifier>, s: Weapons.WeaponStat)
    ensures s in ParsedStats(mods) <==> exists i | 0 <= i < |mods| :: ParseWeaponStat(mods[i].statName) == Some(s)
  {
    if s in ParsedStats(mods) {
      var i := ParsedStatsSource(mods, s);
    }
    if exists i | 0 <= i < |mods| :: ParseWeaponStat(mods[i].statName) == Some(s) {
      var i :| 0 <= i < |mods| && ParseWeaponStat(mods[i].statName) == Some(s);
      ParsedStatsCovers(mods, s, i);
    }
  }

  /** Every stat in the dictionary comes from some modifier. */
  lemma {:induction false} ParsedStatsSource(mods: seq<StatModifier>, s: Weapons.WeaponStat) returns (i: int)
    requires s in ParsedStats(mods)
    ensures 0 <= i < |mods| && ParseWeaponStat(mods[i].statName) == Some(s)
  {
    var init, last := mods[..|mods| - 1], mods[|mods| - 1];
    if ParseWeaponStat(last.statName) == Some(s) {
      i := |mods| - 1;
    } else {
      i := ParsedStatsSource(init, s);
      assert mods[i] == init[i];
    }
  }

  /** Every modifier whose name parses puts its stat in the dictionary. */
  lemma {:induction false} ParsedStatsCovers(mods: seq<StatModifier>, s: Weapons.WeaponStat, i: int)
    requires 0 <= i < |mods| && ParseWeaponStat(mods[i].statName) == Some(s)
    ensures s in ParsedStats(mods)
  {
    var init := mods[..|mods| - 1];
    if i < |init| {
      assert init[i] == mods[i];
      ParsedStatsCovers(init, s, i);
    }
  }

  /** The value of a stat in the dictionary is that of the last modifier
      whose name parses to it. */
  lemma {:induction false} ParsedStatsLastWins(mods: seq<StatModifier>, s: Weapons.WeaponStat, i: int)
    requires 0 <= i < |mods| && ParseWeaponStat(mods[i].statName) == Some(s)
    requires forall j | i < j < |mods| :: ParseWeaponStat(mods[j].statName) != Some(s)
    ensures s in ParsedStats(mods) && ParsedStats(mods)[s] == mods[i].value
  {
    var init := mods[..|mods| - 1];
    if i < |init| {
      assert init[i] == mods[i];
      ParsedStatsLastWins(init, s, i);
    }
  }

  /** Unequipping a weapon undoes equipping it: whatever the modifiers, the
      weapon returns to the properties its Awake snapshot was taken of (the
      crit multiplier, which neither touches, being the same). */
  lemma EquipThenUnequipWeapon(f: Weapons.WeaponFields, mods: seq<StatModifier>, snap: Weapons.WeaponFields)
    requires f.critMultiplier == snap.critMultiplier
    ensures Weapons.Overridden(Weapons.Overridden(f, ParsedStats(mods)), Weapons.Snapshot(snap)) == snap
  {
    Weapons.ResetRestoresSnapshot(Weapons.Overridden(f, ParsedStats(mods)), snap);
  }

  /** Where PutInside goes. */
  datatype PutPath = Invalid | Rejected | Merge(amount: int) | NoRoom | Swap | Place
  {
    predicate Succeeds()
    {
      Merge? || Swap? || Place?
    }
  }

  /** A table whose map and Stat objects did not change has the same view,
      whatever happened to its counters. */
  twostate lemma NotifyKeepsView(cs: CharacterStats)
    requires cs.stats == old(cs.stats) && forall s | s in old(cs.stats.Values) :: unchanged(s)
    ensures cs.View() == old(cs.View())
  {
    forall k | k in cs.stats
      ensures cs.stats[k].State() == old(cs.stats[k].State())
    {
      assert cs.stats[k] in old(cs.stats.Values);
    }
  }

  /** CanAcceptItem's switch: no item is refused; Inventory, Stash and Loot
      take anything; Equipment takes exactly its own item type. */
  lemma AcceptRules(c: Container, item: Item?)
    ensures item == null ==> !c.CanAcceptItem(item)
    ensures item != null && c.containerType in {Inventory, Stash, Loot} ==> c.CanAcceptItem(item)
    ensures item != null && c.containerType == Equipment ==> (c.CanAcceptItem(item) <==> item.itemType == c.acceptedItemType)
  {
  }

  /** A container whose weapon reference did not change. */
  twostate predicate Kept(c: Container?)
    reads c
  {
    c != null ==> c.equippedWeapon == old(c.equippedWeapon)
  }

  /** A draggable whose item did not change. */
  twostate predicate Holds(d: Draggable?)
    reads d
  {
    d != null ==> d.itemData == old(d.itemData)
  }

  /** The part of the state before a drop that its outcome is stated
      against: the path PutInside takes, the two slots, the two stacks and
      the held object's container. */
  datatype DropBefore = DropBefore(path: PutPath, slot: (Draggable?, Item?), prevSlot: (Draggable?, Item?),
                                   rectStack: int, heldStack: int, heldContainer: Container?)

  /** What a drop that PutInside takes leaves behind, apart from the
      dropped object's own container: a merge moves `amount` items between
      the two stacks and makes no call; a swap exchanges the objects between
      the slot and the previous container, with an unequip then an equip
      call; a placement fills the slot, empties the previous container and
      equips. */
  predicate Dropped(c: Container, rect: Draggable, prev: Container?, b: DropBefore, destroyed: bool, calls: seq<EquipCall>)
    reads c, rect, prev, b.slot.0, if b.slot.0 == null then {} else {b.slot.0.itemData}
  {
    && (b.path.Merge? ==>
          var t, current := b.path.amount, b.slot.0;
          && current != null && current.itemData != null
          && calls == [] && c.Slot() == b.slot
          && (prev != null ==> prev.Slot() == b.prevSlot)
          && (current != rect ==>
                && current.currentContainer == b.heldContainer
                && current.currentStack == b.heldStack + t && rect.currentStack == b.rectStack - t
                && current.currentStack + rect.currentStack == b.heldStack + b.rectStack
                && current.currentStack <= current.itemData.maxStack)
          && (current == rect ==> rect.currentStack == b.rectStack)
          && (destroyed <==> rect.currentStack <= 0))
    && (b.path.Swap? ==>
          var (held, heldItem) := b.slot;
          && !destroyed && calls == UnequipCalls(c, heldItem) + EquipCalls(c, rect.itemData)
          && c.Slot() == (if prev == c then b.slot else (rect, rect.itemData))
          && (prev != null && prev != c ==> prev.Slot() == b.slot)
          && rect.currentStack == b.rectStack
          && held != null && held.currentStack == b.heldStack
          && (held != rect ==> held.currentContainer == if prev != null then prev else b.heldContainer))
    && (b.path.Place? ==>
          && !destroyed && rect.currentStack == b.rectStack
          && (prev == c ==>
                c.Slot() == (null, null) && calls == EquipCalls(c, rect.itemData) + RemovalCalls(c, rect.itemData))
          && (prev != c ==>
                c.Slot() == (rect, rect.itemData)
                && calls == EquipCalls(c, rect.itemData) + (if prev == null then [] else RemovalCalls(prev, b.prevSlot.1)))
          && (prev != null && prev != c ==> prev.Slot() == (null, null)))
  }

  class Container {
    const containerType: ContainerType
    const acceptedItemType: ItemType
    const characterStats: CharacterStats?
    var equippedWeapon: Weapons.Weapon?
    // `_currentItemTransform`: the item object in the slot, seen through its
    // Draggable component; null for an empty slot.
    var currentItemTransform: Draggable?
    var currentItem: Item?

    /** A slot as configured in the editor, empty. The field initializers
        make an Inventory slot for bag items. */
    constructor (containerType: ContainerType, acceptedItemType: ItemType,
                 characterStats: CharacterStats?, equippedWeapon: Weapons.Weapon?)
      ensures this.containerType == containerType && this.acceptedItemType == acceptedItemType
      ensures this.characterStats == characterStats && this.equippedWeapon == equippedWeapon
      ensures currentItemTransform == null && currentItem == null
    {
      this.containerType := containerType;
      this.acceptedItemType := acceptedItemType;
      this.characterStats := characterStats;
      this.equippedWeapon := equippedWeapon;
      currentItemTransform := null;
      currentItem := null;
    }

    /** Awake: a slot with no weapon assigned takes the one found among its
        children, if any. */
    method Awake(weaponInChildren: Weapons.Weapon?)
      modifies this`equippedWeapon
      ensures old(equippedWeapon) != null ==> equippedWeapon == old(equippedWeapon)
      ensures old(equippedWeapon) == null ==> equippedWeapon == weaponInChildren
    {
      if equippedWeapon == null {
        equippedWeapon := weaponInChildren;
      }
    }

    predicate CanAcceptItem(item: Item?)
      ensures item == null ==> !CanAcceptItem(item)
      ensures item != null && containerType != Equipment ==> CanAcceptItem(item)
      ensures item != null && containerType == Equipment ==> (CanAcceptItem(item) <==> item.itemType == acceptedItemType)
    {
      item != null && (containerType == Equipment ==> item.itemType == acceptedItemType)
    }

    /** The branch PutInside takes for `rect`: no item, an item this slot
        refuses, an empty slot, a stack merge of `amount` items, a full
        stack, or a swap. */
    function PathFor(rect: Draggable?): PutPath
      reads this, rect, currentItemTransform
    {
      if rect == null || rect.itemData == null then Invalid
      else if !CanAcceptItem(rect.itemData) then Rejected
      else if currentItemTransform == null then Place
      else if Stacks(rect.itemData, currentItemTransform.itemData) then
        var present := currentItemTransform.currentStack;
        var maxStack := currentItemTransform.itemData.maxStack;
        if present < maxStack then Merge(Transfer(rect.currentStack, present, maxStack)) else NoRoom
      else Swap
    }

    /** PutInside reads the held item's stackability when the incoming item
        is stackable; a held object without an item would throw there. */
    predicate PutReady(rect: Draggable?)
      reads this, rect, currentItemTransform
    {
      rect != null && rect.itemData != null && CanAcceptItem(rect.itemData) && rect.itemData.isStackable
        && currentItemTransform != null ==>
        currentItemTransform.itemData != null
    }

    /** The slot holds no item, or one it accepts. */
    predicate SlotFits()
      reads this
    {
      currentItem != null ==> CanAcceptItem(currentItem)
    }

    /** The state a drop of `rect` coming from `prev` is stated against. */
    function Before(rect: Draggable, prev: Container?): DropBefore
      reads this, rect, currentItemTransform, prev
    {
      DropBefore(PathFor(rect), Slot(), if prev == null then (null, null) else prev.Slot(), rect.currentStack,
                 if currentItemTransform == null then 0 else currentItemTransform.currentStack,
                 if currentItemTransform == null then null else currentItemTransform.currentContainer)
    }

    /** The slot, as a value. */
    function Slot(): (Draggable?, Item?)
      reads this
    {
      (currentItemTransform, currentItem)
    }

    function GetCurrentItemTransform(): (r: Draggable?)
      reads this
      ensures r == Slot().0
    {
      currentItemTransform
    }

    method SetCurrentItem(itemTransform: Draggable?, itemData: Item?)
      modifies this`currentItemTransform, this`currentItem
      ensures Slot() == (itemTransform, itemData)
    {
      currentItemTransform := itemTransform;
      currentItem := itemData;
    }

    /** Drops `rect` on this slot, coming from `previousContainer`. Returns
        whether the drop was taken, whether the dropped object is destroyed
        (its whole stack merged), and the equip calls made. */
    method PutInside(rect: Draggable?, previousContainer: Container?) returns (success: bool, destroyed: bool, calls: seq<EquipCall>)
      requires PutReady(rect)
      modifies this`currentItemTransform, this`currentItem, previousContainer, rect, currentItemTransform
      ensures Kept(previousContainer) && Holds(rect) && Holds(old(currentItemTransform))
      ensures success <==> old(PathFor(rect)).Succeeds()
      ensures old(SlotFits()) ==> SlotFits()
      // a refused drop, or one onto a full stack, changes nothing
      ensures !success ==>
                !destroyed && calls == [] && unchanged(this)
                && (previousContainer != null ==> unchanged(previousContainer))
                && (rect != null ==> unchanged(rect))
                && (old(currentItemTransform) != null ==> unchanged(old(currentItemTransform)))
      // a drop that is taken: a merge, a swap or a placement, as Dropped says
      ensures success ==> Dropped(this, rect, previousContainer, old(Before(rect, previousContainer)), destroyed, calls)
      ensures old(PathFor(rect)).Merge? || old(PathFor(rect)).Place? ==> rect.currentContainer == old(rect.currentContainer)
      ensures old(PathFor(rect)).Swap? ==> rect.currentContainer == this
    {
      success, destroyed, calls := false, false, [];
      if rect == null || rect.itemData == null {
        // not an item: refused
      } else if !CanAcceptItem(rect.itemData) {
        // refused
      } else if currentItemTransform != null {
        var current := currentItemTransform;
        if rect.itemData.isStackable && current.itemData.isStackable && rect.itemData.id == current.itemData.id {
          var availableSpace := current.itemData.maxStack - current.currentStack;
          if availableSpace > 0 {
            var transferAmount := Min(rect.currentStack, availableSpace);
            current.currentStack := current.currentStack + transferAmount;
            rect.currentStack := rect.currentStack - transferAmount;
            destroyed := rect.currentStack <= 0;
            success := true;
          }
        } else {
          calls := SwapItems(rect, previousContainer);
          success := true;
        }
      } else {
        currentItemTransform := rect;
        currentItem := rect.itemData;
        calls := EquipCalls(this, currentItem);
        if previousContainer != null {
          var removal := previousContainer.RemoveItem();
          calls := calls + removal;
        }
        success := true;
      }
    }

    /** Puts `newItem` in this occupied slot and the held object in
        `previousContainer`; an Equipment slot unequips the held item (even
        none) and equips the new one. Both objects learn their container. */
    method SwapItems(newItem: Draggable, previousContainer: Container?) returns (calls: seq<EquipCall>)
      requires previousContainer != null ==> currentItemTransform != null
      modifies this`currentItemTransform, this`currentItem, previousContainer
      modifies newItem`currentContainer, currentItemTransform
      ensures Kept(previousContainer) && Holds(old(currentItemTransform))
      ensures old(currentItemTransform) != null ==> old(currentItemTransform).currentStack == old(currentItemTransform.currentStack)
      ensures var (held, heldItem) := old(Slot());
              calls == UnequipCalls(this, heldItem) + EquipCalls(this, newItem.itemData)
              && Slot() == (if previousContainer == this then (held, heldItem) else (newItem, newItem.itemData))
              && (previousContainer != null && previousContainer != this ==> previousContainer.Slot() == (held, heldItem))
              && newItem.currentContainer == this
              && (held != null && held != newItem ==>
                    held.currentContainer == if previousContainer != null then previousContainer else old(held.currentContainer))
    {
      var oldItemTransform := currentItemTransform;
      var oldItemData := currentItem;
      calls := UnequipCalls(this, oldItemData);
      currentItemTransform := newItem;
      currentItem := newItem.itemData;
      calls := calls + EquipCalls(this, currentItem);
      if previousContainer != null {
        previousContainer.currentItemTransform := oldItemTransform;
        previousContainer.currentItem := oldItemData;
        oldItemTransform.currentContainer := previousContainer;
      }
      newItem.currentContainer := this;
    }

    /** Equips `item` on the slot's stat table and weapon. A weapon item
        overrides the weapon's stats with the parsed modifiers (if there is a
        weapon); any other item adds its modifiers to the table. Either way
        the table is told its stats changed. No item, or no table, does
        nothing. */
    method EquipItem(item: Item?)
      requires characterStats != null ==> characterStats.Valid()
      modifies characterStats, if characterStats != null then characterStats.stats.Values else {}, equippedWeapon
      ensures characterStats != null ==> characterStats.Valid()
      ensures item == null || characterStats == null ==>
                (characterStats != null ==> characterStats.View() == old(characterStats.View()) && characterStats.Scalars() == old(characterStats.Scalars()))
                && (equippedWeapon != null ==> equippedWeapon.properties == old(equippedWeapon.properties) && equippedWeapon.weaponType == old(equippedWeapon.weaponType))
      ensures item != null && characterStats != null ==>
                characterStats.Scalars() == old(characterStats.Scalars()).(statsChangedNotifications := old(characterStats.statsChangedNotifications) + 1)
                && (item.itemType == Weapon ==>
                      characterStats.View() == old(characterStats.View())
                      && (equippedWeapon != null ==>
                            equippedWeapon.weaponType == item.weaponType
                            && equippedWeapon.properties == Weapons.Overridden(old(equippedWeapon.properties), ParsedStats(item.statModifiers))))
                && (item.itemType != Weapon ==>
                      characterStats.View() == ApplyAll(old(characterStats.View()), item.statModifiers)
                      && (equippedWeapon != null ==> equippedWeapon.properties == old(equippedWeapon.properties) && equippedWeapon.weaponType == old(equippedWeapon.weaponType)))
      ensures equippedWeapon != null ==> equippedWeapon.baseWeaponStats == old(equippedWeapon.baseWeaponStats)
    {
      if item != null && characterStats != null {
        var cs := characterStats;
        label Start:
        if item.itemType == Weapon {
          var weapon := equippedWeapon;
          if weapon != null {
            weapon.weaponType := item.weaponType;
            var weaponStats := BuildWeaponStats(item.statModifiers);
            weapon.SetWeaponStats(weaponStats);
          }
          ViewKept@Start(cs);
        } else {
          item.ApplyTo(cs);
        }
        label Applied:
        cs.NotifyStatsChanged();
        NotifyKeepsView@Applied(cs);
      }
    }

    /** Unequips `item`: a weapon item resets the weapon to its snapshot (if
        there is a weapon); any other item takes its modifiers off the table.
        Either way the table is told its stats changed. No item, or no table,
        does nothing. */
    method UnequipItem(item: Item?)
      requires characterStats != null ==> characterStats.Valid()
      modifies characterStats, if characterStats != null then characterStats.stats.Values else {}, equippedWeapon
      ensures characterStats != null ==> characterStats.Valid()
      ensures item == null || characterStats == null ==>
                (characterStats != null ==> characterStats.View() == old(characterStats.View()) && characterStats.Scalars() == old(characterStats.Scalars()))
                && (equippedWeapon != null ==> equippedWeapon.properties == old(equippedWeapon.properties) && equippedWeapon.weaponType == old(equippedWeapon.weaponType))
      ensures item != null && characterStats != null ==>
                characterStats.Scalars() == old(characterStats.Scalars()).(statsChangedNotifications := old(characterStats.statsChangedNotifications) + 1)
                && (item.itemType == Weapon ==>
                      characterStats.View() == old(characterStats.View())
                      && (equippedWeapon != null ==>
                            equippedWeapon.weaponType == Weapons.None
                            && equippedWeapon.properties == Weapons.Overridden(old(equippedWeapon.properties), equippedWeapon.baseWeaponStats)))
                && (item.itemType != Weapon ==>
                      characterStats.View() == RemoveAll(old(characterStats.View()), item.statModifiers)
                      && (equippedWeapon != null ==> equippedWeapon.properties == old(equippedWeapon.properties) && equippedWeapon.weaponType == old(equippedWeapon.weaponType)))
      ensures equippedWeapon != null ==> equippedWeapon.baseWeaponStats == old(equippedWeapon.baseWeaponStats)
    {
      if item != null && characterStats != null {
        var cs := characterStats;
        label Start:
        if item.itemType == Weapon {
          var weapon := equippedWeapon;
          if weapon != null {
            weapon.ResetWeaponStats();
          }
          ViewKept@Start(cs);
        } else {
          item.RemoveFrom(cs);
        }
        label Removed:
        cs.NotifyStatsChanged();
        NotifyKeepsView@Removed(cs);
      }
    }

    /** Empties the slot; an occupied Equipment slot unequips its item first. */
    method RemoveItem() returns (calls: seq<EquipCall>)
      modifies this`currentItemTransform, this`currentItem
      ensures Slot() == (null, null)
      ensures calls == RemovalCalls(this, old(currentItem))
    {
      calls := [];
      if currentItem != null && containerType == Equipment {
        calls := [UnequipOn(this, currentItem)];
      }
      currentItemTransform := null;
      currentItem := null;
    }
  }

  class Draggable {
    var itemData: Item?
    var currentStack: int
    var currentContainer: Container?

    /** A fresh item object: a stack of one, in no container. */
    constructor (itemData: Item?)
      ensures this.itemData == itemData && currentStack == 1 && currentContainer == null
    {
      this.itemData := itemData;
      currentStack := 1;
      currentContainer := null;
    }

    /** Takes the item and clamps its stack count into 1..MaxStack. */
    method InitializeItem(item: Item)
      modifies this`itemData, this`currentStack
      ensures itemData == item
      ensures currentStack == Clamp(item.currentStack, 1, item.maxStack)
      ensures item.maxStack >= 1 ==> 1 <= currentStack <= item.maxStack
    {
      itemData := item;
      currentStack := Clamp(item.currentStack, 1, item.maxStack);
    }

    /** Start: an item set in the editor is initialized. */
    method Start()
      modifies this`itemData, this`currentStack
      ensures itemData == old(itemData)
      ensures itemData != null ==> currentStack == Clamp(itemData.currentStack, 1, itemData.maxStack)
      ensures itemData == null ==> currentStack == old(currentStack)
    {
      if itemData != null {
        InitializeItem(itemData);
      }
    }

    /** This object is back in the container it came from, if any, which
        holds it and its item again. */
    twostate predicate Returned()
      reads this, currentContainer
    {
      currentContainer == old(currentContainer)
      && (currentContainer != null ==> currentContainer.Slot() == (this, itemData))
    }

    /** Picking the object up takes it out of its container, which unequips
        it when that is an Equipment slot. */
    method OnPointerDown() returns (calls: seq<EquipCall>)
      modifies currentContainer
      ensures Kept(currentContainer)
      ensures currentContainer == null ==> calls == []
      ensures currentContainer != null ==>
                currentContainer.Slot() == (null, null) && calls == RemovalCalls(currentContainer, old(currentContainer.currentItem))
    {
      calls := [];
      if currentContainer != null {
        calls := currentContainer.RemoveItem();
      }
    }

    /** Puts the object back in the slot it came from, without equipping. */
    method ReturnToOriginalPosition()
      modifies currentContainer
      ensures Kept(currentContainer) && Returned()
    {
      if currentContainer != null {
        currentContainer.SetCurrentItem(this, itemData);
      }
    }

    /** The stacking branch of a drop: the slot holds an object with this
        very item, and the item stacks. */
    predicate StacksOnto(container: Container)
      reads this, container, container.currentItemTransform
    {
      container.currentItemTransform != null && container.currentItemTransform.itemData == itemData
      && itemData != null && itemData.isStackable
    }

    /** Dropping the object on `container` (the one under the pointer, or
        null). A missing or refusing container sends it back. The same
        stackable item stacks onto the slot's object; a partial stack goes
        back, a full one is destroyed. Otherwise PutInside decides, and on
        success the object now belongs to `container`. */
    method OnPointerUp(container: Container?) returns (calls: seq<EquipCall>, destroyed: bool)
      requires container != null ==> container.PutReady(this)
      modifies this, container, currentContainer, if container != null then {container.currentItemTransform} else {}
      ensures Holds(this) && Kept(container) && Kept(old(currentContainer))
      ensures old(container == null || !container.CanAcceptItem(itemData)) ==>
                calls == [] && !destroyed && currentStack == old(currentStack) && Returned()
      ensures container != null && old(container.CanAcceptItem(itemData) && StacksOnto(container)) ==>
                var target, maxStack := old(container.currentItemTransform), old(itemData).maxStack;
                var space := maxStack - old(target.currentStack);
                calls == []
                && (space > 0 && target != this ==>
                      target.currentStack == old(target.currentStack) + Transfer(old(currentStack), old(target.currentStack), maxStack)
                      && currentStack + target.currentStack == old(currentStack + target.currentStack)
                      && (destroyed <==> old(currentStack) <= space))
                && (space <= 0 ==> !destroyed && currentStack == old(currentStack) && target.currentStack == old(target.currentStack))
                && (!destroyed ==> Returned())
                && (destroyed ==> currentContainer == old(currentContainer))
      ensures container != null && old(container.CanAcceptItem(itemData) && !StacksOnto(container)) ==>
                (old(container.PathFor(this)).Succeeds() ==>
                   currentContainer == container
                   && Dropped(container, this, old(currentContainer), old(container.Before(this, currentContainer)), destroyed, calls))
                && (!old(container.PathFor(this)).Succeeds() ==> calls == [] && !destroyed && Returned())
                && (destroyed ==> old(container.PathFor(this)).Merge?)
    {
      calls, destroyed := [], false;
      if container == null || !container.CanAcceptItem(itemData) {
        ReturnToOriginalPosition();
      } else {
        var currentItemTransform := container.GetCurrentItemTransform();
        if currentItemTransform != null && currentItemTransform.itemData == itemData && itemData.isStackable {
          var fullyStacked := StackItems(currentItemTransform);
          if !fullyStacked {
            ReturnToOriginalPosition();
          } else {
            destroyed := true;
          }
        } else {
          var success;
          success, destroyed, calls := container.PutInside(this, currentContainer);
          if success {
            currentContainer := container;
          } else {
            ReturnToOriginalPosition();
          }
        }
      }
    }

    /** Whether `container` takes this object on a right-click: not an
        Inventory slot, and PutInside would succeed. */
    predicate TakenBy(container: Container)
      reads this, container, container.currentItemTransform
    {
      container.containerType != Inventory && container.CanAcceptItem(itemData) && container.PathFor(this).Succeeds()
    }

    /** One turn of the right-click loop: a container that is not an
        Inventory slot and accepts the item is asked to take the object,
        and becomes its container when it does; otherwise nothing changes. */
    method Offer(container: Container) returns (success: bool, calls: seq<EquipCall>, destroyed: bool)
      requires itemData != null && container.PutReady(this)
      modifies this, container, currentContainer, container.currentItemTransform
      ensures Holds(this)
      ensures success <==> old(TakenBy(container))
      ensures success ==>
                currentContainer == container
                && Dropped(container, this, old(currentContainer), old(container.Before(this, currentContainer)), destroyed, calls)
      ensures !success ==>
                calls == [] && !destroyed && unchanged(this) && unchanged(container)
                && (old(currentContainer) != null ==> unchanged(old(currentContainer)))
                && (old(container.currentItemTransform) != null ==> unchanged(old(container.currentItemTransform)))
    {
      success, calls, destroyed := false, [], false;
      if container.containerType != Inventory && container.CanAcceptItem(itemData) {
        success, destroyed, calls := container.PutInside(this, currentContainer);
        if success {
          currentContainer := container;
        }
      }
    }

    /** The index of the first container that takes this object, or the
        length of `containers` when none does. */
    function FirstTaker(containers: seq<Container>): (k: nat)
      reads this, set c | c in containers, set c | c in containers :: c.currentItemTransform
      ensures k <= |containers|
      ensures k < |containers| ==> TakenBy(containers[k])
      ensures forall j | 0 <= j < k :: !TakenBy(containers[j])
    {
      if containers == [] then 0
      else if TakenBy(containers[0]) then 0
      else 1 + FirstTaker(containers[1..])
    }

    /** Offers the object to each container in turn, skipping Inventory
        slots, until one takes it; that one becomes its container. A bag
        item is never moved. */
    method TryEquipItem(containers: seq<Container>) returns (calls: seq<EquipCall>, destroyed: bool)
      requires itemData != null
      requires forall c | c in containers :: c.PutReady(this)
      modifies this, (set c | c in containers), currentContainer, (set c | c in containers :: c.currentItemTransform)
      ensures Holds(this)
      ensures old(itemData.itemType) == BagItem ==> calls == [] && !destroyed && unchanged(this)
      ensures old(itemData.itemType) != BagItem && old(FirstTaker(containers)) == |containers| ==>
                calls == [] && !destroyed && unchanged(this) && forall c | c in containers :: c.Slot() == old(c.Slot())
      ensures old(itemData.itemType) != BagItem ==>
                var k := old(FirstTaker(containers));
                k < |containers| ==>
                  currentContainer == containers[k]
                  && Dropped(containers[k], this, old(currentContainer), old(containers[k].Before(this, currentContainer)), destroyed, calls)
    {
      calls, destroyed := [], false;
      if itemData.itemType == BagItem {
        return;
      }
      var i := 0;
      while i < |containers|
        invariant 0 <= i <= |containers|
        invariant i <= old(FirstTaker(containers))
        invariant unchanged(this) && calls == [] && !destroyed
        invariant forall c | c in containers :: unchanged(c)
        invariant forall c | c in containers && c.currentItemTransform != null :: unchanged(c.currentItemTransform)
        invariant currentContainer != null ==> unchanged(currentContainer)
      {
        var success, made, merged := Offer(containers[i]);
        if success {
          calls, destroyed := made, merged;
          return;
        }
        i := i + 1;
      }
    }

    /** A right-click on an object holding anything but a bag item offers it
        to the containers. */
    method OnPointerClick(rightButton: bool, containers: seq<Container>) returns (calls: seq<EquipCall>, destroyed: bool)
      requires rightButton ==> itemData != null && forall c | c in containers :: c.PutReady(this)
      modifies this, (set c | c in containers), currentContainer, (set c | c in containers :: c.currentItemTransform)
      ensures !rightButton || old(itemData.itemType) == BagItem ==> calls == [] && !destroyed && unchanged(this)
      ensures rightButton && old(itemData.itemType) != BagItem && old(FirstTaker(containers)) == |containers| ==>
                calls == [] && !destroyed && unchanged(this) && forall c | c in containers :: c.Slot() == old(c.Slot())
      ensures rightButton && old(itemData.itemType) != BagItem ==>
                var k := old(FirstTaker(containers));
                k < |containers| ==>
                  currentContainer == containers[k]
                  && Dropped(containers[k], this, old(currentContainer), old(containers[k].Before(this, currentContainer)), destroyed, calls)
    {
      calls, destroyed := [], false;
      if rightButton && itemData.itemType != BagItem {
        calls, destroyed := TryEquipItem(containers);
      }
    }

    /** Moves as much of this stack onto `target` as fits; true when this
        stack is left empty. With no room nothing moves. */
    method StackItems(target: Draggable) returns (fullyStacked: bool)
      requires target.itemData != null
      modifies this`currentStack, target`currentStack
      ensures var space := target.itemData.maxStack - old(target.currentStack);
              (space <= 0 ==> !fullyStacked && currentStack == old(currentStack) && target.currentStack == old(target.currentStack))
              && (space > 0 && target != this ==>
                    target.currentStack == old(target.currentStack) + Transfer(old(currentStack), old(target.currentStack), target.itemData.maxStack)
                    && currentStack == old(currentStack) - Transfer(old(currentStack), old(target.currentStack), target.itemData.maxStack)
                    && (fullyStacked <==> old(currentStack) <= space))
              && (space > 0 && target == this ==> currentStack == old(currentStack) && (fullyStacked <==> currentStack <= 0))
    {
      var availableSpace := target.itemData.maxStack - target.currentStack;
      fullyStacked := false;
      if availableSpace > 0 {
        var amountToTransfer := Min(currentStack, availableSpace);
        target.currentStack := target.currentStack + amountToTransfer;
        currentStack := currentStack - amountToTransfer;
        fullyStacked := currentStack <= 0;
      }
    }
  }
}
