/** The character inventory (Assets/Scripts/Inventory.cs): a bag of
    TotalSlots entries, each an item or empty, and a dictionary from
    equipment slot to the item worn there. Equipping adds the item's stat
    modifiers to the character's stat table; unequipping removes them.

    The EquipmentSlot enum is not part of this model: it is the type
    parameter `Slot`, and `allSlots` stands for `Enum.GetValues`. The two
    change events are counted. */
module Inventories {
  import opened StatSystem
  import opened CharacterStatsModel
  import opened Items

  const TotalSlots: int := 60

  /** `List.IndexOf`: the first index holding `x` (by reference), or -1. */
  function IndexOf(bag: seq<Item?>, x: Item?): (r: int)
    ensures -1 <= r < |bag|
    ensures r == -1 <==> x !in bag
    ensures r >= 0 ==> bag[r] == x && x !in bag[..r]
  {
    if bag == [] then -1
    else if bag[0] == x then 0
    else
      var k := IndexOf(bag[1..], x);
      assert bag == [bag[0]] + bag[1..];
      if k == -1 then -1
      else
        assert bag[..k + 1] == [bag[0]] + bag[1..][..k];
        k + 1
  }

  /** The bag with entries `a` and `b` exchanged. */
  function Swapped(bag: seq<Item?>, a: int, b: int): seq<Item?>
    requires 0 <= a < |bag| && 0 <= b < |bag|
  {
    bag[a := bag[b]][b := bag[a]]
  }

  datatype EquipOutcome = Done | KeyNotFound

  /** The table after the modifiers of `previous`, if any, are removed. */
  function Unequipped(v: map<string, StatState>, previous: Item?): map<string, StatState>
  {
    if previous == null then v else RemoveAll(v, previous.statModifiers)
  }

  /** The table after EquipItem replaces `previous` with `item`. */
  function AfterEquip(v: map<string, StatState>, previous: Item?, item: Item): map<string, StatState>
  {
    ApplyAll(Unequipped(v, previous), item.statModifiers)
  }

  class Inventory<Slot(==)> {
    const characterStats: CharacterStats
    const allSlots: set<Slot>
    var equippedItems: map<Slot, Item?>
    var inventoryBag: seq<Item?>
    var totalSlots: int
    var inventoryChangedEvents: nat
    var equipmentChangedEvents: nat

    /** Field initializers: nothing equipped, an empty bag, 60 slots. */
    constructor (characterStats: CharacterStats, allSlots: set<Slot>)
      ensures this.characterStats == characterStats && this.allSlots == allSlots
      ensures equippedItems == map[] && inventoryBag == [] && totalSlots == TotalSlots
      ensures inventoryChangedEvents == 0 && equipmentChangedEvents == 0
    {
      this.characterStats := characterStats;
      this.allSlots := allSlots;
      equippedItems := map[];
      inventoryBag := [];
      totalSlots := TotalSlots;
      inventoryChangedEvents := 0;
      equipmentChangedEvents := 0;
    }

    /** Awake: every equipment slot is set to nothing, and totalSlots empty
        entries are appended to the bag. */
    method Awake()
      modifies this`equippedItems, this`inventoryBag
      ensures equippedItems == old(equippedItems) + map s | s in allSlots :: null
      ensures inventoryBag == old(inventoryBag) + seq(if totalSlots < 0 then 0 else totalSlots, _ => null)
    {
      equippedItems := equippedItems + map s | s in allSlots :: null;
      var i := 0;
      while i < totalSlots
        invariant 0 <= i <= if totalSlots < 0 then 0 else totalSlots
        invariant inventoryBag == old(inventoryBag) + seq(i, _ => null)
        invariant equippedItems == old(equippedItems) + map s | s in allSlots :: null
      {
        inventoryBag := inventoryBag + [null];
        i := i + 1;
      }
    }

    /** Puts a copy of `item` holding `quantity` into the first empty entry;
        a full bag only logs a warning. */
    method AddToBag(item: Item, quantity: int) returns (added: Item?)
      modifies this`inventoryBag, this`inventoryChangedEvents
      ensures |inventoryBag| == |old(inventoryBag)|
      ensures null !in old(inventoryBag) ==> added == null && inventoryBag == old(inventoryBag)
                                             && inventoryChangedEvents == old(inventoryChangedEvents)
      ensures null in old(inventoryBag) ==>
                added != null && fresh(added) && SameConfiguration(added, item) && added.currentStack == quantity
                && inventoryBag == old(inventoryBag)[IndexOf(old(inventoryBag), null) := added]
                && inventoryChangedEvents == old(inventoryChangedEvents) + 1
    {
      var i := 0;
      while i < |inventoryBag|
        invariant 0 <= i <= |inventoryBag|
        invariant inventoryBag == old(inventoryBag)
        invariant forall j | 0 <= j < i :: inventoryBag[j] != null
      {
        if inventoryBag[i] == null {
          var copy := new Item.Clone(item);
          copy.currentStack := quantity;
          assert IndexOf(inventoryBag, null) == i;
          inventoryBag := inventoryBag[i := copy];
          inventoryChangedEvents := inventoryChangedEvents + 1;
          return copy;
        }
        i := i + 1;
      }
      return null;
    }

    /** Empties the first entry holding `item`; an absent item changes
        nothing. */
    method RemoveFromBag(item: Item?)
      modifies this`inventoryBag, this`inventoryChangedEvents
      ensures |inventoryBag| == |old(inventoryBag)|
      ensures item !in old(inventoryBag) ==> inventoryBag == old(inventoryBag)
                                             && inventoryChangedEvents == old(inventoryChangedEvents)
      ensures item in old(inventoryBag) ==>
                inventoryBag == old(inventoryBag)[IndexOf(old(inventoryBag), item) := null]
                && inventoryChangedEvents == old(inventoryChangedEvents) + 1
    {
      var index := IndexOf(inventoryBag, item);
      if index >= 0 {
        inventoryBag := inventoryBag[index := null];
        inventoryChangedEvents := inventoryChangedEvents + 1;
      }
    }

    /** Exchanges two entries; an index out of range only logs an error. */
    method SwapItems(indexA: int, indexB: int)
      modifies this`inventoryBag, this`inventoryChangedEvents
      ensures |inventoryBag| == |old(inventoryBag)|
      ensures !(0 <= indexA < |old(inventoryBag)| && 0 <= indexB < |old(inventoryBag)|) ==>
                inventoryBag == old(inventoryBag) && inventoryChangedEvents == old(inventoryChangedEvents)
      ensures 0 <= indexA < |old(inventoryBag)| && 0 <= indexB < |old(inventoryBag)| ==>
                inventoryBag == Swapped(old(inventoryBag), indexA, indexB)
                && inventoryChangedEvents == old(inventoryChangedEvents) + 1
    {
      if indexA < 0 || indexA >= |inventoryBag| || indexB < 0 || indexB >= |inventoryBag| {
        return;
      }
      var temp := inventoryBag[indexA];
      inventoryBag := inventoryBag[indexA := inventoryBag[indexB]];
      inventoryBag := inventoryBag[indexB := temp];
      inventoryChangedEvents := inventoryChangedEvents + 1;
    }

    /** The index of `item` in the bag, or -1. */
    function GetItemIndex(item: Item?): (r: int)
      reads this
      ensures -1 <= r < |inventoryBag|
      ensures r == -1 <==> item !in inventoryBag
      ensures r >= 0 ==> inventoryBag[r] == item && item !in inventoryBag[..r]
    {
      IndexOf(inventoryBag, item)
    }

    /** The item worn in `slot`, or nothing when the slot is empty or has no
        entry. */
    function GetEquippedItem(slot: Slot): (r: Item?)
      reads this
      ensures r != null <==> slot in equippedItems && equippedItems[slot] != null
      ensures r != null ==> r == equippedItems[slot]
    {
      if slot in equippedItems then equippedItems[slot] else null
    }

    /** Takes the item in `slot` off: its modifiers are removed from the
        table and the slot becomes empty. Reading a slot that has no entry
        throws. */
    method UnequipItem(slot: Slot) returns (outcome: EquipOutcome)
      requires characterStats.Valid()
      modifies this`equippedItems, this`equipmentChangedEvents, characterStats, characterStats.stats.Values
      ensures characterStats.Valid()
      ensures outcome == (if slot in old(equippedItems) then Done else KeyNotFound)
      ensures outcome == KeyNotFound ==>
                equippedItems == old(equippedItems)
                && equipmentChangedEvents == old(equipmentChangedEvents)
                && characterStats.View() == old(characterStats.View())
      ensures outcome == Done ==>
                equippedItems == old(equippedItems)[slot := null]
                && equipmentChangedEvents == old(equipmentChangedEvents) + 1
                && characterStats.View() == (if old(equippedItems[slot]) == null then old(characterStats.View())
                                             else RemoveAll(old(characterStats.View()), old(equippedItems[slot]).statModifiers))
      ensures characterStats.Scalars() == old(characterStats.Scalars())
      ensures FreshOrKept(characterStats, old(characterStats.stats))
    {
      if slot !in equippedItems {
        return KeyNotFound;
      }
      var held := equippedItems[slot];
      if held != null {
        held.RemoveFrom(characterStats);
      }
      equippedItems := equippedItems[slot := null];
      equipmentChangedEvents := equipmentChangedEvents + 1;
      return Done;
    }

    /** Puts `item` in `slot`, first taking off what was there, and adds the
        item's modifiers to the table. */
    method EquipItem(item: Item, slot: Slot) returns (outcome: EquipOutcome)
      requires characterStats.Valid()
      modifies this`equippedItems, this`equipmentChangedEvents, characterStats, characterStats.stats.Values
      ensures characterStats.Valid()
      ensures outcome == (if slot in old(equippedItems) then Done else KeyNotFound)
      ensures outcome == KeyNotFound ==>
                equippedItems == old(equippedItems)
                && equipmentChangedEvents == old(equipmentChangedEvents)
                && characterStats.View() == old(characterStats.View())
      ensures outcome == Done ==>
                equippedItems == old(equippedItems)[slot := item]
                && characterStats.View() == AfterEquip(old(characterStats.View()), old(equippedItems[slot]), item)
                && equipmentChangedEvents == old(equipmentChangedEvents) + (if old(equippedItems[slot]) == null then 1 else 2)
      ensures characterStats.Scalars() == old(characterStats.Scalars())
    {
      if slot !in equippedItems {
        return KeyNotFound;
      }
      ghost var previous := equippedItems[slot];
      ghost var before := characterStats.View();
      if equippedItems[slot] != null {
        outcome := UnequipItem(slot);
      }
      assert characterStats.View() == Unequipped(before, previous);
      StoreAndApply(item, slot);
      return Done;
    }

    /** The second half of EquipItem: store the item, add its modifiers,
        raise the event. */
    method StoreAndApply(item: Item, slot: Slot)
      requires characterStats.Valid()
      modifies this`equippedItems, this`equipmentChangedEvents, characterStats, characterStats.stats.Values
      ensures characterStats.Valid()
      ensures equippedItems == old(equippedItems)[slot := item]
      ensures characterStats.View() == ApplyAll(old(characterStats.View()), item.statModifiers)
      ensures equipmentChangedEvents == old(equipmentChangedEvents) + 1
      ensures characterStats.Scalars() == old(characterStats.Scalars())
    {
      label Start:
      equippedItems := equippedItems[slot := item];
      ViewKept@Start(characterStats);
      item.ApplyTo(characterStats);
      label Applied:
      equipmentChangedEvents := equipmentChangedEvents + 1;
      ViewKept@Applied(characterStats);
    }
  }

  // ---------------------------------------------------------------------
  // Properties of the bag operations

  /** Swapping exchanges exactly the two entries; swapping the same pair
      again restores the bag. */
  lemma SwapExchanges(bag: seq<Item?>, a: int, b: int)
    requires 0 <= a < |bag| && 0 <= b < |bag|
    ensures |Swapped(bag, a, b)| == |bag|
    ensures Swapped(bag, a, b)[a] == bag[b] && Swapped(bag, a, b)[b] == bag[a]
    ensures forall i | 0 <= i < |bag| && i != a && i != b :: Swapped(bag, a, b)[i] == bag[i]
    ensures Swapped(Swapped(bag, a, b), a, b) == bag
  {
  }

  /** Swapping neither loses nor duplicates an item. */
  lemma SwapKeepsContents(bag: seq<Item?>, a: int, b: int)
    requires 0 <= a < |bag| && 0 <= b < |bag|
    ensures multiset(Swapped(bag, a, b)) == multiset(bag)
  {
    var mid := bag[a := bag[b]];
    assert multiset(mid) == multiset(bag) - multiset{bag[a]} + multiset{bag[b]};
    assert multiset(mid[b := bag[a]]) == multiset(mid) - multiset{mid[b]} + multiset{bag[a]};
  }

  /** After Awake on a fresh inventory the bag holds exactly 60 empty
      entries and every slot is empty. */
  lemma AwakeBag<Slot>(allSlots: set<Slot>)
    ensures var bag := [] + seq(TotalSlots, _ => null);
            |bag| == 60 && forall i | 0 <= i < |bag| :: bag[i] == null
    ensures var equipped := map[] + map s | s in allSlots :: null;
            equipped.Keys == allSlots && forall s | s in equipped :: equipped[s] == null
  {
  }
}
