/** Items (Assets/Scripts/Items/Item.cs): configuration records whose stat
    modifiers are added to, and removed from, a character's stat table. */
module Items {
  import opened StatSystem
  import opened CharacterStatsModel
  import Weapons

  datatype ItemType = Weapon | Offhand | Helmet | Gloves | Boots | Chest | Ring | Amulet | Belt | BagItem

  datatype ItemRarity = Normal | Magic | Rare | Unique

  class Item {
    const itemName: string
    const itemType: ItemType
    const rarity: ItemRarity
    const isStackable: bool
    const maxStack: int
    var currentStack: int
    const statModifiers: seq<StatModifier>
    const id: int
    const weaponType: Weapons.WeaponType

    /** An item created with only its field initializers: a bag item of
        rarity Normal, not stackable, a stack of one out of at most one, no
        modifiers. The WeaponType property has no initializer, so it holds
        the enum's first member, Gun. */
    constructor Default(itemName: string, id: int)
      ensures this.itemName == itemName && this.id == id
      ensures itemType == BagItem && rarity == Normal && !isStackable
      ensures maxStack == 1 && currentStack == 1 && statModifiers == []
      ensures weaponType == Weapons.Gun
    {
      this.itemName := itemName;
      itemType := BagItem;
      rarity := Normal;
      isStackable := false;
      maxStack := 1;
      currentStack := 1;
      statModifiers := [];
      this.id := id;
      weaponType := Weapons.Gun;
    }

    /** An item asset as configured in the editor. */
    constructor (itemName: string, itemType: ItemType, rarity: ItemRarity, isStackable: bool, maxStack: int,
                 currentStack: int, statModifiers: seq<StatModifier>, id: int, weaponType: Weapons.WeaponType)
      ensures this.itemName == itemName && this.itemType == itemType && this.rarity == rarity
      ensures this.isStackable == isStackable && this.maxStack == maxStack && this.currentStack == currentStack
      ensures this.statModifiers == statModifiers && this.id == id && this.weaponType == weaponType
    {
      this.itemName := itemName;
      this.itemType := itemType;
      this.rarity := rarity;
      this.isStackable := isStackable;
      this.maxStack := maxStack;
      this.currentStack := currentStack;
      this.statModifiers := statModifiers;
      this.id := id;
      this.weaponType := weaponType;
    }

    /** `Instantiate(item)`: a new object with the same field values. */
    constructor Clone(other: Item)
      ensures SameConfiguration(this, other) && currentStack == other.currentStack
    {
      itemName := other.itemName;
      itemType := other.itemType;
      rarity := other.rarity;
      isStackable := other.isStackable;
      maxStack := other.maxStack;
      currentStack := other.currentStack;
      statModifiers := other.statModifiers;
      id := other.id;
      weaponType := other.weaponType;
    }

    /** For each modifier in list order: look the named stat up (creating it
        at 0 when missing) and add the modifier to it. */
    method ApplyTo(characterStats: CharacterStats)
      requires characterStats.Valid()
      modifies characterStats, characterStats.stats.Values
      ensures characterStats.Valid()
      ensures characterStats.View() == ApplyAll(old(characterStats.View()), statModifiers)
      ensures characterStats.Scalars() == old(characterStats.Scalars())
      ensures forall k | k in old(characterStats.stats) :: k in characterStats.stats && characterStats.stats[k] == old(characterStats.stats[k])
      ensures FreshOrKept(characterStats, old(characterStats.stats))
    {
      var i := 0;
      while i < |statModifiers|
        invariant 0 <= i <= |statModifiers|
        invariant characterStats.Valid()
        invariant characterStats.View() == ApplyAll(old(characterStats.View()), statModifiers[..i])
        invariant characterStats.Scalars() == old(characterStats.Scalars())
        invariant forall k | k in old(characterStats.stats) :: k in characterStats.stats && characterStats.stats[k] == old(characterStats.stats[k])
        invariant FreshOrKept(characterStats, old(characterStats.stats))
      {
        assert statModifiers[..i + 1][..i] == statModifiers[..i];
        AddToStat(characterStats, statModifiers[i]);
        i := i + 1;
      }
      assert statModifiers[..i] == statModifiers;
    }

    /** The same loop, removing each modifier from its (possibly new) stat. */
    method RemoveFrom(characterStats: CharacterStats)
      requires characterStats.Valid()
      modifies characterStats, characterStats.stats.Values
      ensures characterStats.Valid()
      ensures characterStats.View() == RemoveAll(old(characterStats.View()), statModifiers)
      ensures characterStats.Scalars() == old(characterStats.Scalars())
      ensures forall k | k in old(characterStats.stats) :: k in characterStats.stats && characterStats.stats[k] == old(characterStats.stats[k])
      ensures FreshOrKept(characterStats, old(characterStats.stats))
    {
      var i := 0;
      while i < |statModifiers|
        invariant 0 <= i <= |statModifiers|
        invariant characterStats.Valid()
        invariant characterStats.View() == RemoveAll(old(characterStats.View()), statModifiers[..i])
        invariant characterStats.Scalars() == old(characterStats.Scalars())
        invariant forall k | k in old(characterStats.stats) :: k in characterStats.stats && characterStats.stats[k] == old(characterStats.stats[k])
        invariant FreshOrKept(characterStats, old(characterStats.stats))
      {
        assert statModifiers[..i + 1][..i] == statModifiers[..i];
        RemoveFromStat(characterStats, statModifiers[i]);
        i := i + 1;
      }
      assert statModifiers[..i] == statModifiers;
    }
  }

  /** A table none of whose objects changed has the same view. */
  twostate lemma ViewKept(cs: CharacterStats)
    requires unchanged(cs) && forall s | s in old(cs.stats.Values) :: unchanged(s)
    ensures cs.View() == old(cs.View())
  {
  }

  /** Every Stat object in the table was there before, or is new. */
  twostate predicate FreshOrKept(cs: CharacterStats, before: map<string, Stat>)
    reads cs
  {
    forall k | k in cs.stats :: cs.stats[k] in before.Values || fresh(cs.stats[k])
  }

  /** Every configured field but the stack count agrees. */
  ghost predicate SameConfiguration(a: Item, b: Item)
  {
    a.itemName == b.itemName && a.itemType == b.itemType && a.rarity == b.rarity
    && a.isStackable == b.isStackable && a.maxStack == b.maxStack && a.statModifiers == b.statModifiers
    && a.id == b.id && a.weaponType == b.weaponType
  }

  /** The body of ApplyTo's loop: `GetStat(name).AddModifier(value, isMultiplicative)`. */
  method AddToStat(characterStats: CharacterStats, modifier: StatModifier)
    requires characterStats.Valid()
    modifies characterStats, characterStats.stats.Values
    ensures characterStats.Valid()
    ensures characterStats.View() == ApplyOne(old(characterStats.View()), modifier)
    ensures characterStats.Scalars() == old(characterStats.Scalars())
    ensures forall k | k in old(characterStats.stats) :: k in characterStats.stats && characterStats.stats[k] == old(characterStats.stats[k])
    ensures FreshOrKept(characterStats, old(characterStats.stats))
  {
    var stat := characterStats.GetStat(modifier.statName);
    ghost var mid := characterStats.View();
    stat.AddModifier(modifier.value, modifier.isMultiplicative);
    ViewAfterStatChange(characterStats, modifier.statName, mid);
  }

  /** The body of RemoveFrom's loop: `GetStat(name).RemoveModifier(value, isMultiplicative)`. */
  method RemoveFromStat(characterStats: CharacterStats, modifier: StatModifier)
    requires characterStats.Valid()
    modifies characterStats, characterStats.stats.Values
    ensures characterStats.Valid()
    ensures characterStats.View() == RemoveOne(old(characterStats.View()), modifier)
    ensures characterStats.Scalars() == old(characterStats.Scalars())
    ensures forall k | k in old(characterStats.stats) :: k in characterStats.stats && characterStats.stats[k] == old(characterStats.stats[k])
    ensures FreshOrKept(characterStats, old(characterStats.stats))
  {
    var stat := characterStats.GetStat(modifier.statName);
    ghost var mid := characterStats.View();
    stat.RemoveModifier(modifier.value, modifier.isMultiplicative);
    ViewAfterStatChange(characterStats, modifier.statName, mid);
  }

  /** After changing the one Stat object held under `name`, the table's view
      differs from `before` only at `name`. */
  lemma ViewAfterStatChange(cs: CharacterStats, name: string, before: map<string, StatState>)
    requires cs.Valid() && name in cs.stats && before.Keys == cs.stats.Keys
    requires forall k | k in cs.stats && k != name :: before[k] == cs.stats[k].State()
    ensures cs.View() == before[name := cs.stats[name].State()]
  {
  }

  // ---------------------------------------------------------------------
  // The effect of ApplyTo and RemoveFrom on the table's view

  /** The stat `name` as GetStat would see it: missing means a new zero stat. */
  function Base(v: map<string, StatState>, name: string): StatState
  {
    if name in v then v[name] else StatState(0.0, [], [])
  }

  /** The list a modifier goes to. */
  function Lists(st: StatState, isMultiplicative: bool): seq<real>
  {
    if isMultiplicative then st.multiplicative else st.additive
  }

  function ApplyOne(v: map<string, StatState>, m: StatModifier): map<string, StatState>
  {
    AfterLookup(v, m.statName)[m.statName := WithModifier(Base(v, m.statName), m.value, m.isMultiplicative)]
  }

  function RemoveOne(v: map<string, StatState>, m: StatModifier): map<string, StatState>
  {
    AfterLookup(v, m.statName)[m.statName := WithoutModifier(Base(v, m.statName), m.value, m.isMultiplicative)]
  }

  /** The view after ApplyTo: the modifiers applied one after the other. */
  function ApplyAll(v: map<string, StatState>, mods: seq<StatModifier>): map<string, StatState>
  {
    if mods == [] then v else ApplyOne(ApplyAll(v, mods[..|mods| - 1]), mods[|mods| - 1])
  }

  /** The view after RemoveFrom. */
  function RemoveAll(v: map<string, StatState>, mods: seq<StatModifier>): map<string, StatState>
  {
    if mods == [] then v else RemoveOne(RemoveAll(v, mods[..|mods| - 1]), mods[|mods| - 1])
  }

  /** The stat names the modifiers mention. */
  function Names(mods: seq<StatModifier>): set<string>
  {
    if mods == [] then {} else Names(mods[..|mods| - 1]) + {mods[|mods| - 1].statName}
  }

  /** The values, in list order, of the modifiers for stat `name` that go to
      the list chosen by `isMultiplicative`. */
  function Picked(mods: seq<StatModifier>, name: string, isMultiplicative: bool): seq<real>
  {
    if mods == [] then []
    else
      var m := mods[|mods| - 1];
      Picked(mods[..|mods| - 1], name, isMultiplicative)
      + (if m.statName == name && m.isMultiplicative == isMultiplicative then [m.value] else [])
  }

  /** How one modifier changes the stat `n` as GetStat sees it. */
  lemma ApplyOneBase(v: map<string, StatState>, m: StatModifier, n: string)
    ensures Base(ApplyOne(v, m), n) == if n == m.statName then WithModifier(Base(v, n), m.value, m.isMultiplicative) else Base(v, n)
    ensures Base(RemoveOne(v, m), n) == if n == m.statName then WithoutModifier(Base(v, n), m.value, m.isMultiplicative) else Base(v, n)
  {
  }

  /** ApplyTo and RemoveFrom create exactly the missing stats the modifiers
      name. */
  lemma {:induction false} ModifiedKeys(v: map<string, StatState>, mods: seq<StatModifier>)
    ensures ApplyAll(v, mods).Keys == v.Keys + Names(mods)
    ensures RemoveAll(v, mods).Keys == v.Keys + Names(mods)
  {
    if mods != [] {
      ModifiedKeys(v, mods[..|mods| - 1]);
    }
  }

  /** Neither ApplyTo nor RemoveFrom moves a base value; a created stat has
      base 0. */
  lemma {:induction false} ModifiedBase(v: map<string, StatState>, mods: seq<StatModifier>, n: string)
    ensures Base(ApplyAll(v, mods), n).baseValue == Base(v, n).baseValue
    ensures Base(RemoveAll(v, mods), n).baseValue == Base(v, n).baseValue
  {
    if mods != [] {
      ModifiedBase(v, mods[..|mods| - 1], n);
      ApplyOneBase(ApplyAll(v, mods[..|mods| - 1]), mods[|mods| - 1], n);
      ApplyOneBase(RemoveAll(v, mods[..|mods| - 1]), mods[|mods| - 1], n);
    }
  }

  /** ApplyTo appends each modifier to its own stat's chosen list, in list
      order. */
  lemma {:induction false} ApplyAllLists(v: map<string, StatState>, mods: seq<StatModifier>, n: string, mul: bool)
    ensures Lists(Base(ApplyAll(v, mods), n), mul) == Lists(Base(v, n), mul) + Picked(mods, n, mul)
  {
    if mods != [] {
      var init, m := mods[..|mods| - 1], mods[|mods| - 1];
      ApplyAllLists(v, init, n, mul);
      ApplyOneBase(ApplyAll(v, init), m, n);
      if n == m.statName && mul == m.isMultiplicative {
        assert Lists(Base(ApplyAll(v, mods), n), mul) == Lists(Base(ApplyAll(v, init), n), mul) + [m.value];
      } else {
        assert Picked(mods, n, mul) == Picked(init, n, mul) + [];
      }
    }
  }

  /** A stat no modifier names is untouched by ApplyTo, and by RemoveFrom. */
  lemma {:induction false} UnnamedUntouched(v: map<string, StatState>, mods: seq<StatModifier>, n: string)
    requires n !in Names(mods)
    ensures n in ApplyAll(v, mods) <==> n in v
    ensures n in RemoveAll(v, mods) <==> n in v
    ensures n in v ==> ApplyAll(v, mods)[n] == v[n] && RemoveAll(v, mods)[n] == v[n]
  {
    if mods != [] {
      UnnamedUntouched(v, mods[..|mods| - 1], n);
    }
  }

  /** The values that go to stat `n`'s chosen list grow one modifier at a time. */
  lemma PickedLast(mods: seq<StatModifier>, n: string, mul: bool)
    requires mods != []
    ensures var m := mods[|mods| - 1];
            multiset(Picked(mods, n, mul)) == multiset(Picked(mods[..|mods| - 1], n, mul))
              + (if m.statName == n && m.isMultiplicative == mul then multiset{m.value} else multiset{})
  {
  }

  /** RemoveFrom takes one copy of each modifier value out of its stat's
      chosen list, provided every value is there to be taken. */
  lemma {:induction false} RemoveAllLists(w: map<string, StatState>, mods: seq<StatModifier>, n: string, mul: bool)
    requires multiset(Picked(mods, n, mul)) <= multiset(Lists(Base(w, n), mul))
    ensures multiset(Lists(Base(RemoveAll(w, mods), n), mul)) == multiset(Lists(Base(w, n), mul)) - multiset(Picked(mods, n, mul))
  {
    if mods != [] {
      var init, m := mods[..|mods| - 1], mods[|mods| - 1];
      var start, taken := multiset(Lists(Base(w, n), mul)), multiset(Picked(init, n, mul));
      PickedLast(mods, n, mul);
      RemoveAllLists(w, init, n, mul);
      var before := Lists(Base(RemoveAll(w, init), n), mul);
      assert multiset(before) == start - taken;
      ApplyOneBase(RemoveAll(w, init), m, n);
      if n == m.statName && mul == m.isMultiplicative {
        assert m.value in multiset(before);
        RemoveFirstMultiset(before, m.value);
        assert Lists(Base(RemoveAll(w, mods), n), mul) == RemoveFirst(before, m.value);
        TakeTwice(start, taken, multiset{m.value});
      } else {
        assert Lists(Base(RemoveAll(w, mods), n), mul) == before;
      }
    }
  }

  /** Taking `b` and then `c` out of `a` is taking `b + c` out of it. */
  lemma TakeTwice(a: multiset<real>, b: multiset<real>, c: multiset<real>)
    ensures a - b - c == a - (b + c)
  {
  }

  /** ApplyTo followed by RemoveFrom with the same item restores the value
      of every stat; stats the item created stay, with base 0 and value 0. */
  lemma ApplyThenRemoveRestoresValues(v: map<string, StatState>, mods: seq<StatModifier>)
    ensures RemoveAll(ApplyAll(v, mods), mods).Keys == v.Keys + Names(mods)
    ensures forall n | n in v :: ValueOf(RemoveAll(ApplyAll(v, mods), mods)[n]) == ValueOf(v[n])
    ensures forall n | n in Names(mods) && n !in v ::
              RemoveAll(ApplyAll(v, mods), mods)[n].baseValue == 0.0 && ValueOf(RemoveAll(ApplyAll(v, mods), mods)[n]) == 0.0
  {
    var w := ApplyAll(v, mods);
    var r := RemoveAll(w, mods);
    ModifiedKeys(v, mods);
    ModifiedKeys(w, mods);
    forall n | n in r ensures ValueOf(r[n]) == ValueOf(Base(v, n)) && r[n].baseValue == Base(v, n).baseValue {
      ApplyAllRemoveAllSameModifiers(v, mods, n, true);
      ApplyAllRemoveAllSameModifiers(v, mods, n, false);
      ModifiedBase(v, mods, n);
      ModifiedBase(w, mods, n);
      ValueIgnoresModifierOrder(r[n], Base(v, n));
    }
  }

  /** Each list of each stat holds the same values after ApplyTo then
      RemoveFrom as before, though maybe in another order. */
  lemma ApplyAllRemoveAllSameModifiers(v: map<string, StatState>, mods: seq<StatModifier>, n: string, mul: bool)
    ensures multiset(Lists(Base(RemoveAll(ApplyAll(v, mods), mods), n), mul)) == multiset(Lists(Base(v, n), mul))
  {
    ApplyAllLists(v, mods, n, mul);
    RemoveAllLists(ApplyAll(v, mods), mods, n, mul);
  }
}
