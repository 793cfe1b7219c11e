/** The older inventory slot (Assets/Scripts/Container.cs): a slot holding
    at most one item object. Dropping an object on an empty slot moves it
    there and empties the slot it came from; dropping it on an occupied slot
    swaps the two objects. */
module LegacyContainers {

  /** A dragged item object: its RectTransform together with the Draggable
      component on it, of which only CurrentContainer is used here. */
  class ItemObject {
    var currentContainer: Container?

    constructor ()
      ensures currentContainer == null
    {
      currentContainer := null;
    }
  }

  class Container {
    // `_currentItem`: the object in the slot, or null.
    var currentItem: ItemObject?

    constructor ()
      ensures currentItem == null
    {
      currentItem := null;
    }

    function GetCurrentItem(): (r: ItemObject?)
      reads this
      ensures r == currentItem
    {
      currentItem
    }

    /** Empties the slot. */
    method RemoveItem()
      modifies this`currentItem
      ensures GetCurrentItem() == null
    {
      currentItem := null;
    }

    /** Drops `rect` here, coming from `previousContainer`. An empty slot takes
        it and the previous container is emptied (so dropping an object back
        on its own slot leaves that slot empty); an occupied slot swaps,
        which needs a previous container to send the held object to. */
    method PutInside(rect: ItemObject, previousContainer: Container?)
      requires currentItem != null ==> previousContainer != null
      modifies this`currentItem, previousContainer, rect, currentItem
      ensures old(currentItem) == null ==>
                GetCurrentItem() == (if previousContainer == this then null else rect)
                && (previousContainer != null && previousContainer != this ==> previousContainer.GetCurrentItem() == null)
                && rect.currentContainer == old(rect.currentContainer)
      ensures old(currentItem) != null ==> Swapped(this, rect, previousContainer, old(currentItem))
    {
      if currentItem != null {
        SwapItems(rect, previousContainer);
      } else {
        currentItem := rect;
        if previousContainer != null {
          previousContainer.RemoveItem();
        }
      }
    }

    /** This slot takes `newItem` and `previousContainer` the held object;
        both objects learn their new container. */
    method SwapItems(newItem: ItemObject, previousContainer: Container)
      requires currentItem != null
      modifies this`currentItem, previousContainer`currentItem, newItem`currentContainer, currentItem`currentContainer
      ensures Swapped(this, newItem, previousContainer, old(currentItem))
    {
      var oldItem := currentItem;
      currentItem := newItem;
      previousContainer.currentItem := oldItem;
      oldItem.currentContainer := previousContainer;
      newItem.currentContainer := this;
    }
  }

  /** The state after a swap of `newItem` into `c`, whose slot held `held`,
      with `previous`: the assignments in order, so a swap with the slot
      itself as previous container leaves it holding `held`. */
  ghost predicate Swapped(c: Container, newItem: ItemObject, previous: Container?, held: ItemObject)
    reads c, newItem, previous, held
  {
    previous != null
    && c.currentItem == (if previous == c then held else newItem)
    && previous.currentItem == held
    && newItem.currentContainer == c
    && (held != newItem ==> held.currentContainer == previous)
  }

  /** Between two different slots a swap conserves the objects: the new one
      and the held one end up one in each slot, each knowing its slot. */
  lemma SwapConserves(c: Container, newItem: ItemObject, previous: Container, held: ItemObject)
    requires previous != c && Swapped(c, newItem, previous, held)
    ensures multiset{c.currentItem, previous.currentItem} == multiset{newItem, held}
    ensures c.currentItem != null && c.currentItem.currentContainer == c
    ensures held != newItem ==> previous.currentItem != null && previous.currentItem.currentContainer == previous
  {
  }
}
