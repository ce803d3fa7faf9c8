/**
  The menu tab: a list of menu items with numeric ids allocated as the largest
  id plus one, an item draft, and an editing flag.
 */
module Menu {
  import opened Collections
  import opened Forms

  /**
    A price as the price input leaves it: `parseFloat(value) || ''` is either
    the empty string or a number other than zero. Amounts are in cents.
   */
  datatype Price = Blank | Amount(cents: int)

  /** A menu item, or the draft of one (whose id is null until it is added). */
  datatype MenuItem = MenuItem(
    id: Option<int>, name: string, category: string, price: Price, description: string)

  function ItemKey(item: MenuItem): Option<int> { item.id }

  /** An id as `Math.max` reads it: null counts as 0. */
  function NumericId(item: MenuItem): (n: int)
    ensures item.id.Some? ==> n == item.id.value
    ensures item.id.None? ==> n == 0
  {
    match item.id
    case Some(n) => n
    case None => 0
  }

  /** `!price`: the empty string and 0 are both falsy. */
  function IsFalsyPrice(p: Price): (falsy: bool)
    ensures !falsy <==> p.Amount? && p.cents != 0
  {
    p == Blank || p == Amount(0)
  }

  const FillAlert := "Please fill all required fields"

  /** The item draft after a reset. */
  const EmptyItem := MenuItem(None, "", "Food", Blank, "")

  const InitialItems := [
    MenuItem(Some(1), "Pub Burger", "Food", Amount(1299), "Juicy burger with cheese and bacon"),
    MenuItem(Some(2), "Craft Beer", "Drinks", Amount(599), "Local IPA"),
    MenuItem(Some(3), "Fish & Chips", "Food", Amount(1499), "Classic English dish with tartar sauce")
  ]

  /** The id a new item receives: one more than the largest id, or 1 for an empty list. */
  function AllocateItemId(items: seq<MenuItem>): (id: Option<int>)
    ensures id.Some?
    ensures !AnyWithKey(items, ItemKey, id)
    ensures |items| == 0 ==> id == Some(1)
    ensures |items| > 0 ==> exists i :: 0 <= i < |items| && NumericId(items[i]) == id.value - 1
    ensures forall i :: 0 <= i < |items| && items[i].id.Some? ==> items[i].id.value < id.value
  {
    var n := NextId(items, NumericId);
    assert forall i :: 0 <= i < |items| ==> NumericId(items[i]) < n;
    Some(n)
  }

  class MenuTab {
    var menuItems: seq<MenuItem>
    var isEditing: bool
    var currentItem: MenuItem

    /** Item ids are pairwise distinct. */
    ghost predicate Valid()
      reads this
    {
      DistinctKeys(menuItems, ItemKey)
    }

    constructor ()
      ensures Valid()
      ensures menuItems == InitialItems && !isEditing && currentItem == EmptyItem
    {
      menuItems := InitialItems;
      isEditing := false;
      currentItem := EmptyItem;
    }

    /** Clear the draft and leave edit mode (also the Cancel button). */
    method ResetForm()
      requires Valid()
      modifies this
      ensures Valid()
      ensures currentItem == EmptyItem && !isEditing
      ensures menuItems == old(menuItems)
    {
      currentItem := EmptyItem;
      isEditing := false;
    }

    /**
      Submit the item form: reject an empty name or a falsy price; in edit mode
      replace the item with the draft's id; otherwise append the draft under a
      newly allocated id. A saved submit resets the form.
     */
    method HandleSubmit() returns (outcome: Outcome)
      requires Valid()
      modifies this
      ensures Valid()
      ensures outcome == Saved <==> old(currentItem.name != "" && !IsFalsyPrice(currentItem.price))
      ensures outcome.Rejected? ==>
                && outcome == Rejected(FillAlert)
                && menuItems == old(menuItems) && currentItem == old(currentItem) && isEditing == old(isEditing)
      ensures outcome == Saved ==> currentItem == EmptyItem && !isEditing
      ensures outcome == Saved && old(isEditing) ==>
                menuItems == ReplaceByKey(old(menuItems), ItemKey, old(currentItem.id), old(currentItem))
      ensures outcome == Saved && !old(isEditing) ==>
                menuItems == old(menuItems) + [old(currentItem).(id := AllocateItemId(old(menuItems)))]
    {
      if currentItem.name == "" || IsFalsyPrice(currentItem.price) {
        outcome := Rejected(FillAlert);
        return;
      }
      if isEditing {
        ReplaceKeepsKeys(menuItems, ItemKey, currentItem.id, currentItem);
        menuItems := ReplaceByKey(menuItems, ItemKey, currentItem.id, currentItem);
      } else {
        var newItem := currentItem.(id := AllocateItemId(menuItems));
        AppendFreshKeepsDistinct(menuItems, ItemKey, newItem);
        menuItems := menuItems + [newItem];
      }
      ResetForm();
      outcome := Saved;
    }

    /** Load `item` into the draft and enter edit mode. */
    method EditItem(item: MenuItem)
      requires Valid()
      modifies this
      ensures Valid()
      ensures isEditing && currentItem == item
      ensures menuItems == old(menuItems)
    {
      isEditing := true;
      currentItem := item;
    }

    /** Delete, once confirmed, every item with id `id`. */
    method DeleteItem(id: Option<int>, confirmed: bool)
      requires Valid()
      modifies this
      ensures Valid()
      ensures menuItems == if confirmed then RemoveByKey(old(menuItems), ItemKey, id) else old(menuItems)
      ensures currentItem == old(currentItem) && isEditing == old(isEditing)
    {
      if confirmed {
        RemoveKeepsDistinct(menuItems, ItemKey, id);
        menuItems := RemoveByKey(menuItems, ItemKey, id);
      }
    }
  }

  /** A client of the specifications above: a zero price is rejected, a new item gets an id above 3. */
  method AddItemScenario() {
    var tab := new MenuTab();
    tab.currentItem := MenuItem(None, "Nachos", "Snacks", Amount(0), "");
    var free := tab.HandleSubmit();
    assert free == Rejected(FillAlert);

    tab.currentItem := tab.currentItem.(price := Amount(750));
    var added := tab.HandleSubmit();
    assert added == Saved;
    assert tab.menuItems[3].id.value > 3 by {
      assert InitialItems[2].id == Some(3);
    }
  }

  /** A client of the specifications above: an edit in place, then a delete. */
  method EditDeleteScenario() {
    var tab := new MenuTab();
    var stout := InitialItems[1].(name := "Stout");
    tab.EditItem(stout);
    var edited := tab.HandleSubmit();
    assert edited == Saved;
    assert tab.menuItems == [InitialItems[0], stout, InitialItems[2]];

    tab.DeleteItem(Some(2), true);
    assert !AnyWithKey(tab.menuItems, ItemKey, Some(2));
  }
}
