/**
  The packing checklist: items grouped by category, each packed or not, with a
  category filter and a packing-progress bar.
 */
module PackingChecklist {
  import opened Lists
  import opened Text

  datatype Category = Essentials | Clothing | Toiletries | Electronics | Misc

  datatype Item = Item(id: string, name: string, packed: bool, category: Category)

  /** The category tabs: every item, or one category. */
  datatype CategoryFilter = All | Only(category: Category)

  function IsPacked(i: Item): bool
  {
    i.packed
  }

  function LacksId(id: string): Item -> bool
  {
    (i: Item) => i.id != id
  }

  function InCategory(c: Category): Item -> bool
  {
    (i: Item) => i.category == c
  }

  /** `addItem`'s effect on the list: a new, unpacked item named exactly as typed, unless the name is blank. */
  function WithItem(items: seq<Item>, name: string, category: Category, freshId: string): (r: seq<Item>)
    ensures |items| <= |r| <= |items| + 1 && r[..|items|] == items
    ensures |r| > |items| ==> r[|items|].name == name && !r[|items|].packed
  {
    if Trim(name) != "" then items + [Item(freshId, name, false, category)] else items
  }

  /** A name of white space only adds nothing; any other name adds one unpacked item, untrimmed, at the end. */
  lemma AddItemEffect(items: seq<Item>, name: string, category: Category, freshId: string)
    ensures (forall i :: 0 <= i < |name| ==> IsWhitespace(name[i])) ==> WithItem(items, name, category, freshId) == items
    ensures (exists i :: 0 <= i < |name| && !IsWhitespace(name[i])) ==>
              WithItem(items, name, category, freshId) == items + [Item(freshId, name, false, category)]
  {
    TrimEmptyIffBlank(name);
  }

  /** `toggleItem`'s effect on the list: every item with the id changes its packed flag. */
  function Toggle(items: seq<Item>, id: string): (r: seq<Item>)
    ensures |r| == |items|
    ensures forall k :: 0 <= k < |items| ==>
              r[k].id == items[k].id && r[k].name == items[k].name && r[k].category == items[k].category
              && (r[k].packed <==> (items[k].packed != (items[k].id == id)))
  {
    seq(|items|, k requires 0 <= k < |items| =>
      if items[k].id == id then items[k].(packed := !items[k].packed) else items[k])
  }

  /** Toggling the same id twice gives back the list. */
  lemma ToggleTwice(items: seq<Item>, id: string)
    ensures Toggle(Toggle(items, id), id) == items
  {
    var r := Toggle(Toggle(items, id), id);
    assert forall k :: 0 <= k < |items| ==> r[k] == items[k];
  }

  /** `removeItem`: the items whose id differs. */
  function WithoutId(items: seq<Item>, id: string): (r: seq<Item>)
    ensures IsSubsequence(r, items)
    ensures forall i :: i in r ==> i.id != id
  {
    Filter(LacksId(id), items)
  }

  /** Removal leaves no item with the id and keeps every other item in order. */
  lemma RemoveItemEffect(items: seq<Item>, id: string)
    ensures var r := WithoutId(items, id);
            IsSubsequence(r, items)
            && (forall i :: i in r ==> i.id != id)
            && forall i :: i in items && i.id != id ==> multiset(r)[i] == multiset(items)[i]
  {
  }

  /** `filteredItems`. */
  function Filtered(items: seq<Item>, filter: CategoryFilter): (r: seq<Item>)
    ensures IsSubsequence(r, items)
    ensures filter.Only? ==> forall i :: i in r ==> i.category == filter.category
  {
    match filter
    case All => SubsequenceReflexive(items); items
    case Only(c) => Filter(InCategory(c), items)
  }

  /** The "all" tab shows every item; a category tab shows exactly that category's items, in order. */
  lemma FilteredEffect(items: seq<Item>, filter: CategoryFilter)
    ensures filter == All ==> Filtered(items, filter) == items
    ensures filter.Only? ==>
              IsSubsequence(Filtered(items, filter), items)
              && forall i :: i in items ==> (i in Filtered(items, filter) <==> i.category == filter.category)
  {
    if filter.Only? {
      forall i | i in items
        ensures i in Filtered(items, filter) <==> i.category == filter.category
      {
        FilterMembership(InCategory(filter.category), items, i);
      }
    }
  }

  /** `packedCount`. */
  function PackedCount(items: seq<Item>): (r: nat)
    ensures r <= |items|
  {
    SubsequenceLength(Filter(IsPacked, items), items);
    |Filter(IsPacked, items)|
  }

  /** `progress`: the packed share in percent, 0 for an empty list. */
  function Progress(items: seq<Item>): (r: real)
    ensures 0.0 <= r <= 100.0
  {
    if |items| > 0 then
      Share(PackedCount(items) as real, |items| as real);
      PackedCount(items) as real / |items| as real * 100.0
    else 0.0
  }

  /** Progress lies between 0 and 100, and reaches 100 exactly when there are items and all are packed. */
  lemma ProgressBounds(items: seq<Item>)
    ensures PackedCount(items) <= |items|
    ensures 0.0 <= Progress(items) <= 100.0
    ensures Progress(items) == 100.0 <==> |items| > 0 && forall i :: i in items ==> i.packed
  {
    SubsequenceLength(Filter(IsPacked, items), items);
    FilterLengthAll(IsPacked, items);
    if |items| > 0 {
      Share(PackedCount(items) as real, |items| as real);
    }
  }

  /** A part of a positive whole is between 0 and 100 percent of it, and 100 percent only when it is the whole. */
  lemma Share(part: real, whole: real)
    requires 0.0 <= part <= whole && whole > 0.0
    ensures 0.0 <= part / whole * 100.0 <= 100.0
    ensures part / whole * 100.0 == 100.0 <==> part == whole
  {
    var q := part / whole;
    assert 0.0 <= q <= 1.0;
    if q == 1.0 {
      assert q * whole == part;
    }
    if part == whole {
      assert whole / whole == 1.0;
    }
  }

  function InitialItems(): seq<Item>
  {
    [ Item("1", "Passport", false, Essentials),
      Item("2", "Phone charger", false, Electronics),
      Item("3", "T-shirts", false, Clothing),
      Item("4", "Toothbrush", false, Toiletries),
      Item("5", "Camera", false, Electronics),
      Item("6", "Sunglasses", false, Misc),
      Item("7", "Medications", false, Essentials),
      Item("8", "Travel insurance", false, Essentials),
      Item("9", "Swimwear", false, Clothing),
      Item("10", "Headphones", false, Electronics) ]
  }

  class Checklist {
    var items: seq<Item>
    var newItem: string
    var newCategory: Category
    var activeCategory: CategoryFilter

    constructor ()
      ensures items == InitialItems() && newItem == "" && newCategory == Essentials && activeCategory == All
    {
      items := InitialItems();
      newItem := "";
      newCategory := Essentials;
      activeCategory := All;
    }

    /** `addItem`: adds the typed name when it is not blank, then clears the input. */
    method AddItem(freshId: string)
      modifies this
      ensures items == WithItem(old(items), old(newItem), old(newCategory), freshId)
      ensures newItem == if Trim(old(newItem)) != "" then "" else old(newItem)
      ensures newCategory == old(newCategory) && activeCategory == old(activeCategory)
    {
      if Trim(newItem) != "" {
        items := items + [Item(freshId, newItem, false, newCategory)];
        newItem := "";
      }
    }

    method ToggleItem(id: string)
      modifies this
      ensures items == Toggle(old(items), id)
      ensures newItem == old(newItem) && newCategory == old(newCategory) && activeCategory == old(activeCategory)
    {
      items := Toggle(items, id);
    }

    method RemoveItem(id: string)
      modifies this
      ensures items == WithoutId(old(items), id)
      ensures newItem == old(newItem) && newCategory == old(newCategory) && activeCategory == old(activeCategory)
    {
      items := Filter(LacksId(id), items);
    }
  }
}
