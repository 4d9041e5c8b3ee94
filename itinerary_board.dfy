/**
  The interactive itinerary: a list of days, each with an ordered list of
  activities. Activities are dragged to a new position in their day or into
  another day, with no capacity limit, and new activities are appended to the
  day the user picked.
 */
module ItineraryBoard {
  import opened Lists
  import opened DragDrop

  datatype Category = Sightseeing | Food | Transportation | Accommodation | Other

  datatype ItineraryItem = ItineraryItem(
    id: string,
    time: string,
    activity: string,
    location: string,
    notes: string,
    category: Category)

  /** The add-activity form: an item without its id. */
  datatype ItemDraft = ItemDraft(
    time: string,
    activity: string,
    location: string,
    notes: string,
    category: Category)

  datatype DayPlan = DayPlan(id: string, date: string, items: seq<ItineraryItem>)

  const EmptyDraft := ItemDraft("", "", "", "", Other)

  function Items(d: DayPlan): seq<ItineraryItem>
  {
    d.items
  }

  /** Every day has its own id. */
  predicate UniqueIds(days: seq<DayPlan>)
  {
    forall i, j :: 0 <= i < |days| && 0 <= j < |days| && days[i].id == days[j].id ==> i == j
  }

  /** The position of the first day with id `id`, or -1 (what `days.find` looks up). */
  function DayIndex(days: seq<DayPlan>, id: string): (r: int)
    ensures -1 <= r < |days|
    ensures r == -1 <==> forall k :: 0 <= k < |days| ==> days[k].id != id
    ensures r >= 0 ==> days[r].id == id && forall k :: 0 <= k < r ==> days[k].id != id
  {
    FindIndex((d: DayPlan) => d.id == id, days)
  }

  /** The drag library reports only items that exist: the source index is a position in the source day. */
  predicate SourceInRange(days: seq<DayPlan>, drop: DropResult)
  {
    var k := DayIndex(days, drop.source.droppableId);
    k == -1 || drop.source.index < |days[k].items|
  }

  /** Every day with id `id` gets `items`; the others are kept (`days.map` with a spread). */
  function WithItems(days: seq<DayPlan>, id: string, items: seq<ItineraryItem>): (r: seq<DayPlan>)
    ensures |r| == |days|
    ensures forall k :: 0 <= k < |days| ==>
              r[k] == if days[k].id == id then days[k].(items := items) else days[k]
  {
    seq(|days|, k requires 0 <= k < |days| => if days[k].id == id then days[k].(items := items) else days[k])
  }

  /** The effect of `onDragEnd` on the days. */
  function Drop(days: seq<DayPlan>, drop: DropResult): (r: seq<DayPlan>)
    requires SourceInRange(days, drop)
    ensures |r| == |days|
    ensures forall k :: 0 <= k < |days| ==> r[k].id == days[k].id && r[k].date == days[k].date
  {
    if drop.destination.None? then days
    else
      var src, dst := drop.source, drop.destination.value;
      var si, di := DayIndex(days, src.droppableId), DayIndex(days, dst.droppableId);
      if si == -1 || di == -1 then days
      else
        var removed := days[si].items[src.index];
        if src.droppableId == dst.droppableId then
          WithItems(days, src.droppableId, InsertAt(RemoveAt(days[si].items, src.index), dst.index, removed))
        else
          var sourceItems := RemoveAt(days[si].items, src.index);
          var destItems := InsertAt(days[di].items, dst.index, removed);
          WithItems(WithItems(days, src.droppableId, sourceItems), dst.droppableId, destItems)
  }

  // ---------------------------------------------------------------------------
  // Properties of a drop

  /** A drop outside every list, or naming a day that does not exist, changes nothing. */
  lemma UnmatchedDropChangesNothing(days: seq<DayPlan>, drop: DropResult)
    requires SourceInRange(days, drop)
    requires drop.destination.None? || DayIndex(days, drop.source.droppableId) == -1
             || DayIndex(days, drop.destination.value.droppableId) == -1
    ensures Drop(days, drop) == days
  {
  }

  /**
    A drop inside one day takes the item out at the source index and puts it back at
    the destination index (the end, if that is past it): the day keeps its length and
    its items, and no other day changes.
   */
  lemma SameDayReorder(days: seq<DayPlan>, drop: DropResult)
    requires SourceInRange(days, drop)
    requires drop.destination.Some? && drop.destination.value.droppableId == drop.source.droppableId
    requires DayIndex(days, drop.source.droppableId) != -1
    ensures var r, id := Drop(days, drop), drop.source.droppableId;
            var day := days[DayIndex(days, id)];
            var n, to := |day.items|, drop.destination.value.index;
            |r| == |days|
            && (forall k :: 0 <= k < |days| && days[k].id != id ==> r[k] == days[k])
            && forall k :: 0 <= k < |days| && days[k].id == id ==>
                 r[k].id == days[k].id && r[k].date == days[k].date
                 && |r[k].items| == n
                 && multiset(r[k].items) == multiset(day.items)
                 && r[k].items[if to < n then to else n - 1] == day.items[drop.source.index]
                 && r[k].items == InsertAt(RemoveAt(day.items, drop.source.index), to, day.items[drop.source.index])
  {
    var id := drop.source.droppableId;
    var day := days[DayIndex(days, id)];
    var i := drop.source.index;
    var rest := RemoveAt(day.items, i);
    assert multiset(InsertAt(rest, drop.destination.value.index, day.items[i])) == multiset(day.items);
  }

  /** Dropping an item back where it came from leaves the days as they were, when day ids are unique. */
  lemma InPlaceDropIsIdentity(days: seq<DayPlan>, drop: DropResult)
    requires SourceInRange(days, drop) && UniqueIds(days)
    requires drop.destination == Some(drop.source)
    ensures Drop(days, drop) == days
  {
    var k := DayIndex(days, drop.source.droppableId);
    if k != -1 {
      RemoveThenInsertSame(days[k].items, drop.source.index);
      assert days[k].(items := days[k].items) == days[k];
    }
  }

  /**
    A drop into another day moves the item with no capacity check: the source day loses
    it, the destination day has it at the destination index (the end, if that is past
    it) and is one longer, and every other day is kept.
   */
  lemma CrossDayMove(days: seq<DayPlan>, drop: DropResult)
    requires SourceInRange(days, drop)
    requires drop.destination.Some? && drop.destination.value.droppableId != drop.source.droppableId
    requires DayIndex(days, drop.source.droppableId) != -1
    requires DayIndex(days, drop.destination.value.droppableId) != -1
    ensures var r, from, into := Drop(days, drop), drop.source.droppableId, drop.destination.value.droppableId;
            var src, dst := days[DayIndex(days, from)], days[DayIndex(days, into)];
            var moved, to := src.items[drop.source.index], drop.destination.value.index;
            |r| == |days|
            && (forall k :: 0 <= k < |days| && days[k].id != from && days[k].id != into ==> r[k] == days[k])
            && (forall k :: 0 <= k < |days| && days[k].id == from ==>
                  r[k] == days[k].(items := RemoveAt(src.items, drop.source.index))
                  && |r[k].items| == |src.items| - 1)
            && forall k :: 0 <= k < |days| && days[k].id == into ==>
                  r[k].id == days[k].id && r[k].date == days[k].date
                  && |r[k].items| == |dst.items| + 1
                  && r[k].items[if to < |dst.items| then to else |dst.items|] == moved
                  && r[k] == days[k].(items := InsertAt(dst.items, to, moved))
  {
  }

  /** With unique day ids no drop loses, duplicates or invents an item. */
  lemma DropConservesItems(days: seq<DayPlan>, drop: DropResult)
    requires SourceInRange(days, drop) && UniqueIds(days)
    ensures Pooled(Items, Drop(days, drop)) == Pooled(Items, days)
  {
    var r := Drop(days, drop);
    if drop.destination.Some? {
      var src, dst := drop.source, drop.destination.value;
      var si, di := DayIndex(days, src.droppableId), DayIndex(days, dst.droppableId);
      if si != -1 && di != -1 {
        var moved := days[si].items[src.index];
        var taken := RemoveAt(days[si].items, src.index);
        if src.droppableId == dst.droppableId {
          assert r == days[si := days[si].(items := InsertAt(taken, dst.index, moved))];
          PooledAdd(Items, days, si, r[si], multiset{});
        } else {
          var mid := days[si := days[si].(items := taken)];
          assert r == mid[di := days[di].(items := InsertAt(days[di].items, dst.index, moved))];
          PooledRemove(Items, days, si, mid[si], multiset{moved});
          PooledAdd(Items, mid, di, r[di], multiset{moved});
        }
      }
    }
  }

  // ---------------------------------------------------------------------------
  // Adding an activity

  /**
    Whether the add-activity form may be submitted: a day is picked (a non-empty id)
    and the activity and time are filled in.
   */
  predicate CanAdd(selectedDay: Option<string>, draft: ItemDraft)
  {
    selectedDay.Some? && selectedDay.value != "" && draft.activity != "" && draft.time != ""
  }

  /** `addNewItem`'s effect on the days: the completed item appended to the picked day, or nothing. */
  function AddItem(days: seq<DayPlan>, selectedDay: Option<string>, draft: ItemDraft, freshId: string): (r: seq<DayPlan>)
    ensures |r| == |days|
    ensures forall k :: 0 <= k < |days| ==>
              r[k].id == days[k].id && r[k].date == days[k].date && |r[k].items| >= |days[k].items|
  {
    if !CanAdd(selectedDay, draft) then days
    else
      var item := ItineraryItem(freshId, draft.time, draft.activity, draft.location, draft.notes, draft.category);
      seq(|days|, k requires 0 <= k < |days| =>
        if days[k].id == selectedDay.value then days[k].(items := days[k].items + [item]) else days[k])
  }

  /**
    An incomplete form adds nothing; a complete one appends exactly one item, carrying
    the form's fields and the fresh id, to the picked day and to no other.
   */
  lemma AddItemEffect(days: seq<DayPlan>, selectedDay: Option<string>, draft: ItemDraft, freshId: string)
    ensures var r := AddItem(days, selectedDay, draft, freshId);
            |r| == |days|
            && (!CanAdd(selectedDay, draft) ==> r == days)
            && (CanAdd(selectedDay, draft) ==>
                  forall k :: 0 <= k < |days| ==>
                    if days[k].id == selectedDay.value then
                      r[k].id == days[k].id && r[k].date == days[k].date
                      && r[k].items[..|days[k].items|] == days[k].items
                      && r[k].items[|days[k].items|..]
                         == [ItineraryItem(freshId, draft.time, draft.activity, draft.location, draft.notes, draft.category)]
                    else r[k] == days[k])
  {
    var r := AddItem(days, selectedDay, draft, freshId);
    if CanAdd(selectedDay, draft) {
      forall k | 0 <= k < |days| && days[k].id == selectedDay.value
        ensures r[k].items[..|days[k].items|] == days[k].items
      {
        assert r[k].items == days[k].items + [r[k].items[|days[k].items|]];
      }
    }
  }

  /** With unique ids, adding to a day grows the pool of items by exactly the new item. */
  lemma AddItemGrowsPool(days: seq<DayPlan>, selectedDay: Option<string>, draft: ItemDraft, freshId: string)
    requires UniqueIds(days) && CanAdd(selectedDay, draft)
    requires DayIndex(days, selectedDay.value) != -1
    ensures Pooled(Items, AddItem(days, selectedDay, draft, freshId))
            == Pooled(Items, days)
               + multiset{ItineraryItem(freshId, draft.time, draft.activity, draft.location, draft.notes, draft.category)}
  {
    var k := DayIndex(days, selectedDay.value);
    var item := ItineraryItem(freshId, draft.time, draft.activity, draft.location, draft.notes, draft.category);
    var r := AddItem(days, selectedDay, draft, freshId);
    assert r == days[k := days[k].(items := days[k].items + [item])];
    PooledAdd(Items, days, k, r[k], multiset{item});
  }

  // ---------------------------------------------------------------------------
  // The board

  function InitialDays(): (r: seq<DayPlan>)
    ensures |r| == 2 && UniqueIds(r)
  {
    [ DayPlan("day-1", "June 10, 2023", [
        ItineraryItem("item-1-1", "09:00", "Breakfast at hotel", "Hotel restaurant",
                      "Continental breakfast included with stay", Food),
        ItineraryItem("item-1-2", "10:30", "Visit Eiffel Tower", "Champ de Mars, 5 Avenue Anatole France",
                      "Pre-booked tickets for observation deck", Sightseeing),
        ItineraryItem("item-1-3", "13:00", "Lunch at Le Jules Verne", "Eiffel Tower, 2nd floor",
                      "Reservation under Smith", Food),
        ItineraryItem("item-1-4", "15:30", "Seine River Cruise", "Bateaux Parisiens, Port de la Bourdonnais",
                      "1-hour cruise, bring camera", Sightseeing),
        ItineraryItem("item-1-5", "19:00", "Dinner at Le Comptoir", "9 Carrefour de l'Odéon",
                      "Famous for traditional French cuisine", Food) ]),
      DayPlan("day-2", "June 11, 2023", [
        ItineraryItem("item-2-1", "08:30", "Breakfast at local café", "Café de Flore",
                      "Try the croissants", Food),
        ItineraryItem("item-2-2", "10:00", "Louvre Museum", "Rue de Rivoli",
                      "Focus on Mona Lisa and Venus de Milo", Sightseeing),
        ItineraryItem("item-2-3", "14:00", "Lunch in Le Marais", "L'As du Fallafel",
                      "Famous street food", Food),
        ItineraryItem("item-2-4", "16:00", "Shopping at Galeries Lafayette", "40 Boulevard Haussmann",
                      "Souvenir shopping", Other),
        ItineraryItem("item-2-5", "20:00", "Dinner and show at Moulin Rouge", "82 Boulevard de Clichy",
                      "Dress code: Smart casual", Other) ]) ]
  }

  class Board {
    var days: seq<DayPlan>
    var newItemDay: Option<string>
    var newItem: ItemDraft

    constructor ()
      ensures days == InitialDays() && newItemDay == None && newItem == EmptyDraft
    {
      days := InitialDays();
      newItemDay := None;
      newItem := EmptyDraft;
    }

    /** "Add Activity" on a day: opens the form for that day. */
    method SelectDay(id: string)
      modifies this
      ensures newItemDay == Some(id) && days == old(days) && newItem == old(newItem)
    {
      newItemDay := Some(id);
    }

    /** `onDragEnd`: copies the affected days' item lists, splices the item across and stores the new days. */
    method OnDragEnd(drop: DropResult)
      requires SourceInRange(days, drop)
      modifies this
      ensures days == Drop(old(days), drop)
      ensures newItemDay == old(newItemDay) && newItem == old(newItem)
    {
      if drop.destination.None? {
        return;
      }
      var source, destination := drop.source, drop.destination.value;
      var sourceDay := DayIndex(days, source.droppableId);
      var destDay := DayIndex(days, destination.droppableId);
      if sourceDay == -1 || destDay == -1 {
        return;
      }
      if source.droppableId == destination.droppableId {
        var newItems := days[sourceDay].items;
        var removed := newItems[source.index];
        newItems := RemoveAt(newItems, source.index);
        newItems := InsertAt(newItems, destination.index, removed);
        days := WithItems(days, source.droppableId, newItems);
      } else {
        var sourceItems := days[sourceDay].items;
        var destItems := days[destDay].items;
        var removed := sourceItems[source.index];
        sourceItems := RemoveAt(sourceItems, source.index);
        destItems := InsertAt(destItems, destination.index, removed);
        days := WithItems(WithItems(days, source.droppableId, sourceItems), destination.droppableId, destItems);
      }
    }

    /** `addNewItem`: appends the form's item to the picked day, then clears the form and the pick. */
    method AddNewItem(freshId: string)
      modifies this
      ensures days == AddItem(old(days), old(newItemDay), old(newItem), freshId)
      ensures !CanAdd(old(newItemDay), old(newItem)) ==> newItemDay == old(newItemDay) && newItem == old(newItem)
      ensures CanAdd(old(newItemDay), old(newItem)) ==> newItemDay == None && newItem == EmptyDraft
    {
      if !CanAdd(newItemDay, newItem) {
        return;
      }
      var item := ItineraryItem(freshId, newItem.time, newItem.activity, newItem.location, newItem.notes, newItem.category);
      var day, current := newItemDay.value, days;
      days := seq(|current|, k requires 0 <= k < |current| =>
        if current[k].id == day then current[k].(items := current[k].items + [item]) else current[k]);
      newItem := EmptyDraft;
      newItemDay := None;
    }
  }
}
