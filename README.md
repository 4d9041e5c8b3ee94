# Travel dashboard widgets: a Dafny model

This project models the state-handling core of a single-page travel dashboard. The
dashboard's widgets each keep a small in-memory list and change it through event
handlers. Rendering, animation and browser calls are stripped away; what is left is
modelled here, one Dafny module per component:

- `SchedulePuzzle` (`schedule_puzzle.dfy`): the itinerary puzzle. Activities move between
  an unassigned pool and four day buckets of 720 minutes each. A move into a day is
  admitted only if it fits the day's remaining minutes. `currentCapacity` stays equal to
  the sum of the day's durations. A move that takes a day from under 90% full to at least
  90% full raises a "just completed" signal. The handler is the class method
  `Puzzle.OnDragEnd`, proved equal to the pure function `Drag`, about which the lemmas
  speak. `formatDuration` is modelled together with a parser that reads its labels back.
- `ItineraryBoard` (`itinerary_board.dfy`): drag-and-drop reordering inside a day and
  moves between days, with no capacity limit, plus the "add activity" form.
- `BudgetTracker`: adding and removing expenses, the total, what is left of the budget,
  the per-category breakdown and the three largest expenses.
- `PackingChecklist`: adding, toggling and removing items, the category filter and the
  packing progress.
- `TripCountdown`: the countdown split into days, hours, minutes and seconds, the
  zero-padded digit strings, the day-plan building loop, note saving and day numbers.
- `TravelGallery`: wrap-around next/previous navigation and likes.
- `DestinationList`: favourites, the weather icon per region, and the region and search
  filter.
- `AirportNavigation`: the gate and amenity filters.
- `LanguageCheatSheet`: phrase lookup by language, the phrase filter and the category
  tabs.
- `TripMoodboard`: adding, removing, rotating and scaling stickers.

Shared modules: `Lists` holds JavaScript's array `filter`, `findIndex`, `splice`-style
insertion and removal, sums, and the de-duplication a `Set` performs. `Text` holds
`toLowerCase`, `includes`, `trim`, `toString` on non-negative integers and `padStart`.
`DragDrop` holds the `{source, destination}` record the drag library passes to
`onDragEnd`.

Components whose handlers replace React state are classes: the state variables are
fields, and each handler is a method whose `ensures` ties the new fields to a pure
function of the old ones. The properties are lemmas about those functions. Pure
expressions, such as the airport and phrase filters, are functions.

Modelling choices:
- Durations, amounts and dates are integers. Dates are whole day numbers.
- The 90% threshold `current >= max * 0.9` is written `10 * current >= 9 * max`.
- Fresh ids (`Date.now()`), random numbers (`Math.random()`) and the current time are
  parameters.
- The drag library only reports drags of items that exist. This is the precondition
  `SourceInRange` on the drag handlers: the source index is a position in the source list.

## Model

| member | source | states |
|---|---|---|
| SchedulePuzzle.Puzzle.OnDragEnd | components/schedule-puzzle.tsx:122-202 | the handler's new days, pool and completion signal are exactly those of `Drag`, and every day stays within capacity with `currentCapacity` equal to its durations' sum |
| SchedulePuzzle.Puzzle.constructor | components/schedule-puzzle.tsx:117-119 | starts with the four empty 720-minute days, the six sample activities in the pool and no completed day |
| SchedulePuzzle.InitialDays | components/schedule-puzzle.tsx:81-114 | the initial days satisfy the capacity invariant (empty, at 0 of 720 minutes) |
| SchedulePuzzle.Drag | components/schedule-puzzle.tsx:122-202 | a drop never adds, removes or reorders days and keeps every day's id and maximum; a completion signal is raised only by a pool-to-day move and names the destination day |
| SchedulePuzzle.DropOutsideOrInPlaceChangesNothing | components/schedule-puzzle.tsx:126-132 | a drop with no destination, or onto its own list at its own index, leaves days and pool unchanged and raises no signal |
| SchedulePuzzle.OtherDragsChangeNothing | components/schedule-puzzle.tsx:135-179 | a day-to-day drag and a reorder inside one list match neither branch and change nothing |
| SchedulePuzzle.OverfullMoveRefused | components/schedule-puzzle.tsx:146-150 | a pool-to-day move whose duration would push the day over its maximum is refused, with days and pool unchanged |
| SchedulePuzzle.AdmittedMoveAppends | components/schedule-puzzle.tsx:152-175 | an admitted move appends the activity at the end of the day whatever the drop index, adds exactly its duration, removes it from the pool at the source index and leaves every other day unchanged |
| SchedulePuzzle.ReturnToPool | components/schedule-puzzle.tsx:178-200 | a day-to-pool move removes the activity at the source index, subtracts its duration, appends it to the pool, raises no signal and leaves other days unchanged |
| SchedulePuzzle.CompletionSignal | components/schedule-puzzle.tsx:159-166 | the signal is raised, naming the destination day, if and only if an admitted pool-to-day move takes the day from below 90% full to at least 90% full |
| SchedulePuzzle.NoSignalWhenAlreadyComplete | components/schedule-puzzle.tsx:160-162 | a drop onto a day already at least 90% full never raises the signal |
| SchedulePuzzle.DragKeepsDaysValid | components/schedule-puzzle.tsx:146-200 | every drop keeps each day at or below its maximum and its `currentCapacity` equal to the sum of its activities' durations |
| SchedulePuzzle.DragConservesActivities | components/schedule-puzzle.tsx:169-200 | the multiset of activities in the pool and all days together is the same after every drop |
| SchedulePuzzle.FormatDuration | components/schedule-puzzle.tsx:205-209 | the label opens with the decimal digits of the whole hours followed by "h", and it ends in "h" for a whole number of hours and in "m" otherwise |
| SchedulePuzzle.FormatDurationRoundTrip | components/schedule-puzzle.tsx:205-209 | the label "<m div 60>h" with " <m mod 60>m" when nonzero reads back as exactly m minutes |
| SchedulePuzzle.FormatDurationMinutePart | components/schedule-puzzle.tsx:207-208 | the label shows a minute part exactly when the minutes are not a whole number of hours |
| ItineraryBoard.Board.OnDragEnd | components/itinerary-board.tsx:142-185 | the handler's new days are exactly `Drop` of the old days; the form is untouched |
| ItineraryBoard.Board.AddNewItem | components/itinerary-board.tsx:187-207 | the new days are `AddItem` of the old state; after an add the form and the picked day are reset, otherwise both stay as they were |
| ItineraryBoard.Board.SelectDay | components/itinerary-board.tsx:231 | "Add Activity" picks the day for the form and changes nothing else |
| ItineraryBoard.Board.constructor | components/itinerary-board.tsx:132-140 | starts with the two sample days, no picked day and an empty form |
| ItineraryBoard.Drop | components/itinerary-board.tsx:142-185 | a drop never adds, removes or reorders days and keeps each day's id and date |
| ItineraryBoard.UnmatchedDropChangesNothing | components/itinerary-board.tsx:146-155 | no destination, or a source or destination day id that is not found, leaves the days unchanged |
| ItineraryBoard.SameDayReorder | components/itinerary-board.tsx:157-165 | a same-day drop makes the day's items exactly the old items with the dragged one taken out at the source index and put back at the destination index (the end if past it), so the day keeps its length and multiset; other days are unchanged |
| ItineraryBoard.InPlaceDropIsIdentity | components/itinerary-board.tsx:158-163 | with unique day ids, dropping an item on its own position returns the days unchanged |
| ItineraryBoard.CrossDayMove | components/itinerary-board.tsx:166-184 | a cross-day drop makes the source day its old items without the dragged one and the destination day exactly its old items with the dragged one inserted at the destination index (the end if past it); no capacity check; other days unchanged |
| ItineraryBoard.DropConservesItems | components/itinerary-board.tsx:158-184 | with unique day ids, the multiset of all items across days is the same after every drop |
| ItineraryBoard.AddItem | components/itinerary-board.tsx:187-197 | an add never adds, removes or reorders days, keeps each day's id and date and never shortens a day |
| ItineraryBoard.AddItemEffect | components/itinerary-board.tsx:187-197 | with no picked day, activity or time nothing changes; otherwise exactly the form's item with the fresh id is appended to the picked day and to no other |
| ItineraryBoard.AddItemGrowsPool | components/itinerary-board.tsx:195-197 | with unique day ids, an add grows the multiset of all items by exactly the new item |
| BudgetTracker.AddExpenseEffect | components/budget-tracker.tsx:50-58 | an expense is appended, with the form's fields and the fresh id, only when the description is non-empty and the amount positive; otherwise the list is unchanged |
| BudgetTracker.Tracker.AddExpense | components/budget-tracker.tsx:50-67 | the new list is `WithExpense` of the old one, and after a successful add the form is reset to empty, 0 and "other" |
| BudgetTracker.Tracker.RemoveExpense | components/budget-tracker.tsx:69-71 | the new list is the old one without the expenses with that id |
| BudgetTracker.Tracker.constructor | components/budget-tracker.tsx:32-47 | starts with the five sample expenses, an empty form and a budget of 2000 |
| BudgetTracker.WithExpense | components/budget-tracker.tsx:50-58 | the earlier expenses stay in place as a prefix, and the list grows by one exactly when the description is non-empty and the amount positive |
| BudgetTracker.WithoutId | components/budget-tracker.tsx:69-71 | the result keeps some of the expenses in their order, none of them with the removed id |
| BudgetTracker.RemoveExpenseEffect | components/budget-tracker.tsx:69-71 | removal leaves no expense with the id and keeps every other expense, as often as it occurred, in its original order |
| BudgetTracker.Total | components/budget-tracker.tsx:73 | the total of expenses with non-negative amounts is non-negative |
| BudgetTracker.Remaining | components/budget-tracker.tsx:74 | with non-negative amounts, what is left never exceeds the budget |
| BudgetTracker.AddExpenseTotal | components/budget-tracker.tsx:73-74 | an accepted expense raises the total by its amount and lowers the remaining budget by as much; a refused one changes neither |
| BudgetTracker.RemoveExpenseTotal | components/budget-tracker.tsx:69-74 | the total after removal plus the removed expenses' amounts is the total before |
| BudgetTracker.TallyAllValues | components/budget-tracker.tsx:77-83 | folding expenses into the record adds each category's amount sum to its entry |
| BudgetTracker.TallyAllKeys | components/budget-tracker.tsx:77-83 | folding expenses into the record creates an entry for exactly the categories that occur |
| BudgetTracker.ByCategory | components/budget-tracker.tsx:77-83 | every category's entry, 0 when absent, is the sum of the amounts of that category's expenses |
| BudgetTracker.ByCategoryEntries | components/budget-tracker.tsx:77-83 | each breakdown entry is the sum of the amounts in that category, and entries exist exactly for the categories present |
| BudgetTracker.CategoryTotalsAddUp | components/budget-tracker.tsx:73-83 | the six category sums add up to the total |
| BudgetTracker.ByCategoryAddsUpToTotal | components/budget-tracker.tsx:73-83 | the breakdown's entries add up to `totalExpenses` |
| BudgetTracker.SortByAmount | components/budget-tracker.tsx:300 | the sort yields a permutation of the expenses in non-increasing amount order |
| BudgetTracker.SortByAmountIsStable | components/budget-tracker.tsx:300 | the sort is stable: for every amount, the expenses with that amount come out in the order they were entered |
| BudgetTracker.TopThree | components/budget-tracker.tsx:299-301 | the top list has min(3, n) entries, in non-increasing order, drawn from the expenses |
| BudgetTracker.TopExpensesAreLargest | components/budget-tracker.tsx:299-301 | the top list has min(3, n) entries in non-increasing order, drawn from the expenses, each at least as large as every omitted expense |
| BudgetTracker.Tracker.TopExpensesAsRendered | components/budget-tracker.tsx:299-301 | as written: the stored list itself is replaced by its sorted order, and the first three are shown |
| BudgetTracker.RenderReordersInitialExpenses | components/budget-tracker.tsx:299-300 | sorting the initial expenses changes their order, so the in-place sort reorders the stored list |
| BudgetTracker.Tracker.TopExpenses | components/budget-tracker.tsx:299-301 | the top list computed from a copy: the stored list is untouched and the result is the top three |
| PackingChecklist.AddItemEffect | components/packing-checklist.tsx:64-77 | a name of white space only adds nothing; any other name appends one unpacked item with the untrimmed name and the chosen category |
| PackingChecklist.Checklist.AddItem | components/packing-checklist.tsx:64-77 | the new list is `WithItem` of the old one, and the input is cleared exactly when an item was added |
| PackingChecklist.Toggle | components/packing-checklist.tsx:97-99 | the packed flag flips on the items with the id only; length, order and every other field are kept |
| PackingChecklist.ToggleTwice | components/packing-checklist.tsx:97-99 | toggling the same id twice restores the list |
| PackingChecklist.Checklist.ToggleItem | components/packing-checklist.tsx:79-99 | the new list is `Toggle` of the old one; nothing else changes |
| PackingChecklist.RemoveItemEffect | components/packing-checklist.tsx:103-105 | removal leaves no item with the id and keeps the rest in order |
| PackingChecklist.Checklist.RemoveItem | components/packing-checklist.tsx:103-105 | the new list is the old one without the items with that id |
| PackingChecklist.Checklist.constructor | components/packing-checklist.tsx:44-59 | starts with the ten sample items unpacked, an empty input, category essentials and the "all" tab |
| PackingChecklist.WithItem | components/packing-checklist.tsx:64-77 | the old items stay in place as a prefix, and at most one item is added, unpacked and with the name as typed |
| PackingChecklist.WithoutId | components/packing-checklist.tsx:103-105 | the result keeps some of the items in their order, none of them with the removed id |
| PackingChecklist.Filtered | components/packing-checklist.tsx:107 | the shown items keep the list's order, and a category tab shows only items of that category |
| PackingChecklist.FilteredEffect | components/packing-checklist.tsx:107 | the "all" tab shows every item; a category tab shows exactly that category's items, in order |
| PackingChecklist.PackedCount | components/packing-checklist.tsx:109 | no more items are packed than there are items |
| PackingChecklist.Progress | components/packing-checklist.tsx:110 | progress lies between 0 and 100 percent |
| PackingChecklist.ProgressBounds | components/packing-checklist.tsx:109-110 | packedCount is at most the length; progress is 0 for an empty list, lies in [0, 100], and is 100 exactly when all of a non-empty list is packed |
| TripCountdown.Decompose | components/trip-countdown.tsx:81-86 | the seconds to go, clamped at 0, equal days*86400 + hours*3600 + minutes*60 + seconds with hours < 24 and minutes, seconds < 60 |
| TripCountdown.DecomposeUnique | components/trip-countdown.tsx:83-86 | the decomposition is the only one with its fields in range |
| TripCountdown.PastDepartureShowsZero | components/trip-countdown.tsx:81 | a departure already past shows all zeros |
| TripCountdown.DisplayOf | components/trip-countdown.tsx:89-92 | each of the four strings is made of decimal digits and reads back as its field's value |
| TripCountdown.DisplayDigits | components/trip-countdown.tsx:89-92 | padding keeps each field's value; hours, minutes and seconds are two digits, and days three exactly when below 1000 (never fewer) |
| TripCountdown.ShownDays | components/trip-countdown.tsx:95-103 | the board always shows exactly three decimal digits for the days |
| TripCountdown.ShownDaysExact | components/trip-countdown.tsx:95-103 | the three day digits shown equal the true number of days exactly when it is below 1000 |
| TripCountdown.BuildPlans | components/trip-countdown.tsx:53-70 | the loop builds exactly `Plans(departure, return)` |
| TripCountdown.Plans | components/trip-countdown.tsx:53-69 | there are returnDate - departure + 1 plans, none if the return comes first, and plan i is dated departure + i |
| TripCountdown.PlansShape | components/trip-countdown.tsx:54-69 | there is one plan per day from departure to return, none if the return comes first; ids are "day-1" onwards and dates are departure + i; the first plan gets the arrival note, even on a one-day trip, and the last the departure note |
| TripCountdown.PlanIdsDistinct | components/trip-countdown.tsx:59-60 | no two plans share an id |
| TripCountdown.DayNumber | components/trip-countdown.tsx:181-183 | the day number is at least 1 exactly for dates from the departure on, and departure + (number - 1) is the date again |
| TripCountdown.DayNumberOfPlan | components/trip-countdown.tsx:181-183 | the day number of plan i's date is i + 1 |
| TripCountdown.WithNotes | components/trip-countdown.tsx:169-173 | saving keeps the number of plans and every plan's id and date |
| TripCountdown.SaveNotesEffect | components/trip-countdown.tsx:169-173 | saving replaces the notes of the selected day's plans only and leaves every other plan untouched |
| TripCountdown.FirstSelectionIsArrivalDay | components/trip-countdown.tsx:71-73 | a plan is opened exactly when the return date is not before the departure, and it is "day-1" on the departure date with the arrival note |
| TripCountdown.AsWrittenFirstPlanMissing | components/trip-countdown.tsx:72-73 | with the return date one day before the departure no plan is built, so there is no first plan to read |
| TripCountdown.InitialTripHasFifteenDays | components/trip-countdown.tsx:28-29 | the initial dates, 45 and 59 days ahead, give fifteen plans starting with the arrival note |
| TripCountdown.Planner.OnDatesChanged | components/trip-countdown.tsx:46-75 | sets the days left; only when there are no plans does it build them and open the first one, or none |
| TripCountdown.Planner.constructor | components/trip-countdown.tsx:27-75 | after mounting, the trip has fifteen plans with the first one open for editing |
| TripCountdown.Planner.ChangeDepartureDate | components/trip-countdown.tsx:140-143 | a new departure date updates the days left and keeps plans already built |
| TripCountdown.Planner.ChangeReturnDate | components/trip-countdown.tsx:254 | a new return date updates the date and keeps plans already built |
| TripCountdown.Planner.SaveNotes | components/trip-countdown.tsx:169-173 | the plans become `WithNotes` of the old plans, selection and edited notes |
| TripCountdown.Planner.SelectDay | components/trip-countdown.tsx:175-179 | saves the edited notes, then opens the given day with its notes |
| TravelGallery.StepsStayInRange | components/travel-gallery.tsx:103-107 | from any index, or from -1 for a photo not found, both "next" and "prev" land in [0, n) |
| TravelGallery.StepsAreInverse | components/travel-gallery.tsx:103-107 | "prev" after "next", and "next" after "prev", return to the starting index |
| TravelGallery.Navigate | components/travel-gallery.tsx:97-109 | a photo is shown after a step exactly when one was open and the gallery is not empty, and it is one of the gallery's photos |
| TravelGallery.NavigateRoundTrip | components/travel-gallery.tsx:97-109 | with unique ids, stepping one way and back reopens the photo that was open |
| TravelGallery.Gallery.NavigatePhoto | components/travel-gallery.tsx:97-110 | with no photo open nothing changes; otherwise the open photo becomes the neighbour `Navigate` picks |
| TravelGallery.Liked | components/travel-gallery.tsx:112-113 | the like flag flips on the photos with the id only; length, order and other fields are kept |
| TravelGallery.ToggleSelected | components/travel-gallery.tsx:116-118 | the open photo's copy flips its like exactly when it is the toggled photo |
| TravelGallery.ToggleLikeTwice | components/travel-gallery.tsx:112-118 | liking twice restores both the grid and the open photo |
| TravelGallery.ToggleKeepsViewerInSync | components/travel-gallery.tsx:112-118 | an open photo taken from the grid stays equal to its grid entry after a like |
| TravelGallery.Gallery.ToggleLike | components/travel-gallery.tsx:112-119 | the grid becomes `Liked` and the open photo `ToggleSelected` of their old values |
| TravelGallery.Gallery.OpenModal | components/travel-gallery.tsx:89-91 | opens the given photo |
| TravelGallery.Gallery.CloseModal | components/travel-gallery.tsx:93-95 | closes the viewer |
| TravelGallery.Gallery.constructor | components/travel-gallery.tsx:86-87 | starts with the eight sample photos and no photo open |
| DestinationList.WeatherIcon | components/destination-list.tsx:118-128 | each of the five known regions maps to its icon, and exactly the other strings map to the cloud |
| DestinationList.Favorited | components/destination-list.tsx:164-167 | the favourite flag flips on the destinations with the id only; every other field and destination is kept |
| DestinationList.ToggleFavoriteTwice | components/destination-list.tsx:164-167 | toggling twice restores the list |
| DestinationList.Visible | components/destination-list.tsx:174-193 | the shown list keeps the listed order, and every shown destination is in the active region (any, for "all") |
| DestinationList.VisibleEffect | components/destination-list.tsx:174-193 | the shown list is an order-preserving subsequence; a destination is shown iff its region is the active one (any, for "all") and, for a non-empty query, the lower-cased query occurs in its lower-cased name, country or description |
| DestinationList.NoFilterShowsAll | components/destination-list.tsx:175-193 | region "all" with an empty query shows the whole list |
| DestinationList.Explorer.RefreshFiltered | components/destination-list.tsx:174-193 | the effect sets the shown list to `Visible` of the current state |
| DestinationList.Explorer.ToggleFavorite | components/destination-list.tsx:164-167 | the list becomes `Favorited`, and the shown list is refreshed |
| DestinationList.Explorer.SetActiveRegion | components/destination-list.tsx:231 | picking a region refreshes the shown list |
| DestinationList.Explorer.SetSearchQuery | components/destination-list.tsx:219 | typing a query refreshes the shown list |
| DestinationList.Explorer.HandleExplore | components/destination-list.tsx:169-172 | opens the dialog for the destination and changes nothing else |
| DestinationList.Explorer.constructor | components/destination-list.tsx:157-162 | starts with the eight destinations all shown, region "all" and an empty query |
| AirportNavigation.FilteredGates | components/airport-navigation.tsx:206-223 | the shown gates are an order-preserving subsequence of the gates |
| AirportNavigation.FilteredGatesMembership | components/airport-navigation.tsx:206-223 | a gate is shown iff the terminal filter is "all" or its terminal and, for a non-empty query, the lower-cased query occurs in its number, airline or destination |
| AirportNavigation.FilteredAmenities | components/airport-navigation.tsx:225-242 | the shown amenities are an order-preserving subsequence of the amenities |
| AirportNavigation.FilteredAmenitiesMembership | components/airport-navigation.tsx:225-242 | an amenity is shown iff the terminal filter is "all" or its terminal and, for a non-empty query, the query occurs in its name, type or description |
| AirportNavigation.NoFilterShowsEverything | components/airport-navigation.tsx:206-242 | terminal "all" with an empty query shows both lists whole and in order |
| AirportNavigation.GateShown | components/airport-navigation.tsx:206-223 | a gate in another terminal than the filter's is never shown, whatever the query; with an empty query the terminal test alone decides |
| AirportNavigation.AmenityShown | components/airport-navigation.tsx:225-242 | an amenity in another terminal than the filter's is never shown, whatever the query; with an empty query the terminal test alone decides |
| LanguageCheatSheet.PhrasesFor | components/language-cheat-sheet.tsx:45-117 | "fr" and "es" give their phrase lists, and every other code gives the empty list |
| LanguageCheatSheet.FilteredPhrases | components/language-cheat-sheet.tsx:119-132 | the shown phrases are an order-preserving subsequence of the phrases |
| LanguageCheatSheet.FilteredPhrasesMembership | components/language-cheat-sheet.tsx:119-132 | a phrase is shown iff the tab is "all" or its category and, for a non-empty query, the lower-cased query occurs in its English text or translation |
| LanguageCheatSheet.PronunciationNotSearched | components/language-cheat-sheet.tsx:126-129 | changing a phrase's pronunciation never changes whether it is shown |
| LanguageCheatSheet.Categories | components/language-cheat-sheet.tsx:135 | the first tab is "all", and every phrase's category has a tab |
| LanguageCheatSheet.CategoriesEffect | components/language-cheat-sheet.tsx:135 | the tabs are "all" followed by each phrase category exactly once, in first-occurrence order |
| TripMoodboard.NewSticker | components/trip-moodboard.tsx:160-169 | the new sticker has the fresh id and scale 1, the typed text for a text sticker and the argument otherwise, the time or none when it is empty, and its position and rotation in the ranges the random draws allow |
| TripMoodboard.Moodboard.AddSticker | components/trip-moodboard.tsx:157-174 | a text sticker with no text changes nothing; otherwise exactly one `NewSticker` is appended and both inputs are cleared |
| TripMoodboard.WithoutId | components/trip-moodboard.tsx:176-177 | the result keeps some of the stickers in their order, none of them with the removed id |
| TripMoodboard.RemoveStickerEffect | components/trip-moodboard.tsx:176-177 | removal keeps exactly the stickers with other ids, in order |
| TripMoodboard.Moodboard.RemoveSticker | components/trip-moodboard.tsx:176-181 | the stickers lose that id, and the selection is cleared exactly when it was that id |
| TripMoodboard.Moodboard.SelectSticker | components/trip-moodboard.tsx:248 | clicking a sticker selects it and changes nothing else |
| TripMoodboard.Rotated | components/trip-moodboard.tsx:183-194 | only the matching stickers' rotation changes, by -15 for left and +15 for right |
| TripMoodboard.RotateThereAndBack | components/trip-moodboard.tsx:183-194 | left then right, or right then left, restores the board |
| TripMoodboard.Moodboard.RotateSticker | components/trip-moodboard.tsx:183-194 | the stickers become `Rotated` of the old ones |
| TripMoodboard.Scaled | components/trip-moodboard.tsx:196-207 | only the matching stickers' scale changes, to the slider's first value; every other field and sticker is kept |
| TripMoodboard.ScaleOverrides | components/trip-moodboard.tsx:196-207 | scaling twice keeps only the last value |
| TripMoodboard.Moodboard.ScaleSticker | components/trip-moodboard.tsx:196-207 | the stickers become `Scaled` of the old ones |
| TripMoodboard.Moodboard.constructor | components/trip-moodboard.tsx:88-132 | starts with the four sample stickers, no selection and empty inputs |

## Left out

- All JSX rendering, framer-motion animation and styling.
- The `setTimeout` that clears `recentlyCompleted` after two seconds: the model records the completed day and returns it as an event.
- The flying-item animation of the packing checklist: it needs DOM measurement (`getBoundingClientRect`) and a timer.
- Moodboard sticker dragging (`handleStickerDrag`): it needs the board's DOM measurement.
- Clipboard writes and speech in the cheat sheet, `getLocalTime` in the destination list, the travel-type selector, and the trip name input: browser calls or display only.
- The dashboard's landing animation, tab routing, layout and the currency converter: floating-point rates, a timer-simulated request and display formatting.
- Date arithmetic (`new Date()`, `differenceInDays`, `addDays`, `differenceInSeconds`): dates are whole day numbers and times whole seconds, given as parameters.
- Floating point: amounts and durations are unbounded integers, and progress is a Dafny `real`. The 90% threshold is integer cross-multiplication, so the rounding of `max * 0.9` in binary floating point is not captured. The budget percentage and progress-bar colours are not modelled.
- Text: `toLowerCase` is modelled on the ASCII letters A to Z only; other characters are left as they are.
- The flip-digit animation state of the countdown (`TimeDigit` records) and the interval timer: only the digit strings they display are modelled.
- TripCountdown.Planner.OnDatesChanged: on the path with no plans and a return date before the departure it selects nothing instead of throwing, and so do the constructor, `ChangeDepartureDate` and `ChangeReturnDate`, which run it; no member models the throw. That path is not reachable from the initial state.
- The `{source, destination}` record of the drag library is an input; that a reported source index lies inside its list is a precondition of the drag handlers.

## Findings

| source | as written | input that shows it | evidently intended | confidence | as-written member | corrected member |
|---|---|---|---|---|---|---|
| components/trip-countdown.tsx:72-73 | after building the plans the effect reads `initialPlans[0].notes` without checking that a plan was built | a latent defect that no user action reaches: the plans are built only while none exist, which is once, on mount, for the fixed fifteen-day trip, and `dayPlans` is written only at lines 71 and 171, neither of which empties it (the `Planner` contracts show this). Only the effect run with no plans and a return date one day before the departure builds zero plans, and then the read of `initialPlans[0].notes` would throw | open the first plan only when there is one | not executed; the loop bound and the unguarded index are plain in the code, and the path is unreachable from the initial state | TripCountdown.AsWrittenFirstPlanMissing | TripCountdown.FirstSelectionIsArrivalDay |
| components/budget-tracker.tsx:299-301 | the summary sorts the `expenses` state array itself to pick the top three | the initial expenses (museum tickets, 40, before souvenir shopping, 65): rendering the summary reorders the stored list | sort a copy and leave the stored list in the order of entry | not executed; `Array.prototype.sort` sorts in place | BudgetTracker.Tracker.TopExpensesAsRendered | BudgetTracker.Tracker.TopExpenses |
