# Habit tracker: data layer and screen logic

A model of the data layer and screen rules of an iOS habit tracker. Users
create habits ("trackers") with a name, an emoji, a color and a weekly
schedule. They file them under categories and mark them completed day by
day.

The model covers the following parts:

- **Category table** (`TrackerCategoryStore`): titles are unique. Create,
  rename and delete refuse a missing or clashing title with a
  `CategoryError`. `fetchOrCreateCategory` returns the existing row or adds
  exactly one.
- **Completion records** (`TrackerRecordStore`):
  - a record is a tracker id and a date;
  - adding stores the start of the day;
  - removing deletes the first record of the tracker inside the day window
    `[startOfDay, startOfDay + 1 day)`;
  - the queries count a tracker's records, test for a record in a day
    window, and collect all complete records into a set.
- **Tracker table and the daily view** (`TrackerStore`):
  - trackers are read through a fetch sorted by name;
  - rows missing a required attribute are dropped;
  - the schedule is archived as weekday raw values and read back;
  - `fetchTrackers(for:)` keeps the trackers scheduled on the date's
    weekday, groups them by category title (falling back to
    "Без категории") and sorts the groups by title.
- **The trackers screen** (`TrackersViewController`):
  - the daily view for the picked date;
  - the completion toggle of a tracker cell: tapping a completed tracker
    removes that day's record; tapping an uncompleted one adds a record,
    unless the picked day is after today;
  - the placeholder rule;
  - the index-path search.
- **The habit form** (`CreateHabitScreen`):
  - the readiness rule that enables the action button;
  - the 38-character name limit;
  - the schedule label;
  - the "N дней / день / дня" counter;
  - the create or update call made to the delegate;
  - the edit-mode prefill.
- **The tracker cell's counter text** (`TrackerCell.formatDays`). It is
  proved to follow the Russian plural rule and to agree with the form's
  formatter on every `Int`.
- **The category picker**:
  - the view model's list and selection bookkeeping across select, create,
    rename and delete (`CategoryViewModel`);
  - the add and edit dialog, which accepts only a non-blank title and hands
    it on trimmed (`AddEditCategoryViewController`).

### How the system is represented

- **The Core Data context** is the class `Persistence.Context`. It holds
  three tables of rows whose attributes are optional, as Core Data
  attributes are. A tracker row links to its category by object identity,
  which a synthetic `ObjectId` stands for. The stores keep the context as
  a `const` field. Each store method mutates the table, and its contract
  states the new table in terms of a function of the old one
  (`CreateInTable`, `RenameInTable`, `DeleteFromTable`, `AppendRecord`,
  `RemoveFirstInWindow`, ...). The lemmas prove what the source promises
  about those functions.
- **Dates** are whole seconds (`Instant`) in a calendar without time zones
  or daylight saving:
  - `StartOfDay(t) = t - t % 86400`;
  - a day number `d` is the instant `d * 86400`;
  - the weekday component counts from 1 = Sunday, with 1970-01-01 a
    Thursday.
- **Values the platform supplies** are parameters: `Date()` (today),
  `UUID()` (the new tracker's id) and the date picker's value.
- **Closures and delegate calls** (`onCategorySelected`, `onError`,
  `onCategoryCreated`, `onCategoryUpdated`, `delegate?.didCreateTracker`,
  ...) are the values the modelled methods return.
- **String order** (`<` on `String` and the `title` / `name` sort
  descriptors) is lexicographic by character code.
- **`trimmingCharacters(in: .whitespacesAndNewlines)`** is `Text.Trim`
  over the Unicode whitespace and newline characters.
- **Swift's `%`** truncates toward zero. It is modelled explicitly by
  `Text.SwiftRem`, so the formatters are stated for negative counts as
  well.

## Model

| member | source | states |
|---|---|---|
| CategoryStore.ErrorDescription | Tracker/CoreData/Stores/TrackerCategoryStore.swift:153-168 | every CategoryError case has a non-empty description |
| CategoryStore.FindTitled | Tracker/CoreData/Stores/TrackerCategoryStore.swift:14-18 | the fetch `title == %@` yields a row exactly when the title is present, and the row found carries that title |
| CategoryStore.FetchOrCreateInTable | Tracker/CoreData/Stores/TrackerCategoryStore.swift:12-25 | a present title returns its row and leaves the table alone; a missing one appends exactly one row with a fresh object; the table stays well formed and afterwards holds the title |
| CategoryStore.FetchOrCreateIdempotent | Tracker/CoreData/Stores/TrackerCategoryStore.swift:12-25 | calling fetchOrCreateCategory twice with one title creates nothing the second time and returns the same category |
| CategoryStore.TitledRowUnique | Tracker/CoreData/Stores/TrackerCategoryStore.swift:12-25 | in a well-formed table only one row carries a given title |
| CategoryStore.TrackerCategoryStore.FetchOrCreateCategory | Tracker/CoreData/Stores/TrackerCategoryStore.swift:12-25 | the context's table, object counter and returned category are those FetchOrCreateInTable states |
| CategoryStore.CategoryTitleInFacts | Tracker/CoreData/Stores/TrackerCategoryStore.swift:27-38 | categoryTitle(for:) is nil when no tracker row has the id; otherwise it is the title of the category linked to the first matching row, and any title returned is present in the table |
| CategoryStore.TrackerCategoryStore.CategoryTitle | Tracker/CoreData/Stores/TrackerCategoryStore.swift:27-38 | categoryTitle(for:) reads CategoryTitleIn of the context's tracker and category tables |
| CategoryStore.RenameKeepsTrackers | Tracker/CoreData/Stores/TrackerCategoryStore.swift:27-38 | after a successful rename, trackers of the renamed category report the new title and every other tracker reports the title it had |
| CategoryStore.AllTitles | Tracker/CoreData/Stores/TrackerCategoryStore.swift:40-46 | fetchAllCategories returns the titles in ascending order, each once, exactly those present in the table |
| CategoryStore.TrackerCategoryStore.FetchAllCategories | Tracker/CoreData/Stores/TrackerCategoryStore.swift:40-46 | fetchAllCategories() reads AllTitles of the context's category table |
| CategoryStore.RowTitleLeIsTotalPreorder | Tracker/CoreData/Stores/TrackerCategoryStore.swift:42 | the `title` sort descriptor is a total preorder on rows |
| CategoryStore.LinkedRows | Tracker/CoreData/Stores/TrackerCategoryStore.swift:56-60 | a category's tracker set is exactly the tracker rows linked to its object |
| CategoryStore.CategoriesWithTrackers | Tracker/CoreData/Stores/TrackerCategoryStore.swift:49-87 | fetchAllCategoriesWithTrackers lists the titles of fetchAllCategories in the same order; each category is one titled row paired with its linked trackers that have every required attribute |
| CategoryStore.TrackerCategoryStore.FetchAllCategoriesWithTrackers | Tracker/CoreData/Stores/TrackerCategoryStore.swift:49-87 | fetchAllCategoriesWithTrackers() reads CategoriesWithTrackers of the context's tables |
| CategoryStore.CreateInTable | Tracker/CoreData/Stores/TrackerCategoryStore.swift:90-103 | createCategory refuses with categoryAlreadyExists exactly when the title is present; otherwise it appends one row with the title, keeps every other row, and the titles grow by exactly that one |
| CategoryStore.TrackerCategoryStore.CreateCategory | Tracker/CoreData/Stores/TrackerCategoryStore.swift:90-103 | the error thrown and the new table agree with CreateInTable; a refusal changes nothing |
| CategoryStore.RenameInTable | Tracker/CoreData/Stores/TrackerCategoryStore.swift:106-126 | a missing old title gives categoryNotFound, checked before the clash; a new title held by another row gives categoryAlreadyExists; renaming to itself succeeds; success retitles exactly the old title's row in place, keeping every row's identity |
| CategoryStore.TrackerCategoryStore.UpdateCategory | Tracker/CoreData/Stores/TrackerCategoryStore.swift:106-126 | the error thrown and the new table agree with RenameInTable |
| CategoryStore.RenameBack | Tracker/CoreData/Stores/TrackerCategoryStore.swift:106-126 | renaming back restores the table |
| CategoryStore.DeleteFromTable | Tracker/CoreData/Stores/TrackerCategoryStore.swift:129-140 | deleteCategory refuses with categoryNotFound exactly when the title is missing; otherwise it removes exactly the row with that title and keeps the rest in order |
| CategoryStore.TrackerCategoryStore.DeleteCategory | Tracker/CoreData/Stores/TrackerCategoryStore.swift:129-140 | the error thrown and the new table agree with DeleteFromTable |
| CategoryStore.CreateThenDelete | Tracker/CoreData/Stores/TrackerCategoryStore.swift:90-140 | creating a new category and deleting it restores the table |
| CategoryStore.CategoryNamed | Tracker/CoreData/Stores/TrackerCategoryStore.swift:143-149 | fetchCategory finds a category exactly when the title is present, and the one found carries the title |
| CategoryStore.TrackerCategoryStore.FetchCategory | Tracker/CoreData/Stores/TrackerCategoryStore.swift:143-149 | fetchCategory(with:) reads CategoryNamed of the context's category table |
| Persistence.Context.constructor | Tracker/AppDelegate.swift:9-19 | the one view context all three stores are given holds the tables it is loaded with, and titles in it are unique |
| Persistence.EncodeSchedule | Tracker/CoreData/Stores/TrackerStore.swift:57 | one raw value per scheduled weekday |
| Persistence.DecodeRawValues | Tracker/CoreData/Stores/TrackerStore.swift:83-86 | decoding never yields more weekdays than raw values |
| Persistence.ScheduleRoundTrip | Tracker/CoreData/Stores/TrackerStore.swift:57-86 | decoding the archived raw values gives back the schedule |
| Persistence.DecodeSkipsUnknown | Tracker/CoreData/Stores/TrackerStore.swift:85 | a raw value naming no weekday is dropped wherever it stands |
| Persistence.TrackerFromRow | Tracker/CoreData/Stores/TrackerStore.swift:74-96 | a row yields a tracker exactly when it has an id, a name, a color and an emoji |
| Persistence.StoredTrackerRoundTrip | Tracker/CoreData/Stores/TrackerStore.swift:51-96 | the row createTracker fills in reads back as the same tracker |
| Persistence.RowNameLeIsTotalPreorder | Tracker/CoreData/Stores/TrackerStore.swift:17-19 | the `name` sort descriptor is a total preorder on rows |
| TrackerStorage.TrackerStore.CreateTracker | Tracker/CoreData/Stores/TrackerStore.swift:45-64 | without a store coordinator it throws and changes nothing; otherwise it links one new row to the category that fetchOrCreateCategory returns |
| TrackerStorage.StoreErrorDescription | Tracker/CoreData/Stores/TrackerStore.swift:47-49 | the description of the error createTracker throws without a store coordinator |
| TrackerStorage.CreatedTrackerHasItsCategory | Tracker/CoreData/Stores/TrackerStore.swift:51-61 | a new tracker is then reported under the category title it was created with, whether that category existed or was created |
| TrackerStorage.CreatedTrackerIsFetched | Tracker/CoreData/Stores/TrackerStore.swift:51-98 | a created tracker is among the fetched trackers, as itself |
| TrackerStorage.AllTrackersSortedAndComplete | Tracker/CoreData/Stores/TrackerStore.swift:67-101 | fetchTrackers() is sorted by name; it holds exactly the trackers of the rows that have every required attribute |
| TrackerStorage.AllTrackers | Tracker/CoreData/Stores/TrackerStore.swift:67-101 | fetchTrackers(): the name-sorted rows, each read as a tracker, dropping the rows that do not read as one |
| TrackerStorage.TrackerStore.FetchTrackers | Tracker/CoreData/Stores/TrackerStore.swift:67-101 | the appending loop yields AllTrackers of the table: the name-sorted rows that read as trackers |
| TrackerStorage.GroupMembersIff | Tracker/CoreData/Stores/TrackerStore.swift:113-123 | a tracker is in the group of a title exactly when it is fetched, scheduled on the weekday, and its category title (or "Без категории") is that title |
| TrackerStorage.GroupMembersSnoc | Tracker/CoreData/Stores/TrackerStore.swift:113-123 | one more tracker extends the group of its title by itself and leaves every other group alone |
| TrackerStorage.GroupMembersSorted | Tracker/CoreData/Stores/TrackerStore.swift:113-121 | a group keeps the name order of the fetch |
| TrackerStorage.TrackerStore.GroupScheduled | Tracker/CoreData/Stores/TrackerStore.swift:111-123 | the dictionary loop maps exactly the titles with scheduled trackers to their non-empty groups |
| TrackerStorage.ListGroups | Tracker/CoreData/Stores/TrackerStore.swift:125 | every dictionary entry becomes one category with distinct titles, in some order |
| TrackerStorage.SortedGroupsAreDailyView | Tracker/CoreData/Stores/TrackerStore.swift:125-126 | sorting the listed groups by title gives the daily view |
| TrackerStorage.ListedGroupsMatch | Tracker/CoreData/Stores/TrackerStore.swift:125-126 | every listed group, in any order, is the group of its title and is non-empty |
| TrackerStorage.ScheduledTitlesListed | Tracker/CoreData/Stores/TrackerStore.swift:115-126 | the title of every scheduled tracker is the title of some listed group |
| TrackerStorage.CategoryTitleLeIsTotalPreorder | Tracker/CoreData/Stores/TrackerStore.swift:126 | `$0.title < $1.title` sorts by a total preorder |
| TrackerStorage.TrackerStore.FetchTrackersFor | Tracker/CoreData/Stores/TrackerStore.swift:103-129 | an unmappable weekday gives no categories; otherwise the result is the daily view of that weekday |
| TrackerStorage.IsDailyView | Tracker/CoreData/Stores/TrackerStore.swift:103-129 | the daily view: groups with distinct titles sorted by title, each the non-empty group of its title, and every scheduled tracker's title among them |
| TrackerStorage.DailyViewPlacesEachTrackerOnce | Tracker/CoreData/Stores/TrackerStore.swift:113-123 | in the daily view a tracker is listed exactly when it is scheduled on the weekday, and then only under its own title |
| TrackerStorage.DailyViewGroupsSortedByName | Tracker/CoreData/Stores/TrackerStore.swift:113-121 | within each group of the daily view the trackers are sorted by name |
| TrackerStorage.WithoutTracker | Tracker/CoreData/Stores/TrackerStore.swift:131-140 | deleteTracker removes one row, the first with the id, when there is one, and changes nothing otherwise |
| TrackerStorage.TrackerStore.DeleteTracker | Tracker/CoreData/Stores/TrackerStore.swift:131-140 | the new table is WithoutTracker of the old one |
| TrackerStorage.DeleteRemovesTracker | Tracker/CoreData/Stores/TrackerStore.swift:131-140 | when at most one row has the id, no row has it afterwards |
| RecordStore.TrackerRecordStore.AddRecord | Tracker/CoreData/Stores/TrackerRecordStore.swift:11-19 | one row is appended, holding the start of the given day |
| RecordStore.StartOfDayInOwnDay | Tracker/CoreData/Stores/TrackerRecordStore.swift:14-16 | the stored start of day lies in the day and is its own start of day |
| RecordStore.AppendRecordCounts | Tracker/CoreData/Stores/TrackerRecordStore.swift:11-19 | adding raises the tracker's count by one and leaves every other tracker's rows unchanged |
| RecordStore.AddTwiceCountsTwice | Tracker/CoreData/Stores/TrackerRecordStore.swift:11-19 | adding the same tracker and day twice raises the count by two |
| RecordStore.AddedIsCompleted | Tracker/CoreData/Stores/TrackerRecordStore.swift:11-19 | after addRecord(t, d) the tracker is completed on d |
| RecordStore.AddedIsFetched | Tracker/CoreData/Stores/TrackerRecordStore.swift:11-19 | the added record is among the fetched records, under the start of its day |
| RecordStore.FirstInWindow | Tracker/CoreData/Stores/TrackerRecordStore.swift:21-35 | the day-window fetch returns the first row of the tracker inside `[startOfDay, startOfDay + 1 day)`, and nothing exactly when there is none |
| RecordStore.RemoveFirstInWindow | Tracker/CoreData/Stores/TrackerRecordStore.swift:21-39 | removeRecord is a no-op when the window holds no row of the tracker, and otherwise leaves one row fewer |
| RecordStore.RemovesFirstInWindow | Tracker/CoreData/Stores/TrackerRecordStore.swift:21-39 | when the tracker has a record that day, removeRecord deletes its first row inside `[startOfDay, startOfDay + 1 day)` and keeps every other row in order |
| RecordStore.TrackerRecordStore.RemoveRecord | Tracker/CoreData/Stores/TrackerRecordStore.swift:21-39 | the new table is RemoveFirstInWindow of the old one |
| RecordStore.RemoveCounts | Tracker/CoreData/Stores/TrackerRecordStore.swift:21-39 | removing on a completed day lowers the count by exactly one; on any other day the table is unchanged |
| RecordStore.RemoveKeepsOthers | Tracker/CoreData/Stores/TrackerRecordStore.swift:21-39 | removing a record of one tracker leaves every other tracker's rows unchanged |
| RecordStore.AddThenRemove | Tracker/CoreData/Stores/TrackerRecordStore.swift:11-39 | removing the record of a day that had none before undoes adding it |
| RecordStore.TrackerRecordStore.FetchCompletedTrackers | Tracker/CoreData/Stores/TrackerRecordStore.swift:41-61 | the inserting loop yields the set of (id, date) of every row that has both |
| RecordStore.CompletedRecordsMembers | Tracker/CoreData/Stores/TrackerRecordStore.swift:48-54 | a record is fetched exactly when some row holds its id and date |
| RecordStore.CompletedRecordsCollapse | Tracker/CoreData/Stores/TrackerRecordStore.swift:46-54 | duplicate rows collapse in the set |
| RecordStore.RepeatedRowCollapses | Tracker/CoreData/Stores/TrackerRecordStore.swift:46-54 | storing a row already in the table again, as a second addRecord on the same day does, leaves the fetched set unchanged |
| RecordStore.RowsOf | Tracker/CoreData/Stores/TrackerRecordStore.swift:64-69 | the fetch `trackerId == %@` holds exactly the tracker's rows |
| RecordStore.RecordCount | Tracker/CoreData/Stores/TrackerRecordStore.swift:63-74 | completedDaysCount never exceeds the number of rows |
| RecordStore.RecordCountIsMultiplicity | Tracker/CoreData/Stores/TrackerRecordStore.swift:63-74 | completedDaysCount(t) is the number of rows whose trackerId is t |
| RecordStore.TrackerRecordStore.CompletedDaysCount | Tracker/CoreData/Stores/TrackerRecordStore.swift:63-74 | completedDaysCount(for:) reads RecordCount of the context's record table |
| RecordStore.CompletedOn | Tracker/CoreData/Stores/TrackerRecordStore.swift:76-96 | isTrackerCompleted(t, d) holds exactly when some row of t lies inside day d |
| RecordStore.TrackerRecordStore.IsTrackerCompleted | Tracker/CoreData/Stores/TrackerRecordStore.swift:76-96 | isTrackerCompleted(_:on:) reads CompletedOn of the context's record table |
| Domain.StartOfDay | Tracker/CoreData/Stores/TrackerRecordStore.swift:15-23 | the start of day is the day-aligned instant at or before t, within one day of it |
| Domain.InDayOfIff | Tracker/CoreData/Stores/TrackerRecordStore.swift:23-32 | an instant lies in a day window exactly when it has that day's start of day |
| Domain.WeekdayFromRawValue | Tracker/CoreData/Stores/TrackerStore.swift:85 | `Weekday(rawValue:)` returns the weekday with that raw value, and nil exactly when no weekday has it |
| Domain.RawValueRoundTrip | Tracker/CoreData/Stores/TrackerStore.swift:85 | each weekday is read back from its raw value |
| Domain.WeekdayFromCalendar | Tracker/CoreData/Stores/TrackerStore.swift:105-108 | a weekday component maps to a weekday exactly when it is 1 through 7 |
| Domain.CalendarWeekday | Tracker/CoreData/Stores/TrackerStore.swift:104-105 | the weekday component of any date is 1 through 7 |
| TrackersScreen.TrackersViewController.constructor | Tracker/Screens/TrackersViewController.swift:9-11 | the screen starts with no categories and no completed records |
| TrackersScreen.TrackersViewController.LoadData | Tracker/Screens/TrackersViewController.swift:182-185 | completedTrackers is the record store's set of complete records |
| TrackersScreen.TrackersViewController.IsTrackerCompletedToday | Tracker/Screens/TrackersViewController.swift:211-214 | isTrackerCompletedToday: the record store's isTrackerCompleted for the picked date |
| TrackersScreen.TrackersViewController.ReloadData | Tracker/Screens/TrackersViewController.swift:187-193 | visibleCategories is the daily view of the picked date's weekday, and the placeholder follows it |
| TrackersScreen.TrackersViewController.DatePickerValueChanged | Tracker/Screens/TrackersViewController.swift:177-180 | a new date is stored and the daily view of its weekday is shown |
| TrackersScreen.HasVisibleTrackers | Tracker/Screens/TrackersViewController.swift:206 | holds exactly when some visible category has a tracker |
| TrackersScreen.TrackersViewController.UpdatePlaceholderVisibility | Tracker/Screens/TrackersViewController.swift:205-209 | the placeholder is hidden exactly when some visible category has a tracker, and the collection is hidden exactly when the placeholder is not |
| TrackersScreen.MayCompleteUntilEndOfToday | Tracker/Screens/TrackersViewController.swift:221-224 | the day-granular guard admits exactly the dates before the end of today |
| TrackersScreen.MayComplete | Tracker/Screens/TrackersViewController.swift:221-225 | completeTracker's guard: the start of the picked day is not after the start of today |
| TrackersScreen.StartOfDaySameWindow | Tracker/Screens/TrackersViewController.swift:221-247 | passing the start of the picked day to the record store is the same as passing the picked date |
| TrackersScreen.TrackersViewController.CompleteTracker | Tracker/Screens/TrackersViewController.swift:216-237 | a day after today adds nothing and changes nothing; otherwise one record is added under the start of the picked day, the set is refetched, and the tracker is then completed on that day |
| TrackersScreen.TrackersViewController.UncompleteTracker | Tracker/Screens/TrackersViewController.swift:239-256 | for any date, the first record of the picked day is removed and the set is refetched |
| TrackersScreen.TrackersViewController.TapCompleteButton | Tracker/Screens/TrackersViewController.swift:297-305 | the records become Toggled of the old ones: a completed tracker loses that day's record; an uncompleted one gains one unless the day is after today |
| TrackersScreen.Toggled | Tracker/Screens/TrackersViewController.swift:297-305 | the records after a tap: the first record of the picked day removed when the tracker is completed that day, one record added when it is not and the day is not after today, and the records unchanged otherwise |
| TrackersScreen.TapCompletes | Tracker/Screens/TrackersViewController.swift:297-305 | a tap on an uncompleted tracker on today or earlier completes it, with one more record |
| TrackersScreen.TapUncompletes | Tracker/Screens/TrackersViewController.swift:297-305 | a tap on a completed tracker removes its first record of the picked day, keeps every other record in order, and lowers its count by one |
| TrackersScreen.TapOnFutureDayIsNoOp | Tracker/Screens/TrackersViewController.swift:216-225 | a day after today cannot be marked complete |
| TrackersScreen.TapTwiceRestores | Tracker/Screens/TrackersViewController.swift:297-305 | a second tap undoes a tap that completed the tracker |
| TrackersScreen.TapKeepsOthers | Tracker/Screens/TrackersViewController.swift:297-305 | a tap leaves every other tracker's records unchanged |
| TrackersScreen.TrackersViewController.FindIndexPathForTracker | Tracker/Screens/TrackersViewController.swift:258-267 | returns the first (section, item) holding the id in a section-major scan, and nil exactly when none does |
| CellText.DaysWord | Tracker/Cell/TrackerCell.swift:139-144 | the plural rule gives one of the three words |
| CellText.FormatDays | Tracker/Cell/TrackerCell.swift:135-146 | formatDays(count:): the count, a space, and the word chosen from the count's truncating remainders modulo 10 and 100 |
| CellText.DaysWordByLastTwoDigits | Tracker/Cell/TrackerCell.swift:135-146 | the word depends only on the count modulo 100 |
| CellText.CellWordFollowsPluralRule | Tracker/Cell/TrackerCell.swift:136-144 | for every non-negative count, the word picked from the remainders modulo 10 and 100 is the word of the plural rule |
| CellText.FormatDaysFollowsPluralRule | Tracker/Cell/TrackerCell.swift:135-146 | for every non-negative count, formatDays is the count, a space, and the word of the plural rule |
| CellText.FormatDaysNegative | Tracker/Cell/TrackerCell.swift:135-146 | under Swift's truncating `%` a negative count always gets "дней" |
| Text.SwiftRem | Tracker/Cell/TrackerCell.swift:136-137 | Swift's `%` agrees with the Euclidean remainder for non-negative operands and is non-positive for negative ones |
| Text.IntToString | Tracker/Cell/TrackerCell.swift:140 | the interpolated count is non-empty and starts with a minus sign exactly when it is negative |
| Text.NatToStringRoundTrip | Tracker/Cell/TrackerCell.swift:140 | the written digits read back as the count |
| HabitForm.FormatDaysStringFollowsPluralRule | Tracker/Screens/CreateHabit/CreateHabitScreen.swift:315-331 | for every non-negative count, formatDaysString is the count, a space, and the word of the plural rule |
| HabitForm.FormatDaysString | Tracker/Screens/CreateHabit/CreateHabitScreen.swift:315-331 | formatDaysString(_:): the count, a space, and the word chosen from its last two digits first and then its last digit |
| HabitForm.FormWordFollowsPluralRule | Tracker/Screens/CreateHabit/CreateHabitScreen.swift:315-331 | for every non-negative count, the word the form picks from its last digit and last two digits is the word of the plural rule |
| HabitForm.FormattersAgree | Tracker/Screens/CreateHabit/CreateHabitScreen.swift:315-331 | the form's and the cell's formatters write the same text for every Int |
| HabitForm.BitLeIsLinearOrder | Tracker/Screens/CreateHabit/CreateHabitScreen.swift:484-486 | ordering by bitValue is a linear order on weekdays |
| HabitForm.FormatScheduleText | Tracker/Screens/CreateHabit/CreateHabitScreen.swift:480-489 | formatScheduleText: "Каждый день" for a schedule as long as the week, otherwise the short names of the picked days in bitValue order joined by ", " |
| HabitForm.ScheduleTextIgnoresOrder | Tracker/Screens/CreateHabit/CreateHabitScreen.swift:480-489 | the schedule label does not depend on the order in which the days were picked |
| HabitForm.ScheduleTextInWeekOrder | Tracker/Screens/CreateHabit/CreateHabitScreen.swift:480-489 | for a schedule with no repeats that misses a weekday, the label is the short names of the picked days, Monday first, joined by ", " |
| HabitForm.FilteredWeekIsSchedule | Tracker/Screens/CreateHabit/CreateHabitScreen.swift:480-489 | the picked days of the week are the schedule, up to order |
| HabitForm.CreateHabitScreen.ScheduleDetail | Tracker/Screens/CreateHabit/CreateHabitScreen.swift:542-547 | the schedule row shows no detail for an empty schedule and the schedule label otherwise |
| HabitForm.Truncated | Tracker/Screens/CreateHabit/CreateHabitScreen.swift:445-449 | the kept text is a prefix of at most 38 characters, exactly 38 when the text reached the limit, and the whole text otherwise |
| HabitForm.TruncationKeepsReadiness | Tracker/Screens/CreateHabit/CreateHabitScreen.swift:426-471 | truncation never changes whether the form is ready |
| HabitForm.IsReady | Tracker/Screens/CreateHabit/CreateHabitScreen.swift:462-471 | the readiness test: a non-empty name, a category, a non-empty schedule, an emoji and a color |
| HabitForm.CreateHabitScreen.constructor | Tracker/Screens/CreateHabit/CreateHabitScreen.swift:147-150 | a new form has the mode, and nothing filled in or enabled |
| HabitForm.CreateHabitScreen.UpdateActionButtonState | Tracker/Screens/CreateHabit/CreateHabitScreen.swift:462-472 | the action is enabled exactly when the name is non-empty, a category, an emoji and a color are chosen, and the schedule is non-empty |
| HabitForm.CreateHabitScreen.UpdateClearButtonVisibility | Tracker/Screens/CreateHabit/CreateHabitScreen.swift:438-443 | the clear button shows exactly when the field has text |
| HabitForm.CreateHabitScreen.ValidateTextLength | Tracker/Screens/CreateHabit/CreateHabitScreen.swift:445-460 | text of 38 characters or more keeps its first 38 and shows the error; shorter text is kept and hides it; no text is left alone |
| HabitForm.CreateHabitScreen.TextFieldChanged | Tracker/Screens/CreateHabit/CreateHabitScreen.swift:426-430 | the text ends truncated, and readiness, the clear button and the error follow the new text; no text leaves the error as it was |
| HabitForm.CreateHabitScreen.ClearTextField | Tracker/Screens/CreateHabit/CreateHabitScreen.swift:432-436 | clearing empties the name, disables the action and hides the clear button and the error |
| HabitForm.CreateHabitScreen.DidSelectCategory | Tracker/Screens/CreateHabit/CreateHabitScreen.swift:647-651 | the category is stored and readiness re-evaluated |
| HabitForm.CreateHabitScreen.DidSelectSchedule | Tracker/Screens/CreateHabit/CreateHabitScreen.swift:654-658 | the schedule is stored and readiness re-evaluated |
| HabitForm.CreateHabitScreen.DidSelectEmoji | Tracker/Screens/CreateHabit/CreateHabitScreen.swift:614-623 | the tapped emoji is stored and readiness re-evaluated |
| HabitForm.CreateHabitScreen.DidSelectColor | Tracker/Screens/CreateHabit/CreateHabitScreen.swift:619-623 | the tapped color is stored and readiness re-evaluated |
| HabitForm.CreateHabitScreen.CreateTracker | Tracker/Screens/CreateHabit/CreateHabitScreen.swift:364-393 | the delegate is called exactly when the form is ready, with a tracker made of the form's fields and the fresh id |
| HabitForm.CreateHabitScreen.UpdateTracker | Tracker/Screens/CreateHabit/CreateHabitScreen.swift:395-424 | the delegate is called exactly when the form is ready, and the tracker keeps the original's id |
| HabitForm.CreateHabitScreen.PerformAction | Tracker/Screens/CreateHabit/CreateHabitScreen.swift:355-362 | only a ready form calls the delegate; create mode passes a new tracker with the fresh id, edit mode an updated tracker with the edited tracker's id, both made of the form's name, color, schedule and emoji, with the chosen category title |
| HabitForm.CreateHabitScreen.ConfigureForMode | Tracker/Screens/CreateHabit/CreateHabitScreen.swift:265-300 | create mode sets the titles, hides the clear button and the day count, and leaves the form alone; edit mode fills the form from the tracker and its category, shows its completed-day count, shows the clear button exactly for a non-empty name, and enables the action exactly when name and schedule are non-empty |
| HabitForm.CreateHabitScreen.Prefill | Tracker/Screens/CreateHabit/CreateHabitScreen.swift:276-297 | the edit branch fills every field from the tracker, counts its records, shows the clear button exactly for a non-empty name, and enables the action exactly when name and schedule are non-empty |
| HabitForm.CreateHabitScreen.ShowTracker | Tracker/Screens/CreateHabit/CreateHabitScreen.swift:280-287 | the edit titles are shown, and the name, category, schedule, emoji and color fields take the tracker's values and its category title |
| HabitForm.CreateHabitScreen.UpdateCompletedDaysCount | Tracker/Screens/CreateHabit/CreateHabitScreen.swift:302-307 | the count is the tracker's number of records, shown in words |
| HabitForm.CreateHabitScreen.UpdateDaysCountLabel | Tracker/Screens/CreateHabit/CreateHabitScreen.swift:309-313 | the label shows the text the cell's formatter writes for the count |
| CategorySelection.CategoryViewModel.constructor | Tracker/Screens/CreateHabit/Category/CategoryViewModel.swift:23-26 | keeps the store and the initial selection, with an empty list |
| CategorySelection.LoadedTitles | Tracker/Screens/CreateHabit/Category/CategoryViewModel.swift:29-35 | the loaded list shows every title of the table exactly once |
| CategorySelection.CategoryViewModel.LoadCategories | Tracker/Screens/CreateHabit/Category/CategoryViewModel.swift:29-35 | the list is what the store holds, with distinct titles, exactly those of the table |
| CategorySelection.CategoryViewModel.SelectCategory | Tracker/Screens/CreateHabit/Category/CategoryViewModel.swift:37-42 | an index past the end changes and reports nothing; a valid index selects and reports the title of that row, which then shows as selected |
| CategorySelection.CategoryViewModel.CreateCategory | Tracker/Screens/CreateHabit/Category/CategoryViewModel.swift:44-58 | a blank title reports emptyTitle without asking the store; a refusal reports its description and keeps the list; a success reloads the list |
| CategorySelection.RenamedSelection | Tracker/Screens/CreateHabit/Category/CategoryViewModel.swift:70-72 | a selection of the old title moves to the new title; any other selection stays |
| CategorySelection.RenameKeepsSelectionValid | Tracker/Screens/CreateHabit/Category/CategoryViewModel.swift:66-74 | a selection naming a category still names one after a successful rename |
| CategorySelection.CategoryViewModel.UpdateCategory | Tracker/Screens/CreateHabit/Category/CategoryViewModel.swift:60-80 | a blank new title is refused before the store is asked; a refusal keeps the selection and the list; a success moves the selection along, reloads, and keeps a shown selection shown |
| CategorySelection.DeletedSelection | Tracker/Screens/CreateHabit/Category/CategoryViewModel.swift:87-89 | the selection is cleared exactly when it was the deleted title |
| CategorySelection.DeleteKeepsSelectionValid | Tracker/Screens/CreateHabit/Category/CategoryViewModel.swift:83-91 | a selection that survives a delete still names a category |
| CategorySelection.CategoryViewModel.DeleteCategory | Tracker/Screens/CreateHabit/Category/CategoryViewModel.swift:82-95 | every refusal reports the same message and keeps the selection and the list; a success clears the selection exactly when it was the deleted title, and reloads |
| CategorySelection.CategoryViewModel.NumberOfCategories | Tracker/Screens/CreateHabit/Category/CategoryViewModel.swift:106-108 | the number of rows is the number of titles shown |
| CategorySelection.CategoryViewModel.CategoryTitleAt | Tracker/Screens/CreateHabit/Category/CategoryViewModel.swift:110-113 | nil exactly past the end, otherwise the title shown at the index |
| CategorySelection.CategoryViewModel.IsCategorySelected | Tracker/Screens/CreateHabit/Category/CategoryViewModel.swift:115-118 | holds exactly when the index is in range and its title is the selection |
| CategorySelection.CategoryViewModel.HasCategories | Tracker/Screens/CreateHabit/Category/CategoryViewModel.swift:120-122 | holds exactly when there is at least one row |
| CategorySelection.CategoryViewModel.SelectedRowUnique | Tracker/Screens/CreateHabit/Category/CategoryViewModel.swift:115-118 | with distinct titles, as a loaded list has, at most one row shows as selected |
| CategorySelection.CategoryViewModel.SelectedRowTitle | Tracker/Screens/CreateHabit/Category/CategoryViewModel.swift:110-118 | the selected row reads back the selected title |
| Text.TrimEmptyIffBlank | Tracker/Screens/CreateHabit/Category/AddEditCategoryViewController.swift:112-113 | the trimmed text is empty exactly when the text is whitespace and newlines only |
| Text.TrimIdempotent | Tracker/Screens/CreateHabit/Category/AddEditCategoryViewController.swift:121 | trimming twice is trimming once |
| CategoryEditor.AddEditCategoryViewController.constructor | Tracker/Screens/CreateHabit/Category/AddEditCategoryViewController.swift:53-56 | the dialog keeps its mode and starts with an empty field and Done disabled |
| CategoryEditor.AddEditCategoryViewController.HasTitleIff | Tracker/Screens/CreateHabit/Category/AddEditCategoryViewController.swift:111-116 | holds exactly when the field has text that is not blank |
| CategoryEditor.AddEditCategoryViewController.HasTitle | Tracker/Screens/CreateHabit/Category/AddEditCategoryViewController.swift:111-116 | the text, or the empty string when there is none, is not empty once trimmed |
| CategoryEditor.AddEditCategoryViewController.UpdateDoneButtonState | Tracker/Screens/CreateHabit/Category/AddEditCategoryViewController.swift:111-117 | Done is enabled exactly when the trimmed text is non-empty |
| CategoryEditor.AddEditCategoryViewController.TextChanged | Tracker/Screens/CreateHabit/Category/AddEditCategoryViewController.swift:27-29 | editing stores the text and enables Done exactly for non-blank text |
| CategoryEditor.AddEditCategoryViewController.SetupNavigationBar | Tracker/Screens/CreateHabit/Category/AddEditCategoryViewController.swift:90-102 | the title names the mode |
| CategoryEditor.AddEditCategoryViewController.ConfigureForMode | Tracker/Screens/CreateHabit/Category/AddEditCategoryViewController.swift:104-109 | edit mode prefills the old title, so Done starts enabled exactly when it is not blank; create mode changes nothing |
| CategoryEditor.AddEditCategoryViewController.ViewDidLoad | Tracker/Screens/CreateHabit/Category/AddEditCategoryViewController.swift:63-69 | loading the view titles the bar after the mode and sets up the field and Done as configureForMode does |
| CategoryEditor.AddEditCategoryViewController.DoneButtonTapped | Tracker/Screens/CreateHabit/Category/AddEditCategoryViewController.swift:120-134 | blank text calls no callback; otherwise create mode passes the trimmed text and edit mode passes the old title and the trimmed text, which is non-blank and already trimmed |

## Left out

- **I/O failures.** Failures of `context.save()` and `context.fetch` are not
  modelled, nor are the `catch` branches that log them or return an empty
  result. The same goes for the `LoggerService` and `print` calls. The
  model's fetches and saves always succeed.
- **Saving.** `DataBaseStore.shared.saveContext()` and `context.save()` are
  a single in-memory context. `fetchOrCreateCategory` does not save in the
  source. The model does not distinguish unsaved from saved rows, since
  fetches in the same context see both.
- **Change notifications.** The `NSFetchedResultsController` change
  notifications (`controllerDidChangeContent`, `didUpdateTrackers`) are not
  modelled. The controller's `fetchedObjects` is the current table sorted
  by name.
- **Cascade and delete rules.** What happens to a category's trackers when
  the category is deleted depends on a delete rule of the Core Data model
  that is not part of this model. In the model, their link dangles and
  reads as "no category". Deleting a tracker does not touch its records.
- **Order within a set.** A category's `trackers` relationship is an
  unordered `Set`. `fetchAllCategoriesWithTrackers` lists those trackers in
  table order, and no property depends on that order. The model does not
  treat a nil relationship separately from an empty one.
- **Dictionary order.** The order of the `[String: [Tracker]]` dictionary is
  unspecified. `ListGroups` picks its keys in an arbitrary order, and only
  the sorted result is specified.
- **Calendar and time.** `Calendar.current`, `Date()` and `UUID()` are only
  represented as follows: instants are whole seconds in a calendar without
  time zones or daylight saving; today and the new id are parameters.
  Fractional seconds are not modelled.
- **Weekday.** The `Weekday` type the stores and the form use — `rawValue`
  as a `String`, `bitValue`, `shortName`, `init(calendarWeekday:)` — is not
  part of this model. The `Weekday` in `Tracker/ Models/Tracker.swift` has
  `Int` raw values and none of those members, and the stores do not match
  it (they unarchive `[String]`). The model uses the lower-case case names as
  raw values, with bit values 1, 2, 4, … 64 from Monday, and short names
  Пн … Вс. Only the round trip depends on the raw values, and it holds
  for any injective choice.
- **Colors and emoji.** `UIColorMarshalling` is the identity on a color's hex
  string, and a color is its hex string. `AppData.emojis` and
  `AppData.colors` are not modelled; the emoji or color at the tapped
  position is a parameter of `DidSelectEmoji` / `DidSelectColor`.
- **String order.** Swift's `<` on `String` compares by Unicode canonical
  ordering. The model compares character codes, with no normalisation.
- **Unsorted fetches.** The fetches without a sort descriptor whose `.first`
  the source takes (the category, tracker and record lookups) return rows in
  an order Core Data does not specify. The model reads them in table order,
  so "first" in `FindTitled`, `CategoryTitleIn`, `FirstInWindow` and
  `WithoutTracker` means first in the table. No count or membership property
  depends on that choice.
- **Sort ties.** The `name` and `title` sort descriptors and `sorted(by:)` leave
  the order of equal keys unspecified. The model sorts stably, so rows with
  equal names or titles keep table order, and no property depends on that.
- **Character counts.** `text.count` in `validateTextLength` counts grapheme
  clusters. The model counts characters, so a name with combined characters
  is truncated by characters.
- **Integer width.** Integers are unbounded. `Int` overflow, and
  `Int.min % 10` in particular, is not modelled.
- **Missing stores in TrackersViewController.** Its optional `trackerStore`
  and `trackerRecordStore` are always present in the model. The
  `guard let ... else { return }` branches for a missing store are not
  modelled.
- **UI effects.**
  - `updateCompleteButtonsState`, `collectionView.reloadData` and
    `reloadItems`, `optionsTableView.reloadData`;
  - button appearance, animations, constraints and dismissal;
  - `textField.becomeFirstResponder`;
  - `selectCurrentEmojiAndColor` and `deselectAllItems`.

  None of them changes a modelled value. `FindIndexPathForTracker`'s
  result is computed and dropped where the source reloads that item.
- **Menu callbacks.** `CategoryViewModel.handleLongPress` and
  `requestDeleteConfirmation` only forward a title to a presentation
  callback, with no state to model. The `onError` message of a failed
  `loadCategories` (a fetch error) is not modelled.
- **Other screens.** `SheduleScreen`, `CategoryScreen`,
  `CategoryViewController` and its cells, onboarding, the tab bar,
  statistics and `AppDelegate` are navigation and UI outside this model.
  `SheduleScreen` does not compile as written, and the schedule it would
  produce is a parameter of `DidSelectSchedule`.
- **Negative indices.** The source's `Int` row index is never negative at its
  call sites, which are table rows, and a negative one would trap.
- CategorySelection.CategoryViewModel.SelectCategory: takes a `nat` index, so
  the trapping negative index is not modelled.
- CategorySelection.CategoryViewModel.CategoryTitleAt: takes a `nat` index, so
  the trapping negative index is not modelled.
- CategorySelection.CategoryViewModel.IsCategorySelected: takes a `nat` index,
  so the trapping negative index is not modelled.
- **Error texts with a fallback.** The view model's fallback texts for
  errors that are not a `CategoryError` ("Не удалось создать категорию",
  "Не удалось обновить категорию", "Неизвестная ошибка") are unreachable in
  the model, because the store throws only `CategoryError`s there.
- RecordStore.RemoveFirstInWindow: its own contract gives only the no-op case
  and the new length. `RecordStore.RemovesFirstInWindow` states which row goes
  and that the others keep their order.
- **Untrimmed create.** `CategorySelection.CategoryViewModel.CreateCategory`
  passes the untrimmed title to the store, as the source does. Only the
  emptiness test trims.
- **Repeated days in a schedule.** For schedules with repeated days,
  `HabitForm.ScheduleTextInWeekOrder` is stated only for schedules without
  repeats. `formatScheduleText` compares the count, not the set of days,
  with the number of weekdays. The schedule picker never produces repeats.
- **Integer day numbers.** Dates are seconds with `startOfDay` rather than
  integer day numbers, which keeps the day-window queries meaningful. A day
  number `d` is the instant `d * 86400`, where `StartOfDay` is the identity.
