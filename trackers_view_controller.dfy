/** The trackers screen: the daily view for the date picked, the completion
    records it shows, and the complete button that toggles a tracker's
    completion on the picked day. `Date()` (today) is a parameter of the
    actions that read it; the date picker's value is the `selectedDate` field. */
module TrackersScreen {
  import opened Domain
  import opened Persistence
  import opened RecordStore
  import opened TrackerStorage

  /** A (section, item) position of the collection view. */
  datatype IndexPath = IndexPath(section: nat, item: nat)

  /** The guard of completeTracker: the picked day is not after today, compared by start of day. */
  predicate MayComplete(selectedDate: Instant, today: Instant) {
    StartOfDay(selectedDate) <= StartOfDay(today)
  }

  /** Comparing at day granularity allows every instant up to the end of today, and nothing later. */
  lemma MayCompleteUntilEndOfToday(selectedDate: Instant, today: Instant)
    ensures MayComplete(selectedDate, today) <==> selectedDate < StartOfDay(today) + SecondsPerDay
  {
    var s, t := StartOfDay(selectedDate), StartOfDay(today);
    var qs, qt := s / SecondsPerDay, t / SecondsPerDay;
    assert s == qs * SecondsPerDay;
    assert t == qt * SecondsPerDay;
    if qs <= qt {
      assert s <= t;
    } else {
      assert (qs - qt) * SecondsPerDay >= SecondsPerDay;
      assert s >= t + SecondsPerDay;
    }
  }

  /** The start of the picked day names the same day window as the picked instant itself. */
  lemma StartOfDaySameWindow(rows: seq<RecordRow>, trackerId: Uuid, date: Instant)
    ensures FirstInWindow(rows, trackerId, StartOfDay(date)) == FirstInWindow(rows, trackerId, date)
    ensures RemoveFirstInWindow(rows, trackerId, StartOfDay(date)) == RemoveFirstInWindow(rows, trackerId, date)
    ensures CompletedOn(rows, trackerId, StartOfDay(date)) == CompletedOn(rows, trackerId, date)
    ensures AppendRecord(rows, trackerId, StartOfDay(date)) == AppendRecord(rows, trackerId, date)
  {
    StartOfDayInOwnDay(date);
    var a, b := FirstInWindow(rows, trackerId, StartOfDay(date)), FirstInWindow(rows, trackerId, date);
    assert forall k :: 0 <= k < |rows| ==> (InWindow(rows[k], trackerId, StartOfDay(date)) <==> InWindow(rows[k], trackerId, date));
    if a.Some? && b.Some? {
      assert !(a.value < b.value);
      assert !(b.value < a.value);
    }
  }

  /** The records after a tap on a tracker's complete button with `selectedDate` picked:
      a completed tracker loses that day's record, an uncompleted one gains one
      unless the day is after today. */
  function Toggled(rows: seq<RecordRow>, trackerId: Uuid, selectedDate: Instant, today: Instant): seq<RecordRow> {
    if CompletedOn(rows, trackerId, selectedDate) then RemoveFirstInWindow(rows, trackerId, selectedDate)
    else if MayComplete(selectedDate, today) then AppendRecord(rows, trackerId, selectedDate)
    else rows
  }

  /** A tap on an uncompleted tracker on today or an earlier day completes it, with one more record. */
  lemma TapCompletes(rows: seq<RecordRow>, trackerId: Uuid, selectedDate: Instant, today: Instant)
    requires !CompletedOn(rows, trackerId, selectedDate) && MayComplete(selectedDate, today)
    ensures CompletedOn(Toggled(rows, trackerId, selectedDate, today), trackerId, selectedDate)
    ensures RecordCount(Toggled(rows, trackerId, selectedDate, today), trackerId) == RecordCount(rows, trackerId) + 1
  {
    AddedIsCompleted(rows, trackerId, selectedDate);
    AppendRecordCounts(rows, trackerId, selectedDate, trackerId);
  }

  /** A tap on a completed tracker removes its first record of the picked day, on any day,
      and keeps every other record in order. */
  lemma TapUncompletes(rows: seq<RecordRow>, trackerId: Uuid, selectedDate: Instant, today: Instant)
    requires CompletedOn(rows, trackerId, selectedDate)
    ensures RecordCount(Toggled(rows, trackerId, selectedDate, today), trackerId) == RecordCount(rows, trackerId) - 1
    ensures exists i :: (
      && 0 <= i < |rows| && InWindow(rows[i], trackerId, selectedDate)
      && (forall k :: 0 <= k < i ==> !InWindow(rows[k], trackerId, selectedDate))
      && Toggled(rows, trackerId, selectedDate, today) == rows[..i] + rows[i + 1..])
  {
    RemoveCounts(rows, trackerId, selectedDate);
    RemovesFirstInWindow(rows, trackerId, selectedDate);
  }

  /** A day after today cannot be marked complete: the tap changes nothing. */
  lemma TapOnFutureDayIsNoOp(rows: seq<RecordRow>, trackerId: Uuid, selectedDate: Instant, today: Instant)
    requires !CompletedOn(rows, trackerId, selectedDate)
    requires selectedDate >= StartOfDay(today) + SecondsPerDay
    ensures Toggled(rows, trackerId, selectedDate, today) == rows
  {
    MayCompleteUntilEndOfToday(selectedDate, today);
  }

  /** A second tap undoes a tap that completed the tracker. */
  lemma TapTwiceRestores(rows: seq<RecordRow>, trackerId: Uuid, selectedDate: Instant, today: Instant)
    requires !CompletedOn(rows, trackerId, selectedDate) && MayComplete(selectedDate, today)
    ensures Toggled(Toggled(rows, trackerId, selectedDate, today), trackerId, selectedDate, today) == rows
  {
    AddedIsCompleted(rows, trackerId, selectedDate);
    AddThenRemove(rows, trackerId, selectedDate);
  }

  /** A tap on one tracker leaves every other tracker's records as they were. */
  lemma TapKeepsOthers(rows: seq<RecordRow>, trackerId: Uuid, selectedDate: Instant, today: Instant, other: Uuid)
    requires other != trackerId
    ensures RowsOf(Toggled(rows, trackerId, selectedDate, today), other) == RowsOf(rows, other)
  {
    if CompletedOn(rows, trackerId, selectedDate) {
      RemoveKeepsOthers(rows, trackerId, selectedDate, other);
    } else if MayComplete(selectedDate, today) {
      AppendRecordCounts(rows, trackerId, selectedDate, other);
    }
  }

  /** `visibleCategories.contains { !$0.trackers.isEmpty }`. */
  function HasVisibleTrackers(categories: seq<TrackerCategory>): (b: bool)
    ensures b <==> exists i :: 0 <= i < |categories| && categories[i].trackers != []
  {
    if |categories| == 0 then false
    else
      var rest := HasVisibleTrackers(categories[1..]);
      assert forall i :: 1 <= i < |categories| ==> categories[i] == categories[1..][i - 1];
      categories[0].trackers != [] || rest
  }

  /** The tracker at `path` of the collection has the id. */
  predicate TrackerAt(categories: seq<TrackerCategory>, path: IndexPath, id: Uuid) {
    && path.section < |categories|
    && path.item < |categories[path.section].trackers|
    && categories[path.section].trackers[path.item].id == id
  }

  /** `p` comes before `q` in a section-major scan. */
  predicate Before(p: IndexPath, q: IndexPath) {
    p.section < q.section || (p.section == q.section && p.item < q.item)
  }

  class TrackersViewController {
    const trackerStore: TrackerStore
    const trackerRecordStore: TrackerRecordStore
    /** The date picker's value. */
    var selectedDate: Instant
    var visibleCategories: seq<TrackerCategory>
    var completedTrackers: set<TrackerRecord>
    var placeholderHidden: bool
    var collectionHidden: bool

    constructor (trackerStore: TrackerStore, trackerRecordStore: TrackerRecordStore, selectedDate: Instant)
      ensures this.trackerStore == trackerStore && this.trackerRecordStore == trackerRecordStore
      ensures this.selectedDate == selectedDate
      ensures visibleCategories == [] && completedTrackers == {}
      ensures !placeholderHidden && !collectionHidden
    {
      this.trackerStore := trackerStore;
      this.trackerRecordStore := trackerRecordStore;
      this.selectedDate := selectedDate;
      visibleCategories := [];
      completedTrackers := {};
      placeholderHidden := false;
      collectionHidden := false;
    }

    method LoadData()
      modifies this`completedTrackers
      ensures completedTrackers == CompletedRecords(trackerRecordStore.context.records)
    {
      completedTrackers := trackerRecordStore.FetchCompletedTrackers();
    }

    /** The placeholder shows exactly when no visible category has a tracker, and the collection otherwise. */
    method UpdatePlaceholderVisibility()
      modifies this`placeholderHidden, this`collectionHidden
      ensures placeholderHidden == HasVisibleTrackers(visibleCategories)
      ensures collectionHidden == !placeholderHidden
    {
      var hasVisibleTrackers := HasVisibleTrackers(visibleCategories);
      placeholderHidden := hasVisibleTrackers;
      collectionHidden := !hasVisibleTrackers;
    }

    /** Shows the daily view of the picked date's weekday. */
    method ReloadData()
      requires trackerStore.Valid()
      modifies this`visibleCategories, this`placeholderHidden, this`collectionHidden
      ensures IsDailyView(visibleCategories, AllTrackers(trackerStore.context.trackers),
                          WeekdayFromCalendar(CalendarWeekday(selectedDate)).value,
                          trackerStore.context.trackers, trackerStore.context.categories)
      ensures placeholderHidden == HasVisibleTrackers(visibleCategories) && collectionHidden == !placeholderHidden
    {
      visibleCategories := trackerStore.FetchTrackersFor(CalendarWeekday(selectedDate));
      ghost var shown := visibleCategories;
      UpdatePlaceholderVisibility();
      assert visibleCategories == shown;
    }

    /** A new date in the picker reloads the view for it. */
    method DatePickerValueChanged(date: Instant)
      requires trackerStore.Valid()
      modifies this`selectedDate, this`visibleCategories, this`placeholderHidden, this`collectionHidden
      ensures selectedDate == date
      ensures IsDailyView(visibleCategories, AllTrackers(trackerStore.context.trackers),
                          WeekdayFromCalendar(CalendarWeekday(date)).value,
                          trackerStore.context.trackers, trackerStore.context.categories)
      ensures placeholderHidden == HasVisibleTrackers(visibleCategories) && collectionHidden == !placeholderHidden
    {
      selectedDate := date;
      ReloadData();
    }

    predicate IsTrackerCompletedToday(trackerId: Uuid)
      reads this, trackerRecordStore.context
    {
      trackerRecordStore.IsTrackerCompleted(trackerId, selectedDate)
    }

    /** completeTracker: records the start of the picked day, unless that day is after today. */
    method CompleteTracker(trackerId: Uuid, today: Instant)
      modifies trackerRecordStore.context`records, this`completedTrackers
      ensures MayComplete(selectedDate, today) ==> (
        && trackerRecordStore.context.records == AppendRecord(old(trackerRecordStore.context.records), trackerId, selectedDate)
        && completedTrackers == CompletedRecords(trackerRecordStore.context.records)
        && IsTrackerCompletedToday(trackerId))
      ensures !MayComplete(selectedDate, today) ==>
        unchanged(trackerRecordStore.context) && completedTrackers == old(completedTrackers)
    {
      var normalizedSelectedDate := StartOfDay(selectedDate);
      var normalizedToday := StartOfDay(today);
      if !(normalizedSelectedDate <= normalizedToday) {
        return;
      }
      ghost var before := trackerRecordStore.context.records;
      trackerRecordStore.AddRecord(trackerId, normalizedSelectedDate);
      StartOfDaySameWindow(before, trackerId, selectedDate);
      AddedIsCompleted(before, trackerId, selectedDate);
      completedTrackers := trackerRecordStore.FetchCompletedTrackers();
      var _ := FindIndexPathForTracker(trackerId);
    }

    /** uncompleteTracker: removes a record of the picked day, whatever the day. */
    method UncompleteTracker(trackerId: Uuid)
      modifies trackerRecordStore.context`records, this`completedTrackers
      ensures trackerRecordStore.context.records == RemoveFirstInWindow(old(trackerRecordStore.context.records), trackerId, selectedDate)
      ensures completedTrackers == CompletedRecords(trackerRecordStore.context.records)
    {
      var normalizedSelectedDate := StartOfDay(selectedDate);
      ghost var before := trackerRecordStore.context.records;
      trackerRecordStore.RemoveRecord(trackerId, normalizedSelectedDate);
      StartOfDaySameWindow(before, trackerId, selectedDate);
      completedTrackers := trackerRecordStore.FetchCompletedTrackers();
      var _ := FindIndexPathForTracker(trackerId);
    }

    /** The closure `onCompleteButtonTapped` of a tracker's cell. */
    method TapCompleteButton(trackerId: Uuid, today: Instant)
      modifies trackerRecordStore.context`records, this`completedTrackers
      ensures trackerRecordStore.context.records == Toggled(old(trackerRecordStore.context.records), trackerId, selectedDate, today)
      ensures old(IsTrackerCompletedToday(trackerId)) || MayComplete(selectedDate, today) ==>
        completedTrackers == CompletedRecords(trackerRecordStore.context.records)
      ensures !old(IsTrackerCompletedToday(trackerId)) && !MayComplete(selectedDate, today) ==>
        completedTrackers == old(completedTrackers)
    {
      var isCurrentlyCompleted := IsTrackerCompletedToday(trackerId);
      if isCurrentlyCompleted {
        UncompleteTracker(trackerId);
      } else {
        CompleteTracker(trackerId, today);
      }
    }

    /** findIndexPathForTracker(with:): the first position holding the id, scanning section by section. */
    method FindIndexPathForTracker(id: Uuid) returns (path: Option<IndexPath>)
      ensures path.Some? ==> TrackerAt(visibleCategories, path.value, id)
      ensures path.Some? ==> forall p :: Before(p, path.value) ==> !TrackerAt(visibleCategories, p, id)
      ensures path.None? <==> forall p :: !TrackerAt(visibleCategories, p, id)
    {
      var sectionIndex := 0;
      while sectionIndex < |visibleCategories|
        invariant 0 <= sectionIndex <= |visibleCategories|
        invariant forall p :: TrackerAt(visibleCategories, p, id) ==> p.section >= sectionIndex
      {
        var trackers := visibleCategories[sectionIndex].trackers;
        var itemIndex := 0;
        while itemIndex < |trackers|
          invariant 0 <= itemIndex <= |trackers|
          invariant forall p :: TrackerAt(visibleCategories, p, id) ==>
            p.section > sectionIndex || (p.section == sectionIndex && p.item >= itemIndex)
        {
          if trackers[itemIndex].id == id {
            assert TrackerAt(visibleCategories, IndexPath(sectionIndex, itemIndex), id);
            return Some(IndexPath(sectionIndex, itemIndex));
          }
          itemIndex := itemIndex + 1;
        }
        sectionIndex := sectionIndex + 1;
      }
      return None;
    }
  }
}
