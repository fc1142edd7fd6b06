/** The habit form: creating a new tracker or editing an existing one. The
    form collects a name, a category title, a schedule, an emoji and a color;
    its action button is enabled only when all of them are filled in, and the
    action hands the finished tracker to the delegate. The delegate call the
    action makes is the value the action returns; `UUID()` is a parameter. */
module HabitForm {
  import opened Domain
  import opened Seqs
  import opened Sorting
  import opened Text
  import opened CellText
  import opened RecordStore

  /** The longest name the form keeps. */
  const MaxNameLength: nat := 38

  /** The screen's title and its action button's title in each mode. */
  const NewHabitTitle: string := "Новая привычка"
  const EditHabitTitle: string := "Редактирование привычки"
  const CreateActionTitle: string := "Создать"
  const SaveActionTitle: string := "Сохранить"

  /** TrackerFormMode. */
  datatype TrackerFormMode = Create | Edit(tracker: Tracker, categoryTitle: string)

  /** A call the form makes on its delegate. */
  datatype DelegateCall =
    | DidCreateTracker(tracker: Tracker, categoryTitle: string)
    | DidUpdateTracker(tracker: Tracker, categoryTitle: string)

  /** The word formatDaysString(_:) picks from the count's last digit and last two digits,
      both under Swift's truncating `%`. */
  function FormWord(lastDigit: int, lastTwoDigits: int): string {
    if lastTwoDigits >= 11 && lastTwoDigits <= 19 then "дней"
    else if lastDigit == 1 then "день"
    else if 2 <= lastDigit <= 4 then "дня"
    else "дней"
  }

  /** CreateHabitScreen.formatDaysString(_:): the count, a space and the word. */
  function FormatDaysString(count: int): string {
    IntToString(count) + " " + FormWord(SwiftRem(count, 10), SwiftRem(count, 100))
  }

  /** For a count of days the form picks the word of the plural rule. */
  lemma FormWordFollowsPluralRule(count: nat)
    ensures FormWord(SwiftRem(count, 10), SwiftRem(count, 100)) == DaysWord(count)
  {
    var tens := LastTwoDigits(count);
  }

  /** For a count of days the form writes the count and then the word the plural rule asks for. */
  lemma FormatDaysStringFollowsPluralRule(count: nat)
    ensures FormatDaysString(count) == NatToString(count) + " " + DaysWord(count)
  {
    FormWordFollowsPluralRule(count);
  }

  /** The form's and the cell's formatters write the same text for every Int, negative ones included. */
  lemma FormattersAgree(count: int)
    ensures FormatDaysString(count) == FormatDays(count)
  {
    if count >= 0 {
      FormatDaysStringFollowsPluralRule(count);
      FormatDaysFollowsPluralRule(count);
    } else {
      FormatDaysNegative(count);
    }
  }

  /** The order `$0.bitValue < $1.bitValue`. */
  predicate BitLe(a: Weekday, b: Weekday) {
    BitValue(a) <= BitValue(b)
  }

  lemma BitLeIsLinearOrder()
    ensures TotalPreorder(BitLe) && Antisymmetric(BitLe)
  {
  }

  /** formatScheduleText(_:): "Каждый день" for as many entries as there are weekdays,
      otherwise the short names in bit order. */
  function FormatScheduleText(schedule: seq<Weekday>): string {
    if |schedule| == |AllWeekdays| then "Каждый день"
    else Join(MapSeq(SortBy(schedule, BitLe), ShortName), ", ")
  }

  /** The label does not depend on the order in which the days were picked. */
  lemma ScheduleTextIgnoresOrder(a: seq<Weekday>, b: seq<Weekday>)
    requires multiset(a) == multiset(b)
    ensures FormatScheduleText(a) == FormatScheduleText(b)
  {
    assert |a| == |multiset(a)| == |multiset(b)| == |b|;
    BitLeIsLinearOrder();
    SortBySorted(a, BitLe);
    SortBySorted(b, BitLe);
    SortedUnique(SortBy(a, BitLe), SortBy(b, BitLe), BitLe);
  }

  function IsPicked(schedule: seq<Weekday>): Weekday -> bool {
    (d: Weekday) => d in schedule
  }

  /** A filter keeps the elements distinct. */
  lemma {:induction false} FilterDistinct<T>(s: seq<T>, p: T -> bool)
    requires Distinct(s)
    ensures Distinct(Filter(s, p))
  {
    if |s| > 0 {
      assert Distinct(s[1..]) by {
        forall i, j | 0 <= i < j < |s[1..]| ensures s[1..][i] != s[1..][j] {
          assert s[1..][i] == s[i + 1] && s[1..][j] == s[j + 1];
        }
      }
      FilterDistinct(s[1..], p);
      var rest := Filter(s[1..], p);
      assert s[0] !in rest by {
        assert forall i :: 0 <= i < |rest| ==> rest[i] in s[1..];
        assert forall i :: 0 <= i < |s[1..]| ==> s[1..][i] != s[0];
      }
    }
  }

  /** Holds exactly once for an element of a distinct sequence and never for others. */
  lemma DistinctCount<T>(s: seq<T>, x: T)
    requires Distinct(s)
    ensures multiset(s)[x] == if x in s then 1 else 0
  {
    DistinctMultiplicity(s, x);
  }

  lemma EveryWeekdayListed(w: Weekday)
    ensures w in AllWeekdays
  {
    match w
    case Monday => assert AllWeekdays[0] == w;
    case Tuesday => assert AllWeekdays[1] == w;
    case Wednesday => assert AllWeekdays[2] == w;
    case Thursday => assert AllWeekdays[3] == w;
    case Friday => assert AllWeekdays[4] == w;
    case Saturday => assert AllWeekdays[5] == w;
    case Sunday => assert AllWeekdays[6] == w;
  }

  /** Weekday.allCases lists the days with strictly growing bit values. */
  lemma WeekInBitOrder()
    ensures Sorted(AllWeekdays, BitLe) && Distinct(AllWeekdays)
  {
    var week, key := AllWeekdays, (w: Weekday) => BitValue(w) as int;
    forall k | 0 <= k < |week| - 1 ensures key(week[k]) < key(week[k + 1]) {
      if k == 0 {} else if k == 1 {} else if k == 2 {} else if k == 3 {} else if k == 4 {} else {}
    }
    forall i, j | 0 <= i < j < |week| ensures BitValue(week[i]) < BitValue(week[j]) {
      KeyIncreasingPair(week, key, i, j);
    }
  }

  /** The weekdays a filter keeps stay in bit order and distinct. */
  lemma FilteredWeekSorted(p: Weekday -> bool)
    ensures Sorted(Filter(AllWeekdays, p), BitLe)
    ensures Distinct(Filter(AllWeekdays, p))
  {
    WeekInBitOrder();
    FilterSorted(AllWeekdays, p, BitLe);
    FilterDistinct(AllWeekdays, p);
  }

  /** Two sequences without repeats that hold the same elements are permutations of each other. */
  lemma SameElementsSameMultiset<T>(a: seq<T>, b: seq<T>)
    requires Distinct(a) && Distinct(b)
    requires forall x :: x in a <==> x in b
    ensures multiset(a) == multiset(b)
  {
    forall x ensures multiset(a)[x] == multiset(b)[x] {
      DistinctCount(a, x);
      DistinctCount(b, x);
    }
  }

  /** The weekdays picked by a schedule without repeats are the schedule itself, up to order. */
  lemma FilteredWeekIsSchedule(schedule: seq<Weekday>)
    requires Distinct(schedule)
    ensures multiset(Filter(AllWeekdays, IsPicked(schedule))) == multiset(schedule)
  {
    var week := Filter(AllWeekdays, IsPicked(schedule));
    FilteredWeekSorted(IsPicked(schedule));
    forall w: Weekday ensures w in week <==> w in schedule {
      EveryWeekdayListed(w);
    }
    SameElementsSameMultiset(week, schedule);
  }

  /** For a schedule without repeated days and missing at least one weekday, the label lists
      the short names of the picked days in the order of the week, Monday first. */
  lemma ScheduleTextInWeekOrder(schedule: seq<Weekday>)
    requires Distinct(schedule) && |schedule| < |AllWeekdays|
    ensures FormatScheduleText(schedule) == Join(MapSeq(Filter(AllWeekdays, IsPicked(schedule)), ShortName), ", ")
  {
    var week := Filter(AllWeekdays, IsPicked(schedule));
    FilteredWeekSorted(IsPicked(schedule));
    FilteredWeekIsSchedule(schedule);
    BitLeIsLinearOrder();
    SortBySorted(schedule, BitLe);
    SortedUnique(SortBy(schedule, BitLe), week, BitLe);
  }

  /** The readiness rule of updateActionButtonState(): a non-empty name, a category,
      a non-empty schedule, an emoji and a color. */
  predicate IsReady(text: Option<string>, category: Option<string>, schedule: seq<Weekday>,
                    emoji: Option<string>, color: Option<Color>) {
    && !(text.None? || text.value == [])
    && category.Some?
    && schedule != []
    && emoji.Some?
    && color.Some?
  }

  /** validateTextLength(): text of 38 characters or more keeps its first 38. */
  function Truncated(text: string): (r: string)
    ensures |r| <= MaxNameLength && |r| <= |text| && r == text[..|r|]
    ensures |text| < MaxNameLength ==> r == text
    ensures |text| >= MaxNameLength ==> |r| == MaxNameLength
  {
    if |text| >= MaxNameLength then text[..MaxNameLength] else text
  }

  /** Truncating leaves a name empty exactly when it was empty, so it never changes readiness. */
  lemma TruncationKeepsReadiness(text: string, category: Option<string>, schedule: seq<Weekday>,
                                 emoji: Option<string>, color: Option<Color>)
    ensures IsReady(Some(Truncated(text)), category, schedule, emoji, color) == IsReady(Some(text), category, schedule, emoji, color)
  {
  }

  class CreateHabitScreen {
    var mode: TrackerFormMode
    /** textField.text. */
    var text: Option<string>
    var selectedCategory: Option<string>
    var selectedSchedule: seq<Weekday>
    var selectedEmoji: Option<string>
    var selectedColor: Option<Color>
    var completedDays: int
    /** actionButton.isEnabled. */
    var actionEnabled: bool
    /** Whether the clear button and the 38-character error are showing. */
    var clearButtonShown: bool
    var errorShown: bool
    /** nameScreen's text, the action button's title and daysCountLabel's text and visibility. */
    var screenTitle: string
    var actionTitle: string
    var daysCountText: string
    var daysCountHidden: bool

    /** init(mode:), before the view loads. */
    constructor (mode: TrackerFormMode)
      ensures this.mode == mode
      ensures text == Some("") && selectedCategory.None? && selectedSchedule == []
      ensures selectedEmoji.None? && selectedColor.None? && completedDays == 0
      ensures !actionEnabled
    {
      this.mode := mode;
      text := Some("");
      selectedCategory := None;
      selectedSchedule := [];
      selectedEmoji := None;
      selectedColor := None;
      completedDays := 0;
      actionEnabled := false;
      clearButtonShown := false;
      errorShown := false;
      screenTitle := "";
      actionTitle := "";
      daysCountText := "0 дней";
      daysCountHidden := true;
    }

    predicate Ready()
      reads this
    {
      IsReady(text, selectedCategory, selectedSchedule, selectedEmoji, selectedColor)
    }

    method UpdateActionButtonState()
      modifies this`actionEnabled
      ensures actionEnabled == Ready()
    {
      var isNameEmpty := text.None? || text.value == [];
      var isCategorySelected := selectedCategory.Some?;
      var isScheduleSelected := selectedSchedule != [];
      var isEmojiSelected := selectedEmoji.Some?;
      var isColorSelected := selectedColor.Some?;
      actionEnabled := !isNameEmpty && isCategorySelected && isScheduleSelected && isEmojiSelected && isColorSelected;
    }

    method UpdateClearButtonVisibility()
      modifies this`clearButtonShown
      ensures clearButtonShown <==> text.Some? && text.value != []
    {
      clearButtonShown := !(text.None? || text.value == []);
    }

    /** validateTextLength(): no text is left alone; otherwise the text is truncated and the error shows
        exactly when it had reached the limit. */
    method ValidateTextLength()
      modifies this`text, this`errorShown
      ensures old(text).None? ==> text.None? && errorShown == old(errorShown)
      ensures old(text).Some? ==> text == Some(Truncated(old(text).value)) && errorShown == (|old(text).value| >= MaxNameLength)
    {
      if text.None? {
        return;
      }
      var t := text.value;
      if |t| >= MaxNameLength {
        text := Some(t[..MaxNameLength]);
        errorShown := true;
      } else {
        errorShown := false;
      }
    }

    /** textFieldChanged(), after the field's text became `newText`: readiness is judged
        before truncation, which never changes it. */
    method TextFieldChanged(newText: Option<string>)
      modifies this`text, this`actionEnabled, this`clearButtonShown, this`errorShown
      ensures text == if newText.Some? then Some(Truncated(newText.value)) else None
      ensures actionEnabled == Ready()
      ensures clearButtonShown <==> newText.Some? && newText.value != []
      ensures newText.Some? ==> errorShown == (|newText.value| >= MaxNameLength)
      ensures newText.None? ==> errorShown == old(errorShown)
    {
      text := newText;
      UpdateActionButtonState();
      UpdateClearButtonVisibility();
      ValidateTextLength();
      if newText.Some? {
        TruncationKeepsReadiness(newText.value, selectedCategory, selectedSchedule, selectedEmoji, selectedColor);
      }
    }

    /** clearTextField(): an empty name disables the action. */
    method ClearTextField()
      modifies this`text, this`actionEnabled, this`clearButtonShown, this`errorShown
      ensures text == Some("") && !actionEnabled && !clearButtonShown && !errorShown
    {
      TextFieldChanged(Some(""));
    }

    /** didSelectCategory(_:) of the category picker. */
    method DidSelectCategory(category: string)
      modifies this`selectedCategory, this`actionEnabled
      ensures selectedCategory == Some(category) && actionEnabled == Ready()
    {
      selectedCategory := Some(category);
      UpdateActionButtonState();
    }

    /** didSelectSchedule(_:) of the schedule picker. */
    method DidSelectSchedule(schedule: seq<Weekday>)
      modifies this`selectedSchedule, this`actionEnabled
      ensures selectedSchedule == schedule && actionEnabled == Ready()
    {
      selectedSchedule := schedule;
      UpdateActionButtonState();
    }

    /** A tap in the emoji section; the emoji is the one at the tapped position. */
    method DidSelectEmoji(emoji: string)
      modifies this`selectedEmoji, this`actionEnabled
      ensures selectedEmoji == Some(emoji) && actionEnabled == Ready()
    {
      selectedEmoji := Some(emoji);
      UpdateActionButtonState();
    }

    /** A tap in the color section; the color is the one at the tapped position. */
    method DidSelectColor(color: Color)
      modifies this`selectedColor, this`actionEnabled
      ensures selectedColor == Some(color) && actionEnabled == Ready()
    {
      selectedColor := Some(color);
      UpdateActionButtonState();
    }

    /** The label of the schedule row: none for an empty schedule. */
    function ScheduleDetail(): (detail: Option<string>)
      reads this
      ensures detail.None? <==> selectedSchedule == []
      ensures detail.Some? ==> detail.value == FormatScheduleText(selectedSchedule)
    {
      if selectedSchedule != [] then Some(FormatScheduleText(selectedSchedule)) else None
    }

    /** createTracker(): the delegate is called, with a tracker made of the form's fields and
        the fresh id, exactly when the form is ready. */
    method CreateTracker(newId: Uuid) returns (call: Option<DelegateCall>)
      ensures call.Some? <==> Ready()
      ensures call.Some? ==> call.value == DidCreateTracker(
        Tracker(newId, text.value, selectedColor.value, selectedSchedule, selectedEmoji.value), selectedCategory.value)
    {
      if text.None? || text.value == [] || selectedCategory.None? || selectedSchedule == []
         || selectedEmoji.None? || selectedColor.None? {
        return None;
      }
      var newTracker := Tracker(newId, text.value, selectedColor.value, selectedSchedule, selectedEmoji.value);
      call := Some(DidCreateTracker(newTracker, selectedCategory.value));
    }

    /** updateTracker(_:): as createTracker(), but the tracker keeps the original's id. */
    method UpdateTracker(originalTracker: Tracker) returns (call: Option<DelegateCall>)
      ensures call.Some? <==> Ready()
      ensures call.Some? ==> call.value.DidUpdateTracker? && call.value.tracker.id == originalTracker.id
      ensures call.Some? ==> call.value == DidUpdateTracker(
        Tracker(originalTracker.id, text.value, selectedColor.value, selectedSchedule, selectedEmoji.value), selectedCategory.value)
    {
      if text.None? || text.value == [] || selectedCategory.None? || selectedSchedule == []
         || selectedEmoji.None? || selectedColor.None? {
        return None;
      }
      var updatedTracker := Tracker(originalTracker.id, text.value, selectedColor.value, selectedSchedule, selectedEmoji.value);
      call := Some(DidUpdateTracker(updatedTracker, selectedCategory.value));
    }

    /** performAction(): create or update, according to the mode. */
    method PerformAction(newId: Uuid) returns (call: Option<DelegateCall>)
      ensures call.Some? <==> Ready()
      ensures call.Some? ==> (call.value.DidCreateTracker? <==> mode.Create?)
      ensures call.Some? && mode.Edit? ==> call.value.tracker.id == mode.tracker.id
      ensures call.Some? && mode.Create? ==> call.value == DidCreateTracker(
        Tracker(newId, text.value, selectedColor.value, selectedSchedule, selectedEmoji.value), selectedCategory.value)
      ensures call.Some? && mode.Edit? ==> call.value == DidUpdateTracker(
        Tracker(mode.tracker.id, text.value, selectedColor.value, selectedSchedule, selectedEmoji.value), selectedCategory.value)
    {
      match mode
      case Create =>
        call := CreateTracker(newId);
      case Edit(tracker, _) =>
        call := UpdateTracker(tracker);
    }

    /** configureForMode(): edit mode fills the form from the tracker and the category title and
        shows the number of days the tracker was completed. */
    method ConfigureForMode(recordStore: TrackerRecordStore)
      modifies this`screenTitle, this`actionTitle, this`clearButtonShown, this`daysCountHidden, this`text
      modifies this`selectedCategory, this`selectedSchedule, this`selectedEmoji, this`selectedColor
      modifies this`completedDays, this`daysCountText, this`actionEnabled
      ensures mode.Create? ==> (
        && screenTitle == NewHabitTitle && actionTitle == CreateActionTitle && daysCountHidden
        && text == old(text) && selectedCategory == old(selectedCategory) && selectedSchedule == old(selectedSchedule)
        && selectedEmoji == old(selectedEmoji) && selectedColor == old(selectedColor) && actionEnabled == old(actionEnabled)
        && !clearButtonShown && completedDays == old(completedDays) && daysCountText == old(daysCountText))
      ensures mode.Edit? ==> (
        && screenTitle == EditHabitTitle && actionTitle == SaveActionTitle && !daysCountHidden
        && text == Some(mode.tracker.name) && selectedCategory == Some(mode.categoryTitle)
        && selectedSchedule == mode.tracker.schedule && selectedEmoji == Some(mode.tracker.emoji)
        && selectedColor == Some(mode.tracker.color)
        && completedDays == RecordCount(recordStore.context.records, mode.tracker.id)
        && daysCountText == FormatDays(completedDays)
        && (clearButtonShown <==> mode.tracker.name != [])
        && (actionEnabled <==> mode.tracker.name != [] && mode.tracker.schedule != []))
    {
      match mode
      case Create =>
        screenTitle := NewHabitTitle;
        actionTitle := CreateActionTitle;
        clearButtonShown := false;
        daysCountHidden := true;
      case Edit(tracker, categoryTitle) =>
        Prefill(tracker, categoryTitle, recordStore);
    }

    /** updateCompletedDaysCount(for:): the number of the tracker's records, shown in words. */
    method UpdateCompletedDaysCount(trackerId: Uuid, recordStore: TrackerRecordStore)
      modifies this`completedDays, this`daysCountText, this`daysCountHidden
      ensures completedDays == RecordCount(recordStore.context.records, trackerId)
      ensures daysCountText == FormatDays(completedDays) && !daysCountHidden
    {
      completedDays := recordStore.CompletedDaysCount(trackerId);
      UpdateDaysCountLabel();
    }

    /** updateDaysCountLabel(): the form's formatter, which writes what the cell's does. */
    method UpdateDaysCountLabel()
      modifies this`daysCountText, this`daysCountHidden
      ensures daysCountText == FormatDays(completedDays) && !daysCountHidden
    {
      daysCountText := FormatDaysString(completedDays);
      FormattersAgree(completedDays);
      daysCountHidden := false;
    }

    /** The edit branch of configureForMode(). */
    method Prefill(tracker: Tracker, categoryTitle: string, recordStore: TrackerRecordStore)
      modifies this`screenTitle, this`actionTitle, this`clearButtonShown, this`daysCountHidden, this`text
      modifies this`selectedCategory, this`selectedSchedule, this`selectedEmoji, this`selectedColor
      modifies this`completedDays, this`daysCountText, this`actionEnabled
      ensures screenTitle == EditHabitTitle && actionTitle == SaveActionTitle && !daysCountHidden
      ensures text == Some(tracker.name) && selectedCategory == Some(categoryTitle)
      ensures selectedSchedule == tracker.schedule && selectedEmoji == Some(tracker.emoji)
      ensures selectedColor == Some(tracker.color)
      ensures completedDays == RecordCount(recordStore.context.records, tracker.id)
      ensures daysCountText == FormatDays(completedDays)
      ensures clearButtonShown <==> tracker.name != []
      ensures actionEnabled <==> tracker.name != [] && tracker.schedule != []
    {
      ShowTracker(tracker, categoryTitle);
      UpdateCompletedDaysCount(tracker.id, recordStore);
      UpdateClearButtonVisibility();
      UpdateActionButtonState();
    }

    /** The assignments of the edit branch: the edit titles and the tracker's fields. */
    method ShowTracker(tracker: Tracker, categoryTitle: string)
      modifies this`screenTitle, this`actionTitle, this`text
      modifies this`selectedCategory, this`selectedSchedule, this`selectedEmoji, this`selectedColor
      ensures screenTitle == EditHabitTitle && actionTitle == SaveActionTitle
      ensures text == Some(tracker.name) && selectedCategory == Some(categoryTitle)
      ensures selectedSchedule == tracker.schedule && selectedEmoji == Some(tracker.emoji)
      ensures selectedColor == Some(tracker.color)
    {
      screenTitle := EditHabitTitle;
      actionTitle := SaveActionTitle;
      text := Some(tracker.name);
      selectedCategory := Some(categoryTitle);
      selectedSchedule := tracker.schedule;
      selectedEmoji := Some(tracker.emoji);
      selectedColor := Some(tracker.color);
    }
  }
}
