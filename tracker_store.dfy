/** TrackerStore: the habits. Trackers are read through a fetch sorted by
    name, rows missing a required attribute are skipped, and the daily view
    groups the trackers scheduled on a weekday under their category titles,
    sorted by title. Creating a tracker links it to the category of the given
    title, creating that category when it is missing. */
module TrackerStorage {
  import opened Domain
  import opened Seqs
  import opened Sorting
  import opened Text
  import opened Persistence
  import opened CategoryStore

  /** The title under which trackers without a category are shown. */
  const Uncategorized: string := "Без категории"

  /** The error createTracker throws when the context has no persistent store. */
  datatype StoreError = ContextNotReady

  function StoreErrorDescription(e: StoreError): string {
    match e
    case ContextNotReady => "Контекст Core Data не готов"
  }

  predicate TrackerNameLe(a: Tracker, b: Tracker) {
    StrLe(a.name, b.name)
  }

  /** fetchTrackers(): the complete rows of the name-sorted fetch, as trackers, in that order. */
  function AllTrackers(rows: seq<TrackerRow>): seq<Tracker> {
    CompactMap(SortBy(rows, RowNameLe), TrackerFromRow)
  }

  /** The fetched trackers are sorted by name, each comes from a complete row, and every
      complete row gives one of them. */
  lemma AllTrackersSortedAndComplete(rows: seq<TrackerRow>)
    ensures Sorted(AllTrackers(rows), TrackerNameLe)
    ensures forall i :: 0 <= i < |AllTrackers(rows)| ==>
      exists k :: 0 <= k < |rows| && TrackerFromRow(rows[k]) == Some(AllTrackers(rows)[i])
    ensures forall k :: 0 <= k < |rows| && TrackerFromRow(rows[k]).Some? ==> TrackerFromRow(rows[k]).value in AllTrackers(rows)
  {
    var sorted := SortBy(rows, RowNameLe);
    RowNameLeIsTotalPreorder();
    SortBySorted(rows, RowNameLe);
    CompactMapSorted(sorted, TrackerFromRow, RowNameLe, TrackerNameLe);
    var trackers := CompactMap(sorted, TrackerFromRow);
    forall i | 0 <= i < |trackers| ensures exists k :: 0 <= k < |rows| && TrackerFromRow(rows[k]) == Some(trackers[i]) {
      var j :| 0 <= j < |sorted| && TrackerFromRow(sorted[j]) == Some(trackers[i]);
      assert sorted[j] in multiset(rows);
      var k :| 0 <= k < |rows| && rows[k] == sorted[j];
    }
    forall k | 0 <= k < |rows| && TrackerFromRow(rows[k]).Some? ensures TrackerFromRow(rows[k]).value in trackers {
      assert rows[k] in multiset(sorted);
      var j :| 0 <= j < |sorted| && sorted[j] == rows[k];
    }
  }

  /** The title a tracker is grouped under in the daily view. */
  function TitleFor(trackerRows: seq<TrackerRow>, categoryRows: seq<CategoryRow>, t: Tracker): string
    requires UniqueObjectIds(categoryRows)
  {
    CategoryTitleIn(trackerRows, categoryRows, t.id).GetOr(Uncategorized)
  }

  /** `t` is scheduled on `w` and belongs under `title`. */
  predicate Belongs(t: Tracker, w: Weekday, title: string, trackerRows: seq<TrackerRow>, categoryRows: seq<CategoryRow>)
    requires UniqueObjectIds(categoryRows)
  {
    w in t.schedule && TitleFor(trackerRows, categoryRows, t) == title
  }

  /** The trackers the daily view lists under `title`, in fetch order. */
  function GroupMembers(all: seq<Tracker>, w: Weekday, title: string,
                        trackerRows: seq<TrackerRow>, categoryRows: seq<CategoryRow>): seq<Tracker>
    requires UniqueObjectIds(categoryRows)
    decreases |all|
  {
    if |all| == 0 then []
    else
      GroupMembers(all[..|all| - 1], w, title, trackerRows, categoryRows)
      + (if Belongs(all[|all| - 1], w, title, trackerRows, categoryRows) then [all[|all| - 1]] else [])
  }

  /** Extending the fetch by one tracker extends each group by it or by nothing. */
  lemma GroupMembersSnoc(all: seq<Tracker>, t: Tracker, w: Weekday, title: string,
                         trackerRows: seq<TrackerRow>, categoryRows: seq<CategoryRow>)
    requires UniqueObjectIds(categoryRows)
    ensures GroupMembers(all + [t], w, title, trackerRows, categoryRows) ==
      GroupMembers(all, w, title, trackerRows, categoryRows) + (if Belongs(t, w, title, trackerRows, categoryRows) then [t] else [])
  {
    assert (all + [t])[..|all|] == all;
  }

  /** A group holds exactly the trackers of the fetch that are scheduled on the weekday and carry its title. */
  lemma {:induction false} GroupMembersIff(all: seq<Tracker>, w: Weekday, title: string,
                                           trackerRows: seq<TrackerRow>, categoryRows: seq<CategoryRow>, t: Tracker)
    requires UniqueObjectIds(categoryRows)
    ensures t in GroupMembers(all, w, title, trackerRows, categoryRows) <==> t in all && Belongs(t, w, title, trackerRows, categoryRows)
    decreases |all|
  {
    if |all| > 0 {
      var prefix := all[..|all| - 1];
      GroupMembersIff(prefix, w, title, trackerRows, categoryRows, t);
      assert all == prefix + [all[|all| - 1]];
    }
  }

  /** A group keeps the order of the fetch it is drawn from. */
  lemma {:induction false} GroupMembersSorted(all: seq<Tracker>, w: Weekday, title: string,
                                              trackerRows: seq<TrackerRow>, categoryRows: seq<CategoryRow>)
    requires UniqueObjectIds(categoryRows)
    requires Sorted(all, TrackerNameLe)
    ensures Sorted(GroupMembers(all, w, title, trackerRows, categoryRows), TrackerNameLe)
    decreases |all|
  {
    if |all| > 0 {
      var prefix := all[..|all| - 1];
      var last := all[|all| - 1];
      assert Sorted(prefix, TrackerNameLe);
      GroupMembersSorted(prefix, w, title, trackerRows, categoryRows);
      var rest := GroupMembers(prefix, w, title, trackerRows, categoryRows);
      var members := GroupMembers(all, w, title, trackerRows, categoryRows);
      if Belongs(last, w, title, trackerRows, categoryRows) {
        assert members == rest + [last];
        forall i | 0 <= i < |rest| ensures TrackerNameLe(rest[i], last) {
          GroupMembersIff(prefix, w, title, trackerRows, categoryRows, rest[i]);
          assert rest[i] in prefix;
          var k :| 0 <= k < |prefix| && prefix[k] == rest[i];
        }
      }
    }
  }

  function CategoryTitleLe(a: TrackerCategory, b: TrackerCategory): bool {
    StrLe(a.title, b.title)
  }

  lemma CategoryTitleLeIsTotalPreorder()
    ensures TotalPreorder(CategoryTitleLe)
  {
    forall a: TrackerCategory, b: TrackerCategory ensures CategoryTitleLe(a, b) || CategoryTitleLe(b, a) {
      StrLeTotal(a.title, b.title);
    }
    forall a: TrackerCategory, b: TrackerCategory, c: TrackerCategory | CategoryTitleLe(a, b) && CategoryTitleLe(b, c)
      ensures CategoryTitleLe(a, c)
    {
      StrLeTransitive(a.title, b.title, c.title);
    }
  }

  /** Sorting the groups by title puts them in title order. */
  lemma SortedByTitle(groups: seq<TrackerCategory>)
    ensures Sorted(SortBy(groups, CategoryTitleLe), CategoryTitleLe)
  {
    CategoryTitleLeIsTotalPreorder();
    SortBySorted(groups, CategoryTitleLe);
  }

  /** fetchTrackers(for:) for weekday `w`: groups in ascending title order
      with distinct titles, each holding exactly the scheduled trackers of its
      title and none empty, and every scheduled tracker's title present. */
  ghost predicate IsDailyView(result: seq<TrackerCategory>, all: seq<Tracker>, w: Weekday,
                              trackerRows: seq<TrackerRow>, categoryRows: seq<CategoryRow>)
    requires UniqueObjectIds(categoryRows)
  {
    && Sorted(result, CategoryTitleLe)
    && DistinctBy(result, CategoryTitleOf)
    && (forall i :: 0 <= i < |result| ==>
          result[i].trackers == GroupMembers(all, w, result[i].title, trackerRows, categoryRows) && result[i].trackers != [])
    && (forall k :: 0 <= k < |all| && w in all[k].schedule ==>
          TitleFor(trackerRows, categoryRows, all[k]) in MapSeq(result, CategoryTitleOf))
  }

  /** In a daily view a tracker is listed exactly when it is scheduled on the weekday, and then only in
      the group of its own title. */
  lemma DailyViewPlacesEachTrackerOnce(result: seq<TrackerCategory>, all: seq<Tracker>, w: Weekday,
                                       trackerRows: seq<TrackerRow>, categoryRows: seq<CategoryRow>, k: nat)
    requires UniqueObjectIds(categoryRows)
    requires IsDailyView(result, all, w, trackerRows, categoryRows)
    requires k < |all|
    ensures w in all[k].schedule <==> exists i :: 0 <= i < |result| && all[k] in result[i].trackers
    ensures forall i :: 0 <= i < |result| ==>
      (all[k] in result[i].trackers <==> w in all[k].schedule && result[i].title == TitleFor(trackerRows, categoryRows, all[k]))
  {
    forall i | 0 <= i < |result| ensures
      (all[k] in result[i].trackers <==> w in all[k].schedule && result[i].title == TitleFor(trackerRows, categoryRows, all[k]))
    {
      GroupMembersIff(all, w, result[i].title, trackerRows, categoryRows, all[k]);
    }
    if w in all[k].schedule {
      var title := TitleFor(trackerRows, categoryRows, all[k]);
      assert title in MapSeq(result, CategoryTitleOf);
      var i :| 0 <= i < |MapSeq(result, CategoryTitleOf)| && MapSeq(result, CategoryTitleOf)[i] == title;
      assert all[k] in result[i].trackers;
    }
  }

  /** Within each group of a daily view the trackers keep the name order of the fetch. */
  lemma DailyViewGroupsSortedByName(result: seq<TrackerCategory>, rows: seq<TrackerRow>, w: Weekday,
                                    categoryRows: seq<CategoryRow>)
    requires UniqueObjectIds(categoryRows)
    requires IsDailyView(result, AllTrackers(rows), w, rows, categoryRows)
    ensures forall i :: 0 <= i < |result| ==> Sorted(result[i].trackers, TrackerNameLe)
  {
    AllTrackersSortedAndComplete(rows);
    forall i | 0 <= i < |result| ensures Sorted(result[i].trackers, TrackerNameLe) {
      GroupMembersSorted(AllTrackers(rows), w, result[i].title, rows, categoryRows);
    }
  }

  /** The table after deleteTracker(_:): the first row with the id is gone, if there was one. */
  function WithoutTracker(rows: seq<TrackerRow>, id: Uuid): (r: seq<TrackerRow>)
    ensures FindTracker(rows, id).None? ==> r == rows
    ensures FindTracker(rows, id).Some? ==>
      |r| == |rows| - 1 && multiset(r) + multiset{rows[FindTracker(rows, id).value]} == multiset(rows)
  {
    match FindTracker(rows, id)
    case None => rows
    case Some(i) =>
      assert rows == rows[..i] + [rows[i]] + rows[i + 1..];
      rows[..i] + rows[i + 1..]
  }

  /** Deleting the only row of a tracker leaves no row with its id. */
  lemma DeleteRemovesTracker(rows: seq<TrackerRow>, id: Uuid)
    requires forall i, j :: 0 <= i < j < |rows| && rows[i].id == Some(id) ==> rows[j].id != Some(id)
    ensures forall k :: 0 <= k < |WithoutTracker(rows, id)| ==> WithoutTracker(rows, id)[k].id != Some(id)
  {
    var found := FindTracker(rows, id);
    if found.Some? {
      var i := found.value;
      var r := WithoutTracker(rows, id);
      assert r == rows[..i] + rows[i + 1..];
      forall k | 0 <= k < |r| ensures r[k].id != Some(id) {
        if k < i {
          assert r[k] == rows[k];
        } else {
          assert r[k] == rows[k + 1];
        }
      }
    }
  }

  class TrackerStore {
    const context: Context
    const trackerCategoryStore: TrackerCategoryStore

    ghost predicate Valid()
      reads context
    {
      trackerCategoryStore.context == context && context.Valid()
    }

    constructor (context: Context, trackerCategoryStore: TrackerCategoryStore)
      requires trackerCategoryStore.context == context
      ensures this.context == context && this.trackerCategoryStore == trackerCategoryStore
    {
      this.context := context;
      this.trackerCategoryStore := trackerCategoryStore;
    }

    method CreateTracker(tracker: Tracker, categoryTitle: string) returns (thrown: Option<StoreError>)
      requires Valid()
      modifies context`trackers, context`categories, context`nextObjectId
      ensures Valid()
      ensures !context.hasStoreCoordinator ==>
        thrown == Some(ContextNotReady) && context.trackers == old(context.trackers)
        && context.categories == old(context.categories) && context.nextObjectId == old(context.nextObjectId)
      ensures context.hasStoreCoordinator ==>
        (var f := FetchOrCreateInTable(old(context.categories), old(context.nextObjectId), categoryTitle);
         && thrown == None
         && context.categories == f.rows && context.nextObjectId == f.next
         && context.trackers == old(context.trackers) + [RowFromTracker(tracker, Some(f.category))])
    {
      if !context.hasStoreCoordinator {
        return Some(ContextNotReady);
      }
      var category := trackerCategoryStore.FetchOrCreateCategory(categoryTitle);
      context.trackers := context.trackers + [RowFromTracker(tracker, Some(category))];
      thrown := None;
    }

    /** Appends the complete rows of the name-sorted fetch one at a time. */
    method FetchTrackers() returns (trackers: seq<Tracker>)
      ensures trackers == AllTrackers(context.trackers)
    {
      var objects := SortBy(context.trackers, RowNameLe);
      trackers := [];
      var n := 0;
      while n < |objects|
        invariant 0 <= n <= |objects|
        invariant trackers == CompactMap(objects[..n], TrackerFromRow)
      {
        var tracker := TrackerFromRow(objects[n]);
        CompactMapSnoc(objects, n, TrackerFromRow);
        if tracker.Some? {
          trackers := trackers + [tracker.value];
        }
        n := n + 1;
      }
      assert objects[..n] == objects;
    }

    /** Groups the scheduled trackers in a dictionary keyed by title, then lists and sorts the groups. */
    method FetchTrackersFor(weekdayComponent: int) returns (result: seq<TrackerCategory>)
      requires Valid()
      ensures WeekdayFromCalendar(weekdayComponent).None? ==> result == []
      ensures WeekdayFromCalendar(weekdayComponent).Some? ==>
        IsDailyView(result, AllTrackers(context.trackers), WeekdayFromCalendar(weekdayComponent).value,
                    context.trackers, context.categories)
    {
      var targetWeekday := WeekdayFromCalendar(weekdayComponent);
      if targetWeekday.None? {
        return [];
      }
      var allTrackers := FetchTrackers();
      var categories := GroupScheduled(allTrackers, targetWeekday.value);
      var listed := ListGroups(categories);
      result := SortBy(listed, CategoryTitleLe);
      SortedByTitle(listed);
      SortedGroupsAreDailyView(categories, listed, result, allTrackers, targetWeekday.value, context.trackers, context.categories);
    }

    /** The dictionary loop of fetchTrackers(for:): each scheduled tracker is appended under its title. */
    method GroupScheduled(allTrackers: seq<Tracker>, w: Weekday) returns (categories: map<string, seq<Tracker>>)
      requires Valid()
      ensures IsGrouping(categories, allTrackers, w, context.trackers, context.categories)
    {
      categories := map[];
      var n := 0;
      while n < |allTrackers|
        invariant 0 <= n <= |allTrackers|
        invariant IsGrouping(categories, allTrackers[..n], w, context.trackers, context.categories)
      {
        var tracker := allTrackers[n];
        ghost var before := categories;
        if w in tracker.schedule {
          var categoryTitle := trackerCategoryStore.CategoryTitle(tracker).GetOr(Uncategorized);
          if categoryTitle !in categories {
            categories := categories[categoryTitle := []];
          }
          categories := categories[categoryTitle := categories[categoryTitle] + [tracker]];
          WithMemberAfterDefault(before, categoryTitle, tracker);
        }
        GroupingStep(before, allTrackers, n, w, context.trackers, context.categories);
        n := n + 1;
      }
      assert allTrackers[..n] == allTrackers;
    }
    method DeleteTracker(tracker: Tracker)
      modifies context`trackers
      ensures context.trackers == WithoutTracker(old(context.trackers), tracker.id)
    {
      var results := FindTracker(context.trackers, tracker.id);
      if results.Some? {
        var i := results.value;
        context.trackers := context.trackers[..i] + context.trackers[i + 1..];
      }
    }
  }

  /** The dictionary maps exactly the titles with scheduled trackers to their groups. */
  ghost predicate IsGrouping(categories: map<string, seq<Tracker>>, all: seq<Tracker>, w: Weekday,
                             trackerRows: seq<TrackerRow>, categoryRows: seq<CategoryRow>)
    requires UniqueObjectIds(categoryRows)
  {
    && (forall title :: title in categories ==>
          categories[title] == GroupMembers(all, w, title, trackerRows, categoryRows) && categories[title] != [])
    && (forall title :: title !in categories ==> GroupMembers(all, w, title, trackerRows, categoryRows) == [])
  }

  /** The dictionary after `categories[title, default: []].append(t)`. */
  function WithMember(categories: map<string, seq<Tracker>>, title: string, t: Tracker): map<string, seq<Tracker>> {
    categories[title := (if title in categories then categories[title] else []) + [t]]
  }

  /** Creating the empty group when the title is missing and then appending is `WithMember`. */
  lemma WithMemberAfterDefault(categories: map<string, seq<Tracker>>, title: string, t: Tracker)
    ensures var defaulted := if title in categories then categories else categories[title := []];
      defaulted[title := defaulted[title] + [t]] == WithMember(categories, title, t)
  {
  }

  /** One more tracker of the fetch extends its title's group when it is scheduled and leaves the
      grouping as it was otherwise. */
  lemma GroupingStep(categories: map<string, seq<Tracker>>, all: seq<Tracker>, n: nat, w: Weekday,
                     trackerRows: seq<TrackerRow>, categoryRows: seq<CategoryRow>)
    requires UniqueObjectIds(categoryRows)
    requires n < |all|
    requires IsGrouping(categories, all[..n], w, trackerRows, categoryRows)
    ensures w in all[n].schedule ==>
      IsGrouping(WithMember(categories, TitleFor(trackerRows, categoryRows, all[n]), all[n]), all[..n + 1], w, trackerRows, categoryRows)
    ensures w !in all[n].schedule ==> IsGrouping(categories, all[..n + 1], w, trackerRows, categoryRows)
  {
    assert all[..n + 1] == all[..n] + [all[n]];
    GroupingSnoc(categories, all[..n], all[n], w, trackerRows, categoryRows);
  }

  /** The same step, stated for a tracker appended to the fetch. */
  lemma GroupingSnoc(categories: map<string, seq<Tracker>>, all: seq<Tracker>, t: Tracker, w: Weekday,
                     trackerRows: seq<TrackerRow>, categoryRows: seq<CategoryRow>)
    requires UniqueObjectIds(categoryRows)
    requires IsGrouping(categories, all, w, trackerRows, categoryRows)
    ensures w in t.schedule ==>
      IsGrouping(WithMember(categories, TitleFor(trackerRows, categoryRows, t), t), all + [t], w, trackerRows, categoryRows)
    ensures w !in t.schedule ==> IsGrouping(categories, all + [t], w, trackerRows, categoryRows)
  {
    forall title ensures GroupMembers(all + [t], w, title, trackerRows, categoryRows) ==
      GroupMembers(all, w, title, trackerRows, categoryRows) + (if Belongs(t, w, title, trackerRows, categoryRows) then [t] else [])
    {
      GroupMembersSnoc(all, t, w, title, trackerRows, categoryRows);
    }
  }

  /** `categories.map { TrackerCategory(title: $0.key, trackers: $0.value) }`, in the dictionary's
      unspecified order. */
  method ListGroups(categories: map<string, seq<Tracker>>) returns (listed: seq<TrackerCategory>)
    ensures forall i :: 0 <= i < |listed| ==> listed[i].title in categories && listed[i].trackers == categories[listed[i].title]
    ensures forall title :: title in categories ==> title in MapSeq(listed, CategoryTitleOf)
    ensures DistinctBy(listed, CategoryTitleOf)
  {
    var keys := categories.Keys;
    listed := [];
    while keys != {}
      invariant keys <= categories.Keys
      invariant forall i :: 0 <= i < |listed| ==>
        listed[i].title in categories && listed[i].title !in keys && listed[i].trackers == categories[listed[i].title]
      invariant forall title :: title in categories && title !in keys ==> title in MapSeq(listed, CategoryTitleOf)
      invariant DistinctBy(listed, CategoryTitleOf)
      decreases keys
    {
      var key :| key in keys;
      ghost var before := listed;
      var group := TrackerCategory(key, categories[key]);
      listed := listed + [group];
      MapSeqAppend(before, [group], CategoryTitleOf);
      DistinctBySnoc(before, group, CategoryTitleOf);
      keys := keys - {key};
    }
  }

  /** Listing a grouping in title order gives the daily view. */
  lemma SortedGroupsAreDailyView(categories: map<string, seq<Tracker>>, listed: seq<TrackerCategory>, result: seq<TrackerCategory>,
                                 all: seq<Tracker>, w: Weekday, trackerRows: seq<TrackerRow>, categoryRows: seq<CategoryRow>)
    requires UniqueObjectIds(categoryRows)
    requires IsGrouping(categories, all, w, trackerRows, categoryRows)
    requires forall i :: 0 <= i < |listed| ==> listed[i].title in categories && listed[i].trackers == categories[listed[i].title]
    requires forall title :: title in categories ==> title in MapSeq(listed, CategoryTitleOf)
    requires DistinctBy(listed, CategoryTitleOf)
    requires multiset(result) == multiset(listed) && Sorted(result, CategoryTitleLe)
    ensures IsDailyView(result, all, w, trackerRows, categoryRows)
  {
    PermutationKeepsDistinctBy(listed, result, CategoryTitleOf);
    ListedGroupsMatch(categories, listed, result, all, w, trackerRows, categoryRows);
    ScheduledTitlesListed(categories, listed, result, all, w, trackerRows, categoryRows);
    DailyViewFromParts(result, all, w, trackerRows, categoryRows);
  }

  /** The four parts of a daily view make one. */
  lemma DailyViewFromParts(result: seq<TrackerCategory>, all: seq<Tracker>, w: Weekday,
                           trackerRows: seq<TrackerRow>, categoryRows: seq<CategoryRow>)
    requires UniqueObjectIds(categoryRows)
    requires Sorted(result, CategoryTitleLe)
    requires DistinctBy(result, CategoryTitleOf)
    requires forall i :: 0 <= i < |result| ==>
      result[i].trackers == GroupMembers(all, w, result[i].title, trackerRows, categoryRows) && result[i].trackers != []
    requires forall k :: 0 <= k < |all| && w in all[k].schedule ==>
      TitleFor(trackerRows, categoryRows, all[k]) in MapSeq(result, CategoryTitleOf)
    ensures IsDailyView(result, all, w, trackerRows, categoryRows)
  {
  }

  /** Every listed group, in any order, is the group of its title. */
  lemma ListedGroupsMatch(categories: map<string, seq<Tracker>>, listed: seq<TrackerCategory>, result: seq<TrackerCategory>,
                          all: seq<Tracker>, w: Weekday, trackerRows: seq<TrackerRow>, categoryRows: seq<CategoryRow>)
    requires UniqueObjectIds(categoryRows)
    requires IsGrouping(categories, all, w, trackerRows, categoryRows)
    requires forall i :: 0 <= i < |listed| ==> listed[i].title in categories && listed[i].trackers == categories[listed[i].title]
    requires multiset(listed) == multiset(result)
    ensures forall i :: 0 <= i < |result| ==>
      result[i].trackers == GroupMembers(all, w, result[i].title, trackerRows, categoryRows) && result[i].trackers != []
  {
    forall i | 0 <= i < |result| ensures
      result[i].trackers == GroupMembers(all, w, result[i].title, trackerRows, categoryRows) && result[i].trackers != []
    {
      assert result[i] in multiset(listed);
      var j :| 0 <= j < |listed| && listed[j] == result[i];
    }
  }

  /** The title of a scheduled tracker is a key of the grouping, hence the title of a listed group. */
  lemma ScheduledTitlesListed(categories: map<string, seq<Tracker>>, listed: seq<TrackerCategory>, result: seq<TrackerCategory>,
                              all: seq<Tracker>, w: Weekday, trackerRows: seq<TrackerRow>, categoryRows: seq<CategoryRow>)
    requires UniqueObjectIds(categoryRows)
    requires IsGrouping(categories, all, w, trackerRows, categoryRows)
    requires forall title :: title in categories ==> title in MapSeq(listed, CategoryTitleOf)
    requires multiset(listed) == multiset(result)
    ensures forall k :: 0 <= k < |all| && w in all[k].schedule ==>
      TitleFor(trackerRows, categoryRows, all[k]) in MapSeq(result, CategoryTitleOf)
  {
    forall k | 0 <= k < |all| && w in all[k].schedule
      ensures TitleFor(trackerRows, categoryRows, all[k]) in MapSeq(result, CategoryTitleOf)
    {
      var title := TitleFor(trackerRows, categoryRows, all[k]);
      GroupMembersIff(all, w, title, trackerRows, categoryRows, all[k]);
      assert title in categories;
      var titles := MapSeq(listed, CategoryTitleOf);
      var j :| 0 <= j < |titles| && titles[j] == title;
      assert listed[j] in multiset(result);
      var m :| 0 <= m < |result| && result[m] == listed[j];
      assert MapSeq(result, CategoryTitleOf)[m] == title;
    }
  }

  /** A new tracker whose id no row had yet is found under the category title it was created with. */
  lemma CreatedTrackerHasItsCategory(trackers: seq<TrackerRow>, categories: seq<CategoryRow>, next: ObjectId,
                                     tracker: Tracker, categoryTitle: string)
    requires CategoriesWellFormed(categories, next)
    requires forall k :: 0 <= k < |trackers| ==> trackers[k].id != Some(tracker.id)
    ensures var f := FetchOrCreateInTable(categories, next, categoryTitle);
      CategoryTitleIn(trackers + [RowFromTracker(tracker, Some(f.category))], f.rows, tracker.id) == Some(categoryTitle)
  {
    var f := FetchOrCreateInTable(categories, next, categoryTitle);
    var rows := trackers + [RowFromTracker(tracker, Some(f.category))];
    var j :| 0 <= j < |f.rows| && f.rows[j] == CategoryRow(f.category, Some(categoryTitle));
    assert rows[|trackers|].id == Some(tracker.id);
    assert forall k :: 0 <= k < |trackers| ==> rows[k].id != Some(tracker.id);
    assert rows[|trackers|].category == Some(f.rows[j].oid);
    CategoryTitleInFacts(rows, f.rows, tracker.id);
  }

  /** A created tracker shows up, as itself, among the fetched trackers. */
  lemma CreatedTrackerIsFetched(trackers: seq<TrackerRow>, tracker: Tracker, category: ObjectId)
    ensures tracker in AllTrackers(trackers + [RowFromTracker(tracker, Some(category))])
  {
    var rows := trackers + [RowFromTracker(tracker, Some(category))];
    StoredTrackerRoundTrip(tracker, Some(category));
    assert TrackerFromRow(rows[|trackers|]) == Some(tracker);
    AllTrackersSortedAndComplete(rows);
  }
}
