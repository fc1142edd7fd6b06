/** TrackerCategoryStore: the category table. Every change first fetches the
    rows with the title involved, refuses with a CategoryError when the title
    is missing or already taken, and otherwise inserts, retitles or deletes
    one row. Each change is specified by a function on the table; the class
    methods mutate the shared context to exactly that function's result. */
module CategoryStore {
  import opened Domain
  import opened Seqs
  import opened Sorting
  import opened Text
  import opened Persistence

  /** CategoryError. */
  datatype CategoryError = CategoryAlreadyExists | CategoryNotFound | EmptyTitle

  /** CategoryError.errorDescription. */
  function ErrorDescription(e: CategoryError): (text: string)
    ensures text != []
  {
    match e
    case CategoryAlreadyExists => "Категория с таким названием уже существует"
    case CategoryNotFound => "Категория не найдена"
    case EmptyTitle => "Название категории не может быть пустым"
  }

  /** The titles present in the table. */
  function TitlesOf(rows: seq<CategoryRow>): set<string> {
    set i | 0 <= i < |rows| && rows[i].title.Some? :: rows[i].title.value
  }

  /** The first row of the fetch `title == %@`. */
  function FindTitled(rows: seq<CategoryRow>, title: string): (r: Option<nat>)
    ensures r.Some? ==> r.value < |rows| && rows[r.value].title == Some(title)
    ensures r.None? <==> title !in TitlesOf(rows)
  {
    FirstIndexWhere(rows, (c: CategoryRow) => c.title == Some(title))
  }

  /** The row of the object `oid` (following a relationship). */
  function FindObject(rows: seq<CategoryRow>, oid: ObjectId): (r: Option<nat>)
    ensures r.Some? ==> r.value < |rows| && rows[r.value].oid == oid
    ensures r.None? <==> forall k :: 0 <= k < |rows| ==> rows[k].oid != oid
  {
    FirstIndexWhere(rows, (c: CategoryRow) => c.oid == oid)
  }

  /** The first tracker row of the fetch `id == %@`. */
  function FindTracker(trackers: seq<TrackerRow>, id: Uuid): (r: Option<nat>)
    ensures r.Some? ==> r.value < |trackers| && trackers[r.value].id == Some(id)
    ensures r.Some? ==> forall k :: 0 <= k < r.value ==> trackers[k].id != Some(id)
    ensures r.None? <==> forall k :: 0 <= k < |trackers| ==> trackers[k].id != Some(id)
  {
    FirstIndexWhere(trackers, (t: TrackerRow) => t.id == Some(id))
  }

  /** categoryTitle(for:): the title of the category that the first tracker
      row with the id links to; nil when there is no such row, no link, or the
      linked category has no title. */
  function CategoryTitleIn(trackers: seq<TrackerRow>, categories: seq<CategoryRow>, id: Uuid): Option<string>
    requires UniqueObjectIds(categories)
  {
    match FindTracker(trackers, id)
    case None => None
    case Some(i) =>
      match trackers[i].category
      case None => None
      case Some(oid) =>
        match FindObject(categories, oid)
        case None => None
        case Some(j) => categories[j].title
  }

  /** No tracker row with the id gives no title; a title given is in the table; and it is the
      title of the category the first row with the id links to. */
  lemma CategoryTitleInFacts(trackers: seq<TrackerRow>, categories: seq<CategoryRow>, id: Uuid)
    requires UniqueObjectIds(categories)
    ensures (forall i :: 0 <= i < |trackers| ==> trackers[i].id != Some(id)) ==> CategoryTitleIn(trackers, categories, id).None?
    ensures CategoryTitleIn(trackers, categories, id).Some? ==> CategoryTitleIn(trackers, categories, id).value in TitlesOf(categories)
    ensures forall i, j ::
      (0 <= i < |trackers| && 0 <= j < |categories| && trackers[i].id == Some(id)
       && (forall k :: 0 <= k < i ==> trackers[k].id != Some(id))
       && trackers[i].category == Some(categories[j].oid)) ==> CategoryTitleIn(trackers, categories, id) == categories[j].title
  {
  }

  /** The outcome of a change to the table: the new rows and object counter, or the error thrown. */
  datatype TableResult = Changed(rows: seq<CategoryRow>, next: ObjectId) | Refused(error: CategoryError)

  /** createCategory(with:): refuses a title that is present, otherwise appends one row with it. */
  function CreateInTable(rows: seq<CategoryRow>, next: ObjectId, title: string): (r: TableResult)
    requires CategoriesWellFormed(rows, next)
    ensures r.Refused? <==> title in TitlesOf(rows)
    ensures r.Refused? ==> r.error == CategoryAlreadyExists
    ensures r.Changed? ==> CategoriesWellFormed(r.rows, r.next)
    ensures r.Changed? ==> TitlesOf(r.rows) == TitlesOf(rows) + {title}
    ensures r.Changed? ==> |r.rows| == |rows| + 1 && r.rows[..|rows|] == rows && r.rows[|rows|].title == Some(title)
  {
    if FindTitled(rows, title).Some? then Refused(CategoryAlreadyExists)
    else
      var rows' := rows + [CategoryRow(next, Some(title))];
      assert TitlesOf(rows') == TitlesOf(rows) + {title} by {
        forall t | t in TitlesOf(rows') ensures t in TitlesOf(rows) + {title} {
          var i :| 0 <= i < |rows'| && rows'[i].title.Some? && rows'[i].title.value == t;
          if i < |rows| {
            assert rows'[i] == rows[i];
          }
        }
        forall t | t in TitlesOf(rows) + {title} ensures t in TitlesOf(rows') {
          if t in TitlesOf(rows) {
            var i :| 0 <= i < |rows| && rows[i].title.Some? && rows[i].title.value == t;
            assert rows'[i] == rows[i];
          } else {
            assert rows'[|rows|].title.value == t;
          }
        }
      }
      assert rows'[..|rows|] == rows;
      Changed(rows', next + 1)
  }

  /** updateCategory(oldTitle:newTitle:): a missing old title is reported
      first; a new title held by another row is refused; otherwise the row
      with the old title is retitled in place, keeping its identity. */
  function RenameInTable(rows: seq<CategoryRow>, next: ObjectId, oldTitle: string, newTitle: string): (r: TableResult)
    requires CategoriesWellFormed(rows, next)
    ensures oldTitle !in TitlesOf(rows) ==> r == Refused(CategoryNotFound)
    ensures oldTitle in TitlesOf(rows) && newTitle in TitlesOf(rows) && newTitle != oldTitle ==> r == Refused(CategoryAlreadyExists)
    ensures r.Changed? <==> oldTitle in TitlesOf(rows) && (newTitle == oldTitle || newTitle !in TitlesOf(rows))
    ensures r.Changed? ==> CategoriesWellFormed(r.rows, r.next) && r.next == next
    ensures r.Changed? ==> TitlesOf(r.rows) == TitlesOf(rows) - {oldTitle} + {newTitle}
    ensures r.Changed? ==> |r.rows| == |rows| && forall i :: 0 <= i < |rows| ==>
      && r.rows[i].oid == rows[i].oid
      && r.rows[i].title == (if rows[i].title == Some(oldTitle) then Some(newTitle) else rows[i].title)
  {
    match FindTitled(rows, oldTitle)
    case None => Refused(CategoryNotFound)
    case Some(i) =>
      if FindTitled(rows, newTitle).Some? && newTitle != oldTitle then Refused(CategoryAlreadyExists)
      else
        assert forall k :: 0 <= k < |rows| && k != i ==> rows[k].title != Some(oldTitle);
        assert forall k :: 0 <= k < |rows| && k != i ==> rows[k].title != Some(newTitle);
        RetitleRowFacts(rows, next, i, newTitle);
        Changed(rows[i := CategoryRow(rows[i].oid, Some(newTitle))], next)
  }

  /** Retitling row `i` with a title no other row has keeps the table well formed and trades
      the old title for the new one. */
  lemma RetitleRowFacts(rows: seq<CategoryRow>, next: ObjectId, i: nat, newTitle: string)
    requires CategoriesWellFormed(rows, next) && i < |rows| && rows[i].title.Some?
    requires forall k :: 0 <= k < |rows| && k != i ==> rows[k].title != Some(newTitle)
    ensures CategoriesWellFormed(rows[i := CategoryRow(rows[i].oid, Some(newTitle))], next)
    ensures TitlesOf(rows[i := CategoryRow(rows[i].oid, Some(newTitle))]) == TitlesOf(rows) - {rows[i].title.value} + {newTitle}
  {
    var rows' := rows[i := CategoryRow(rows[i].oid, Some(newTitle))];
    var oldTitle := rows[i].title.value;
    assert forall k :: 0 <= k < |rows| && k != i ==> rows[k].title != Some(oldTitle);
    forall t | t in TitlesOf(rows') ensures t in TitlesOf(rows) - {oldTitle} + {newTitle} {
      var k :| 0 <= k < |rows'| && rows'[k].title.Some? && rows'[k].title.value == t;
      if k != i {
        assert rows'[k] == rows[k];
      }
    }
    forall t | t in TitlesOf(rows) - {oldTitle} + {newTitle} ensures t in TitlesOf(rows') {
      if t == newTitle {
        assert rows'[i].title.value == t;
      } else {
        var k :| 0 <= k < |rows| && rows[k].title.Some? && rows[k].title.value == t;
        assert k != i && rows'[k] == rows[k];
      }
    }
  }

  /** deleteCategory(with:): a missing title is reported; otherwise the row with it is removed. */
  function DeleteFromTable(rows: seq<CategoryRow>, next: ObjectId, title: string): (r: TableResult)
    requires CategoriesWellFormed(rows, next)
    ensures r.Refused? <==> title !in TitlesOf(rows)
    ensures r.Refused? ==> r.error == CategoryNotFound
    ensures r.Changed? ==> CategoriesWellFormed(r.rows, r.next) && r.next == next
    ensures r.Changed? ==> TitlesOf(r.rows) == TitlesOf(rows) - {title}
    ensures r.Changed? ==> exists i :: 0 <= i < |rows| && rows[i].title == Some(title) && r.rows == rows[..i] + rows[i + 1..]
  {
    match FindTitled(rows, title)
    case None => Refused(CategoryNotFound)
    case Some(i) =>
      RemoveRowFacts(rows, next, i);
      Changed(rows[..i] + rows[i + 1..], next)
  }

  /** Removing row `i` keeps the table well formed and drops exactly that row's title. */
  lemma RemoveRowFacts(rows: seq<CategoryRow>, next: ObjectId, i: nat)
    requires CategoriesWellFormed(rows, next) && i < |rows| && rows[i].title.Some?
    ensures CategoriesWellFormed(rows[..i] + rows[i + 1..], next)
    ensures TitlesOf(rows[..i] + rows[i + 1..]) == TitlesOf(rows) - {rows[i].title.value}
  {
    RemoveRowWellFormed(rows, next, i);
    RemoveRowTitles(rows, i);
  }

  lemma RemoveRowWellFormed(rows: seq<CategoryRow>, next: ObjectId, i: nat)
    requires CategoriesWellFormed(rows, next) && i < |rows|
    ensures CategoriesWellFormed(rows[..i] + rows[i + 1..], next)
  {
    var rows' := rows[..i] + rows[i + 1..];
    forall k | 0 <= k < |rows'| ensures rows'[k] == rows[if k < i then k else k + 1] {
    }
    forall a, b | 0 <= a < b < |rows'|
      ensures rows'[a].oid != rows'[b].oid && (rows'[a].title.Some? ==> rows'[a].title != rows'[b].title)
    {
      var a0, b0 := if a < i then a else a + 1, if b < i then b else b + 1;
      assert rows'[a] == rows[a0] && rows'[b] == rows[b0];
    }
  }

  lemma RemoveRowTitles(rows: seq<CategoryRow>, i: nat)
    requires UniqueTitles(rows) && i < |rows| && rows[i].title.Some?
    ensures TitlesOf(rows[..i] + rows[i + 1..]) == TitlesOf(rows) - {rows[i].title.value}
  {
    var rows', title := rows[..i] + rows[i + 1..], rows[i].title.value;
    forall t | t in TitlesOf(rows') ensures t in TitlesOf(rows) - {title} {
      var k :| 0 <= k < |rows'| && rows'[k].title.Some? && rows'[k].title.value == t;
      var k0 := if k < i then k else k + 1;
      assert rows[k0] == rows'[k] && k0 != i;
    }
    forall t | t in TitlesOf(rows) - {title} ensures t in TitlesOf(rows') {
      var k :| 0 <= k < |rows| && rows[k].title.Some? && rows[k].title.value == t;
      var k' := if k < i then k else k - 1;
      assert rows'[k'] == rows[k];
    }
  }

  /** What fetchOrCreateCategory(with:) leaves: the table, the object counter and the category returned. */
  datatype Fetched = Fetched(rows: seq<CategoryRow>, next: ObjectId, category: ObjectId)

  /** fetchOrCreateCategory(with:): the first row with the title, or a new row appended for it. */
  function FetchOrCreateInTable(rows: seq<CategoryRow>, next: ObjectId, title: string): (r: Fetched)
    requires CategoriesWellFormed(rows, next)
    ensures CategoriesWellFormed(r.rows, r.next)
    ensures TitlesOf(r.rows) == TitlesOf(rows) + {title}
    ensures CategoryRow(r.category, Some(title)) in r.rows
    ensures title in TitlesOf(rows) ==> r.rows == rows && r.next == next
    ensures title !in TitlesOf(rows) ==> r.rows == rows + [CategoryRow(next, Some(title))] && r.next == next + 1 && r.category == next
  {
    match FindTitled(rows, title)
    case Some(i) =>
      assert rows[i] == CategoryRow(rows[i].oid, Some(title));
      Fetched(rows, next, rows[i].oid)
    case None =>
      var created := CreateInTable(rows, next, title);
      assert created.rows[|rows|] == CategoryRow(next, Some(title));
      assert created.rows == rows + [CategoryRow(next, Some(title))];
      Fetched(created.rows, created.next, next)
  }

  /** The category row with a given title is unique, so any row with it is the one. */
  lemma TitledRowUnique(rows: seq<CategoryRow>, next: ObjectId, title: string, oid: ObjectId)
    requires CategoriesWellFormed(rows, next)
    requires CategoryRow(oid, Some(title)) in rows
    ensures forall c :: c in rows && c.title == Some(title) ==> c.oid == oid
  {
    forall c | c in rows && c.title == Some(title) ensures c.oid == oid {
      var i :| 0 <= i < |rows| && rows[i] == c;
      var j :| 0 <= j < |rows| && rows[j] == CategoryRow(oid, Some(title));
      assert i == j;
    }
  }

  /** Fetching or creating twice creates nothing the second time and returns the same category. */
  lemma FetchOrCreateIdempotent(rows: seq<CategoryRow>, next: ObjectId, title: string)
    requires CategoriesWellFormed(rows, next)
    ensures var first := FetchOrCreateInTable(rows, next, title);
      FetchOrCreateInTable(first.rows, first.next, title) == first
  {
    var first := FetchOrCreateInTable(rows, next, title);
    var second := FetchOrCreateInTable(first.rows, first.next, title);
    TitledRowUnique(first.rows, first.next, title, first.category);
  }

  /** Creating a category and deleting it again restores the table (the object counter moves on). */
  lemma CreateThenDelete(rows: seq<CategoryRow>, next: ObjectId, title: string)
    requires CategoriesWellFormed(rows, next)
    requires title !in TitlesOf(rows)
    ensures var created := CreateInTable(rows, next, title);
      created.Changed? && DeleteFromTable(created.rows, created.next, title) == Changed(rows, next + 1)
  {
    var created := CreateInTable(rows, next, title);
    var found := FindTitled(created.rows, title);
    assert forall k :: 0 <= k < |rows| ==> created.rows[k] == rows[k] && rows[k].title != Some(title);
    assert found == Some(|rows|);
    assert created.rows[..|rows|] + created.rows[|rows| + 1..] == rows;
  }

  /** Renaming back undoes a rename. */
  lemma RenameBack(rows: seq<CategoryRow>, next: ObjectId, oldTitle: string, newTitle: string)
    requires CategoriesWellFormed(rows, next)
    requires RenameInTable(rows, next, oldTitle, newTitle).Changed?
    ensures var renamed := RenameInTable(rows, next, oldTitle, newTitle);
      RenameInTable(renamed.rows, renamed.next, newTitle, oldTitle) == Changed(rows, next)
  {
    var renamed := RenameInTable(rows, next, oldTitle, newTitle);
    var back := RenameInTable(renamed.rows, renamed.next, newTitle, oldTitle);
    assert oldTitle in TitlesOf(rows);
    var i :| 0 <= i < |rows| && rows[i].title.Some? && rows[i].title.value == oldTitle;
    assert forall k :: 0 <= k < |rows| && k != i ==> rows[k].title != Some(oldTitle);
    assert renamed.rows[i].title == Some(newTitle);
    assert newTitle in TitlesOf(renamed.rows);
    assert back.Changed?;
    assert forall k :: 0 <= k < |rows| && k != i ==> renamed.rows[k] == rows[k];
    assert forall k :: 0 <= k < |rows| && k != i ==> renamed.rows[k].title != Some(newTitle);
    assert back.rows == rows;
  }

  /** A rename keeps every tracker with its category: trackers of the renamed
      category now report the new title, all others report what they did. */
  lemma RenameKeepsTrackers(trackers: seq<TrackerRow>, rows: seq<CategoryRow>, next: ObjectId,
                            oldTitle: string, newTitle: string, id: Uuid)
    requires CategoriesWellFormed(rows, next)
    requires RenameInTable(rows, next, oldTitle, newTitle).Changed?
    ensures var renamed := RenameInTable(rows, next, oldTitle, newTitle);
      CategoryTitleIn(trackers, renamed.rows, id) ==
        (if CategoryTitleIn(trackers, rows, id) == Some(oldTitle) then Some(newTitle) else CategoryTitleIn(trackers, rows, id))
  {
    var renamed := RenameInTable(rows, next, oldTitle, newTitle);
    match FindTracker(trackers, id)
    case None =>
    case Some(i) =>
      match trackers[i].category
      case None =>
      case Some(oid) =>
        var before := FindObject(rows, oid);
        var after := FindObject(renamed.rows, oid);
        if before.Some? {
          FirstIndexWhereIs(renamed.rows, (c: CategoryRow) => c.oid == oid, before.value);
          assert after == before;
        } else {
          assert after.None?;
        }
  }

  /** TrackerCategoryCoreData rows sort by title (`NSSortDescriptor(key: "title")`). */
  predicate RowTitleLe(a: CategoryRow, b: CategoryRow) {
    StrLe(a.title.GetOr(""), b.title.GetOr(""))
  }

  lemma RowTitleLeIsTotalPreorder()
    ensures TotalPreorder(RowTitleLe)
  {
    forall a: CategoryRow, b: CategoryRow ensures RowTitleLe(a, b) || RowTitleLe(b, a) {
      StrLeTotal(a.title.GetOr(""), b.title.GetOr(""));
    }
    forall a: CategoryRow, b: CategoryRow, c: CategoryRow | RowTitleLe(a, b) && RowTitleLe(b, c)
      ensures RowTitleLe(a, c)
    {
      StrLeTransitive(a.title.GetOr(""), b.title.GetOr(""), c.title.GetOr(""));
    }
  }

  function RowTitle(c: CategoryRow): Option<string> {
    c.title
  }

  /** fetchAllCategories(): the titles, in ascending order, each once. */
  function AllTitles(rows: seq<CategoryRow>): (titles: seq<string>)
    requires UniqueTitles(rows)
    ensures Sorted(titles, StrLe)
    ensures Distinct(titles)
    ensures forall i :: 0 <= i < |titles| ==> titles[i] in TitlesOf(rows)
    ensures forall t :: t in TitlesOf(rows) ==> t in titles
  {
    var sorted := SortBy(rows, RowTitleLe);
    RowTitleLeIsTotalPreorder();
    SortBySorted(rows, RowTitleLe);
    CompactMapSorted(sorted, RowTitle, RowTitleLe, StrLe);
    PermutationKeepsInjective(rows, sorted, RowTitle);
    CompactMapDistinct(sorted, RowTitle);
    var titles := CompactMap(sorted, RowTitle);
    assert forall i :: 0 <= i < |titles| ==> titles[i] in TitlesOf(rows) by {
      forall i | 0 <= i < |titles| ensures titles[i] in TitlesOf(rows) {
        var k :| 0 <= k < |sorted| && RowTitle(sorted[k]) == Some(titles[i]);
        assert sorted[k] in multiset(rows);
        var j :| 0 <= j < |rows| && rows[j] == sorted[k];
      }
    }
    assert forall t :: t in TitlesOf(rows) ==> t in titles by {
      forall t | t in TitlesOf(rows) ensures t in titles {
        var j :| 0 <= j < |rows| && rows[j].title.Some? && rows[j].title.value == t;
        assert rows[j] in multiset(sorted);
        var k :| 0 <= k < |sorted| && sorted[k] == rows[j];
        assert RowTitle(sorted[k]).Some?;
      }
    }
    titles
  }

  /** The trackers linked to the category object `oid`. */
  function LinkedRows(trackers: seq<TrackerRow>, oid: ObjectId): (linked: seq<TrackerRow>)
    ensures forall i :: 0 <= i < |linked| ==> linked[i] in trackers && linked[i].category == Some(oid)
    ensures forall i :: 0 <= i < |trackers| && trackers[i].category == Some(oid) ==> trackers[i] in linked
  {
    Filter(trackers, (t: TrackerRow) => t.category == Some(oid))
  }

  /** One element of fetchAllCategoriesWithTrackers(): a titled row with its linked, complete trackers. */
  function CategoryFromRow(trackers: seq<TrackerRow>, c: CategoryRow): Option<TrackerCategory> {
    if c.title.Some? then Some(TrackerCategory(c.title.value, CompactMap(LinkedRows(trackers, c.oid), TrackerFromRow)))
    else None
  }

  function CategoryTitleOf(c: TrackerCategory): string {
    c.title
  }

  /** fetchAllCategoriesWithTrackers(): the categories in the order of
      fetchAllCategories(), each with the trackers linked to its row. */
  function CategoriesWithTrackers(rows: seq<CategoryRow>, trackers: seq<TrackerRow>): (cats: seq<TrackerCategory>)
    requires UniqueTitles(rows)
    ensures MapSeq(cats, CategoryTitleOf) == AllTitles(rows)
    ensures forall i :: 0 <= i < |cats| ==> HasSourceRow(cats[i], rows, trackers)
  {
    var sorted := SortBy(rows, RowTitleLe);
    var f := (c: CategoryRow) => CategoryFromRow(trackers, c);
    var cats := CompactMap(sorted, f);
    CompactMapThenMap(sorted, f, CategoryTitleOf, RowTitle);
    forall i | 0 <= i < |cats| ensures HasSourceRow(cats[i], rows, trackers) {
      var k :| 0 <= k < |sorted| && f(sorted[k]) == Some(cats[i]);
      assert sorted[k] in multiset(rows);
      var j :| 0 <= j < |rows| && rows[j] == sorted[k];
      assert SourceRowAt(cats[i], rows, trackers, j);
    }
    cats
  }

  /** `category` is what row `j` of the table reads as. */
  predicate SourceRowAt(category: TrackerCategory, rows: seq<CategoryRow>, trackers: seq<TrackerRow>, j: int) {
    && 0 <= j < |rows|
    && rows[j].title == Some(category.title)
    && category.trackers == CompactMap(LinkedRows(trackers, rows[j].oid), TrackerFromRow)
  }

  /** Some row of the table reads as `category`. */
  ghost predicate HasSourceRow(category: TrackerCategory, rows: seq<CategoryRow>, trackers: seq<TrackerRow>) {
    exists j :: SourceRowAt(category, rows, trackers, j)
  }

  /** fetchCategory(with:): the category with the title, if any. */
  function CategoryNamed(rows: seq<CategoryRow>, title: string): (r: Option<ObjectId>)
    ensures r.Some? <==> title in TitlesOf(rows)
    ensures r.Some? ==> CategoryRow(r.value, Some(title)) in rows
  {
    match FindTitled(rows, title)
    case None => None
    case Some(i) =>
      assert rows[i] == CategoryRow(rows[i].oid, Some(title));
      Some(rows[i].oid)
  }

  /** The new table and the error thrown agree with the table function's outcome. */
  predicate Applied(r: TableResult, thrown: Option<CategoryError>,
                    before: seq<CategoryRow>, nextBefore: ObjectId, after: seq<CategoryRow>, nextAfter: ObjectId) {
    match r
    case Refused(e) => thrown == Some(e) && after == before && nextAfter == nextBefore
    case Changed(rows, next) => thrown == None && after == rows && nextAfter == next
  }

  class TrackerCategoryStore {
    const context: Context

    constructor (context: Context)
      ensures this.context == context
    {
      this.context := context;
    }

    method FetchOrCreateCategory(title: string) returns (category: ObjectId)
      requires context.Valid()
      modifies context`categories, context`nextObjectId
      ensures context.Valid()
      ensures Fetched(context.categories, context.nextObjectId, category)
        == FetchOrCreateInTable(old(context.categories), old(context.nextObjectId), title)
    {
      var found := FindTitled(context.categories, title);
      if found.Some? {
        category := context.categories[found.value].oid;
      } else {
        category := context.nextObjectId;
        context.categories := context.categories + [CategoryRow(category, Some(title))];
        context.nextObjectId := context.nextObjectId + 1;
      }
    }

    function CategoryTitle(tracker: Tracker): Option<string>
      reads context
      requires context.Valid()
    {
      CategoryTitleIn(context.trackers, context.categories, tracker.id)
    }

    function FetchAllCategories(): seq<string>
      reads context
      requires context.Valid()
    {
      AllTitles(context.categories)
    }

    function FetchAllCategoriesWithTrackers(): seq<TrackerCategory>
      reads context
      requires context.Valid()
    {
      CategoriesWithTrackers(context.categories, context.trackers)
    }

    method CreateCategory(title: string) returns (thrown: Option<CategoryError>)
      requires context.Valid()
      modifies context`categories, context`nextObjectId
      ensures context.Valid()
      ensures Applied(CreateInTable(old(context.categories), old(context.nextObjectId), title), thrown,
                      old(context.categories), old(context.nextObjectId), context.categories, context.nextObjectId)
    {
      var existing := FindTitled(context.categories, title);
      if existing.Some? {
        return Some(CategoryAlreadyExists);
      }
      context.categories := context.categories + [CategoryRow(context.nextObjectId, Some(title))];
      context.nextObjectId := context.nextObjectId + 1;
      thrown := None;
    }

    method UpdateCategory(oldTitle: string, newTitle: string) returns (thrown: Option<CategoryError>)
      requires context.Valid()
      modifies context`categories
      ensures context.Valid()
      ensures Applied(RenameInTable(old(context.categories), context.nextObjectId, oldTitle, newTitle), thrown,
                      old(context.categories), context.nextObjectId, context.categories, context.nextObjectId)
    {
      var toUpdate := FindTitled(context.categories, oldTitle);
      if toUpdate.None? {
        return Some(CategoryNotFound);
      }
      var existingWithNewTitle := FindTitled(context.categories, newTitle);
      if existingWithNewTitle.Some? && newTitle != oldTitle {
        return Some(CategoryAlreadyExists);
      }
      var i := toUpdate.value;
      context.categories := context.categories[i := CategoryRow(context.categories[i].oid, Some(newTitle))];
      thrown := None;
    }

    method DeleteCategory(title: string) returns (thrown: Option<CategoryError>)
      requires context.Valid()
      modifies context`categories
      ensures context.Valid()
      ensures Applied(DeleteFromTable(old(context.categories), context.nextObjectId, title), thrown,
                      old(context.categories), context.nextObjectId, context.categories, context.nextObjectId)
    {
      var toDelete := FindTitled(context.categories, title);
      if toDelete.None? {
        return Some(CategoryNotFound);
      }
      var i := toDelete.value;
      context.categories := context.categories[..i] + context.categories[i + 1..];
      thrown := None;
    }

    function FetchCategory(title: string): Option<ObjectId>
      reads context
    {
      CategoryNamed(context.categories, title)
    }
  }
}
