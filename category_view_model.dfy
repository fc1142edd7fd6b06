/** The category picker's view model: the list of categories it shows, the
    title the user has selected, and the create, rename and delete actions it
    forwards to the category store. The `onCategorySelected` and `onError`
    closures become the values the methods return. */
module CategorySelection {
  import opened Domain
  import opened Seqs
  import opened Text
  import opened Persistence
  import opened CategoryStore

  /** What `onError` receives when the store refuses to delete. */
  const DeleteFailedMessage: string := "Не удалось удалить категорию"

  /** The titles a list of categories shows, in order. */
  function Titles(categories: seq<TrackerCategory>): seq<string> {
    MapSeq(categories, CategoryTitleOf)
  }

  /** The selection after `oldTitle` has been renamed to `newTitle`. */
  function RenamedSelection(selected: Option<string>, oldTitle: string, newTitle: string): (r: Option<string>)
    ensures selected == Some(oldTitle) ==> r == Some(newTitle)
    ensures selected != Some(oldTitle) ==> r == selected
  {
    if selected == Some(oldTitle) then Some(newTitle) else selected
  }

  /** The selection after the category `title` has been deleted. */
  function DeletedSelection(selected: Option<string>, title: string): (r: Option<string>)
    ensures r.None? <==> selected.None? || selected == Some(title)
    ensures r.Some? ==> r == selected
  {
    if selected == Some(title) then None else selected
  }

  /** A selection that names a category of the table still names one after a successful rename. */
  lemma RenameKeepsSelectionValid(rows: seq<CategoryRow>, next: ObjectId, selected: Option<string>,
                                  oldTitle: string, newTitle: string)
    requires CategoriesWellFormed(rows, next)
    requires RenameInTable(rows, next, oldTitle, newTitle).Changed?
    requires selected.Some? ==> selected.value in TitlesOf(rows)
    ensures var s := RenamedSelection(selected, oldTitle, newTitle);
      s.Some? ==> s.value in TitlesOf(RenameInTable(rows, next, oldTitle, newTitle).rows)
  {
  }

  /** A selection that names a category of the table still names one after a successful delete. */
  lemma DeleteKeepsSelectionValid(rows: seq<CategoryRow>, next: ObjectId, selected: Option<string>, title: string)
    requires CategoriesWellFormed(rows, next)
    requires DeleteFromTable(rows, next, title).Changed?
    requires selected.Some? ==> selected.value in TitlesOf(rows)
    ensures var s := DeletedSelection(selected, title);
      s.Some? ==> s.value in TitlesOf(DeleteFromTable(rows, next, title).rows)
  {
  }

  /** The loaded list shows exactly the titles of the table, each once. */
  lemma LoadedTitles(rows: seq<CategoryRow>, trackers: seq<TrackerRow>)
    requires UniqueTitles(rows)
    ensures Distinct(Titles(CategoriesWithTrackers(rows, trackers)))
    ensures forall t :: t in Titles(CategoriesWithTrackers(rows, trackers)) <==> t in TitlesOf(rows)
  {
  }

  class CategoryViewModel {
    const trackerCategoryStore: TrackerCategoryStore
    var categories: seq<TrackerCategory>
    var selectedCategory: Option<string>

    constructor (trackerCategoryStore: TrackerCategoryStore, selectedCategory: Option<string>)
      ensures this.trackerCategoryStore == trackerCategoryStore
      ensures categories == [] && this.selectedCategory == selectedCategory
    {
      this.trackerCategoryStore := trackerCategoryStore;
      categories := [];
      this.selectedCategory := selectedCategory;
    }

    /** The shown list is what the store holds now. */
    ghost predicate InSync()
      reads this, trackerCategoryStore.context
      requires trackerCategoryStore.context.Valid()
    {
      categories == trackerCategoryStore.FetchAllCategoriesWithTrackers()
    }

    /** The selection, if any, is one of the shown titles. */
    predicate SelectionShown()
      reads this
    {
      selectedCategory.Some? ==> selectedCategory.value in Titles(categories)
    }

    method LoadCategories()
      requires trackerCategoryStore.context.Valid()
      modifies this`categories
      ensures InSync()
      ensures forall t :: t in Titles(categories) <==> t in TitlesOf(trackerCategoryStore.context.categories)
      ensures Distinct(Titles(categories))
    {
      categories := trackerCategoryStore.FetchAllCategoriesWithTrackers();
      LoadedTitles(trackerCategoryStore.context.categories, trackerCategoryStore.context.trackers);
    }

    /** selectCategory(at:): an index past the end changes nothing and reports nothing. */
    method SelectCategory(index: nat) returns (reported: Option<string>)
      modifies this`selectedCategory
      ensures index >= |categories| ==> reported.None? && selectedCategory == old(selectedCategory)
      ensures index < |categories| ==> reported == Some(categories[index].title) && selectedCategory == reported
      ensures index < |categories| ==> IsCategorySelected(index) && SelectionShown()
    {
      if index >= |categories| {
        return None;
      }
      var category := categories[index];
      selectedCategory := Some(category.title);
      reported := Some(category.title);
      assert Titles(categories)[index] == category.title;
    }

    /** createCategory(with:): a blank title is refused before the store is asked;
        otherwise the store's outcome is reported and a success reloads the list. */
    method CreateCategory(title: string) returns (error: Option<string>)
      requires trackerCategoryStore.context.Valid()
      modifies this`categories, trackerCategoryStore.context`categories, trackerCategoryStore.context`nextObjectId
      ensures trackerCategoryStore.context.Valid()
      ensures Trim(title) == [] ==> (
        && error == Some(ErrorDescription(EmptyTitle))
        && unchanged(this) && unchanged(trackerCategoryStore.context))
      ensures Trim(title) != [] ==> (
        var r := CreateInTable(old(trackerCategoryStore.context.categories), old(trackerCategoryStore.context.nextObjectId), title);
        && (r.Refused? ==> (
          && error == Some(ErrorDescription(r.error)) && categories == old(categories)
          && unchanged(trackerCategoryStore.context)))
        && (r.Changed? ==> (
          && error.None?
          && trackerCategoryStore.context.categories == r.rows && trackerCategoryStore.context.nextObjectId == r.next
          && InSync())))
    {
      if Trim(title) == [] {
        return Some(ErrorDescription(EmptyTitle));
      }
      var thrown := trackerCategoryStore.CreateCategory(title);
      if thrown.Some? {
        return Some(ErrorDescription(thrown.value));
      }
      LoadCategories();
      error := None;
    }

    /** updateCategory(oldTitle:newTitle:): a blank new title is refused before the store
        is asked; a successful rename moves the selection along and reloads the list;
        a refused one leaves the selection and the list alone. */
    method UpdateCategory(oldTitle: string, newTitle: string) returns (error: Option<string>)
      requires trackerCategoryStore.context.Valid()
      modifies this`categories, this`selectedCategory, trackerCategoryStore.context`categories
      ensures trackerCategoryStore.context.Valid()
      ensures Trim(newTitle) == [] ==> (
        && error == Some(ErrorDescription(EmptyTitle))
        && unchanged(this) && unchanged(trackerCategoryStore.context))
      ensures Trim(newTitle) != [] ==> (
        var r := RenameInTable(old(trackerCategoryStore.context.categories), trackerCategoryStore.context.nextObjectId, oldTitle, newTitle);
        && (r.Refused? ==> (
          && error == Some(ErrorDescription(r.error))
          && categories == old(categories) && selectedCategory == old(selectedCategory)
          && unchanged(trackerCategoryStore.context)))
        && (r.Changed? ==> (
          && error.None? && trackerCategoryStore.context.categories == r.rows
          && selectedCategory == RenamedSelection(old(selectedCategory), oldTitle, newTitle)
          && InSync()
          && (old(selectedCategory).Some? && old(selectedCategory).value in TitlesOf(old(trackerCategoryStore.context.categories))
              ==> SelectionShown()))))
    {
      if Trim(newTitle) == [] {
        return Some(ErrorDescription(EmptyTitle));
      }
      ghost var rows := trackerCategoryStore.context.categories;
      var thrown := trackerCategoryStore.UpdateCategory(oldTitle, newTitle);
      if thrown.Some? {
        return Some(ErrorDescription(thrown.value));
      }
      if selectedCategory.Some? ==> selectedCategory.value in TitlesOf(rows) {
        RenameKeepsSelectionValid(rows, trackerCategoryStore.context.nextObjectId, selectedCategory, oldTitle, newTitle);
      }
      if selectedCategory == Some(oldTitle) {
        selectedCategory := Some(newTitle);
      }
      LoadCategories();
      error := None;
    }

    /** deleteCategory(with:): every failure reports the same message; a successful
        delete clears the selection exactly when it was the deleted title. */
    method DeleteCategory(title: string) returns (error: Option<string>)
      requires trackerCategoryStore.context.Valid()
      modifies this`categories, this`selectedCategory, trackerCategoryStore.context`categories
      ensures trackerCategoryStore.context.Valid()
      ensures
        var r := DeleteFromTable(old(trackerCategoryStore.context.categories), trackerCategoryStore.context.nextObjectId, title);
        && (r.Refused? ==> (
          && error == Some(DeleteFailedMessage)
          && categories == old(categories) && selectedCategory == old(selectedCategory)
          && unchanged(trackerCategoryStore.context)))
        && (r.Changed? ==> (
          && error.None? && trackerCategoryStore.context.categories == r.rows
          && selectedCategory == DeletedSelection(old(selectedCategory), title)
          && InSync()
          && (old(selectedCategory).Some? && old(selectedCategory).value in TitlesOf(old(trackerCategoryStore.context.categories))
              ==> SelectionShown())))
    {
      ghost var rows := trackerCategoryStore.context.categories;
      var thrown := trackerCategoryStore.DeleteCategory(title);
      if thrown.Some? {
        return Some(DeleteFailedMessage);
      }
      if selectedCategory.Some? ==> selectedCategory.value in TitlesOf(rows) {
        DeleteKeepsSelectionValid(rows, trackerCategoryStore.context.nextObjectId, selectedCategory, title);
      }
      if selectedCategory == Some(title) {
        selectedCategory := None;
      }
      LoadCategories();
      error := None;
    }

    function NumberOfCategories(): (n: nat)
      reads this
      ensures n == |Titles(categories)|
    {
      |categories|
    }

    /** categoryTitle(at:): nil past the end. */
    function CategoryTitleAt(index: nat): (title: Option<string>)
      reads this
      ensures title.None? <==> index >= |categories|
      ensures title.Some? ==> title.value == Titles(categories)[index]
    {
      if index < |categories| then Some(categories[index].title) else None
    }

    /** isCategorySelected(at:): false past the end. */
    predicate IsCategorySelected(index: nat)
      reads this
      ensures IsCategorySelected(index) <==> CategoryTitleAt(index).Some? && CategoryTitleAt(index) == selectedCategory
    {
      index < |categories| && Some(categories[index].title) == selectedCategory
    }

    predicate HasCategories()
      reads this
      ensures HasCategories() <==> NumberOfCategories() > 0
    {
      |categories| != 0
    }

    /** With distinct titles, as a loaded list has, at most one row shows as selected. */
    lemma SelectedRowUnique(i: nat, j: nat)
      requires Distinct(Titles(categories))
      requires IsCategorySelected(i) && IsCategorySelected(j)
      ensures i == j
    {
      var titles := Titles(categories);
      assert titles[i] == selectedCategory.value == titles[j];
    }

    /** The selected index reads back the selected title. */
    lemma SelectedRowTitle(i: nat)
      requires IsCategorySelected(i)
      ensures CategoryTitleAt(i) == selectedCategory
    {
    }
  }
}
