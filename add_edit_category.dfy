/** The dialog that names a new category or renames an existing one. Its Done
    button is enabled only for a title that is not blank, and Done hands the
    title, trimmed of surrounding whitespace and newlines, to the callback the
    mode selects. The callback called is the value `DoneButtonTapped` returns. */
module CategoryEditor {
  import opened Domain
  import opened Text

  /** AddEditCategoryViewController.Mode: edit carries the title being renamed. */
  datatype Mode = Create | Edit(oldTitle: string)

  /** A call of `onCategoryCreated` or `onCategoryUpdated`. */
  datatype EditorCallback =
    | CategoryCreated(title: string)
    | CategoryUpdated(oldTitle: string, newTitle: string)

  class AddEditCategoryViewController {
    const mode: Mode
    /** textField.text. */
    var text: Option<string>
    /** doneButton.isEnabled. */
    var doneEnabled: bool
    /** The navigation bar's title. */
    var navigationTitle: string

    constructor (mode: Mode)
      ensures this.mode == mode && text == Some("") && !doneEnabled
    {
      this.mode := mode;
      text := Some("");
      doneEnabled := false;
      navigationTitle := "";
    }

    /** The text, trimmed, is not empty: what both the button state and Done test. */
    predicate HasTitle()
      reads this
    {
      Trim(text.GetOr("")) != []
    }

    /** The title test holds exactly for text that is present and not blank. */
    lemma HasTitleIff()
      ensures HasTitle() <==> text.Some? && !IsBlank(text.value)
    {
      TrimEmptyIffBlank(text.GetOr(""));
    }

    method UpdateDoneButtonState()
      modifies this`doneEnabled
      ensures doneEnabled == HasTitle()
    {
      var trimmed := Trim(text.GetOr(""));
      var isEmpty := trimmed == [];
      doneEnabled := !isEmpty;
    }

    /** The field's editingChanged action, after its text became `newText`. */
    method TextChanged(newText: Option<string>)
      modifies this`text, this`doneEnabled
      ensures text == newText
      ensures doneEnabled <==> newText.Some? && !IsBlank(newText.value)
    {
      text := newText;
      UpdateDoneButtonState();
      HasTitleIff();
    }

    method SetupNavigationBar()
      modifies this`navigationTitle
      ensures navigationTitle == if mode.Create? then "Новая категория" else "Редактирование категории"
    {
      match mode
      case Create =>
        navigationTitle := "Новая категория";
      case Edit(_) =>
        navigationTitle := "Редактирование категории";
    }

    /** configureForMode(): edit mode starts from the old title, so Done starts enabled
        exactly when the old title is not blank; create mode changes nothing. */
    method ConfigureForMode()
      modifies this`text, this`doneEnabled
      ensures mode.Create? ==> text == old(text) && doneEnabled == old(doneEnabled)
      ensures mode.Edit? ==> text == Some(mode.oldTitle) && (doneEnabled <==> !IsBlank(mode.oldTitle))
    {
      if mode.Edit? {
        text := Some(mode.oldTitle);
        UpdateDoneButtonState();
        HasTitleIff();
      }
    }

    /** viewDidLoad(). */
    method ViewDidLoad()
      modifies this`text, this`doneEnabled, this`navigationTitle
      ensures navigationTitle == if mode.Create? then "Новая категория" else "Редактирование категории"
      ensures mode.Edit? ==> text == Some(mode.oldTitle) && (doneEnabled <==> !IsBlank(mode.oldTitle))
      ensures mode.Create? ==> text == old(text) && doneEnabled == old(doneEnabled)
    {
      SetupNavigationBar();
      ConfigureForMode();
    }

    /** doneButtonTapped(): nothing for a blank title; otherwise the trimmed title goes to
        the callback of the mode, which in edit mode also receives the old title. */
    method DoneButtonTapped() returns (callback: Option<EditorCallback>)
      ensures callback.None? <==> !HasTitle()
      ensures callback.Some? ==> (
        && (mode.Create? ==> callback.value == CategoryCreated(Trim(text.value)))
        && (mode.Edit? ==> callback.value == CategoryUpdated(mode.oldTitle, Trim(text.value))))
      ensures callback.Some? && mode.Create? ==> !IsBlank(callback.value.title) && Trim(callback.value.title) == callback.value.title
      ensures callback.Some? && mode.Edit? ==> !IsBlank(callback.value.newTitle) && Trim(callback.value.newTitle) == callback.value.newTitle
    {
      if text.None? {
        return None;
      }
      var trimmed := Trim(text.value);
      if trimmed == [] {
        return None;
      }
      TrimIdempotent(text.value);
      TrimEmptyIffBlank(trimmed);
      match mode
      case Create =>
        callback := Some(CategoryCreated(trimmed));
      case Edit(oldTitle) =>
        callback := Some(CategoryUpdated(oldTitle, trimmed));
    }
  }
}
