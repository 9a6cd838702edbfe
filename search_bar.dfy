/**
 * The media picker's search bar: a text field, a strip of category icons
 * and the controls around them.  Choosing a category toggles it (by name),
 * and the back and clear buttons clear both the category and the text.
 */
module MediaSearchBar {
  import opened Options
  import opened MediaCategories

  /** `isSelected` of a category icon: the selection has the same name. */
  predicate IsSelected(selected: Option<MediaCategory>, category: MediaCategory) {
    selected.Some? && selected.value.name == category.name
  }

  /** The selection after `handleCategorySelection(category)`. */
  function Toggle(selected: Option<MediaCategory>, category: MediaCategory): (r: Option<MediaCategory>)
    ensures IsSelected(selected, category) ==> r == None
    ensures !IsSelected(selected, category) ==> r == Some(category)
  {
    if selected.Some? && selected.value.name == category.name then None else Some(category)
  }

  /** Choosing a category flips whether it is selected. */
  lemma ToggleFlips(selected: Option<MediaCategory>, category: MediaCategory)
    ensures IsSelected(Toggle(selected, category), category) <==> !IsSelected(selected, category)
  {
  }

  /** Choosing a category twice, starting from no selection or from another
      category, ends with nothing selected. */
  lemma ToggleTwice(selected: Option<MediaCategory>, category: MediaCategory)
    requires !IsSelected(selected, category)
    ensures Toggle(Toggle(selected, category), category) == None
  {
  }

  /** Which controls the bar shows. */
  datatype Controls = Controls(
    backButton: bool, searchIcon: bool, fieldDisabled: bool,
    clearButton: bool, categoriesStrip: bool)

  /** The controls for a given text and selection. */
  function ShownControls(searchText: string, selected: Option<MediaCategory>): (c: Controls)
    ensures c.backButton != c.searchIcon && c.backButton == c.fieldDisabled
    ensures c.backButton <==> selected.Some?
    ensures c.clearButton != c.categoriesStrip
    ensures c.categoriesStrip <==> searchText == ""
  {
    Controls(
      backButton := selected != None,
      searchIcon := selected == None,
      fieldDisabled := selected != None,
      clearButton := !(|searchText| == 0),
      categoriesStrip := |searchText| == 0)
  }

  /** The state the bar binds to: the search text and the selected category. */
  class SearchBar {
    var searchText: string
    var selectedCategory: Option<MediaCategory>

    constructor(text: string, selected: Option<MediaCategory>)
      ensures searchText == text && selectedCategory == selected
    {
      searchText := text;
      selectedCategory := selected;
    }

    function Shown(): Controls
      reads this
    {
      ShownControls(searchText, selectedCategory)
    }

    /** `clearSelection`, behind the back and clear buttons. */
    method ClearSelection()
      modifies this
      ensures selectedCategory == None && searchText == ""
      ensures Shown().searchIcon && Shown().categoriesStrip && !Shown().clearButton
    {
      selectedCategory := None;
      searchText := "";
    }

    /** `handleCategorySelection`: toggle the category by name, text unchanged. */
    method HandleCategorySelection(category: MediaCategory)
      modifies this
      ensures selectedCategory == Toggle(old(selectedCategory), category)
      ensures searchText == old(searchText)
    {
      if selectedCategory.Some? && selectedCategory.value.name == category.name {
        selectedCategory := None;
      } else {
        selectedCategory := Some(category);
      }
    }
  }
}
