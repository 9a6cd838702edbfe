/**
 * A category of the media picker: a name and the kind of content it lists.
 * The `id` (a fresh UUID) and the icon URL built from a base address not in
 * this model are left out.
 */
module MediaCategories {
  /** `ContentType`; `Unspecified` is the Swift `.none`, the default. */
  datatype ContentType = Trending | Recents | Unspecified

  datatype MediaCategory = MediaCategory(name: string, kind: ContentType)
}

/**
 * The masonry grid's rule for the last row: it is usually still filling up
 * with the next page, so it is drawn transparent unless the grid shows the
 * recents category.
 */
module GridVisibility {
  import opened Options
  import opened MediaCategories

  /** `shoudDrawLastRow`: a category is selected and it lists recents. */
  function ShouldDrawLastRow(selected: Option<MediaCategory>): (d: bool)
    ensures d <==> selected.Some? && selected.value.kind == Recents
  {
    match selected
    case None => false
    case Some(category) => category.kind == Recents
  }

  /** `shouldDrawView(rowIndex:)` for a grid of `rowCount` rows. */
  function ShouldDrawView(selected: Option<MediaCategory>, rowIndex: int, rowCount: int): bool {
    if ShouldDrawLastRow(selected) then true
    else rowIndex != rowCount - 1
  }

  /** The opacity the grid gives a row. */
  function RowOpacity(selected: Option<MediaCategory>, rowIndex: int, rowCount: int): (o: real)
    ensures o == 1.0 || o == 0.0
    ensures o == 1.0 <==> ShouldDrawView(selected, rowIndex, rowCount)
  {
    if ShouldDrawView(selected, rowIndex, rowCount) then 1.0 else 0.0
  }

  /** `OpacityModifier`: opaque except for the last row. */
  function OpacityModifier(rowIndex: int, rowCount: int): (o: real)
    ensures o == 1.0 || o == 0.0
    ensures o == 1.0 <==> rowIndex != rowCount - 1
  {
    if rowIndex != rowCount - 1 then 1.0 else 0.0
  }

  /** Every row but the last is drawn, whatever is selected. */
  lemma InnerRowsDrawn(selected: Option<MediaCategory>, rowIndex: int, rowCount: int)
    requires rowIndex != rowCount - 1
    ensures ShouldDrawView(selected, rowIndex, rowCount)
  {
  }

  /** The last row is drawn exactly when the recents category is selected;
      with nothing selected it is hidden. */
  lemma LastRowDrawnIffRecents(selected: Option<MediaCategory>, rowCount: int)
    ensures ShouldDrawView(selected, rowCount - 1, rowCount) <==>
      (selected.Some? && selected.value.kind == Recents)
    ensures selected.None? ==> !ShouldDrawView(selected, rowCount - 1, rowCount)
  {
  }

  /** Outside recents the grid's opacity is the one `OpacityModifier` gives. */
  lemma OpacityAgrees(selected: Option<MediaCategory>, rowIndex: int, rowCount: int)
    requires !(selected.Some? && selected.value.kind == Recents)
    ensures RowOpacity(selected, rowIndex, rowCount) == OpacityModifier(rowIndex, rowCount)
  {
  }

  /** How many of the rows `0..k-1` of a grid of `rowCount` rows are drawn. */
  function DrawnRows(selected: Option<MediaCategory>, rowCount: nat, k: nat): nat
    decreases k
  {
    if k == 0 then 0
    else DrawnRows(selected, rowCount, k - 1) + (if ShouldDrawView(selected, k - 1, rowCount) then 1 else 0)
  }

  /** At most one row is hidden: the last, unless recents is selected. */
  lemma {:induction false} DrawnRowCount(selected: Option<MediaCategory>, rowCount: nat, k: nat)
    requires k <= rowCount
    ensures DrawnRows(selected, rowCount, k) ==
      if k == rowCount && k >= 1 && !ShouldDrawLastRow(selected) then k - 1 else k
    decreases k
  {
    if k > 0 {
      DrawnRowCount(selected, rowCount, k - 1);
    }
  }
}
