/**
 * PhotoLibraryViewController: a grid of the library's assets from which the
 * user picks one asset, or several when multiple selection is allowed. The
 * collection view is reduced to its selection, the rows of the selected
 * index paths in the order it reports them; the two completions are
 * recorded as the values delivered to them.
 */
module PhotoLibraryViewController {
  import opened Wrappers
  import opened Platform

  /** `rows` with every occurrence of `row` removed, the rest in order. */
  function Without(rows: seq<int>, row: int): (r: seq<int>)
    ensures forall x :: x in r <==> x in rows && x != row
    ensures row in rows ==> |r| < |rows|
    ensures row !in rows ==> r == rows
  {
    if rows == [] then []
    else if rows[0] == row then Without(rows[1..], row)
    else [rows[0]] + Without(rows[1..], row)
  }

  class PhotoLibraryViewController {
    /** The fetched assets; none until the fetch succeeds. */
    var assets: Option<seq<Asset>>
    var allowsMultipleSelection: bool
    /** Whether onSelectionComplete is set. */
    var hasSelectionComplete: bool
    /** Whether onMultipleSelectionComplete is set. */
    var hasMultipleSelectionComplete: bool
    /** The rows of collectionView.indexPathsForSelectedItems. */
    var selected: seq<int>
    /** Values delivered to onSelectionComplete, in order. */
    var selections: seq<Option<Asset>>
    /** Values delivered to onMultipleSelectionComplete, in order. */
    var multipleSelections: seq<Option<seq<Asset>>>

    constructor ()
      ensures assets.None? && !allowsMultipleSelection
      ensures !hasSelectionComplete && !hasMultipleSelectionComplete
      ensures selected == [] && selections == [] && multipleSelections == []
    {
      assets := None;
      allowsMultipleSelection := false;
      hasSelectionComplete, hasMultipleSelectionComplete := false, false;
      selected := [];
      selections, multipleSelections := [], [];
    }

    /** onSuccess(_:): the fetched assets become the grid's contents. */
    method OnSuccess(photos: seq<Asset>)
      modifies this`assets
      ensures assets == Some(photos)
    {
      assets := Some(photos);
    }

    /** collectionView(_:numberOfItemsInSection:): the number of assets, 0 before any are loaded. */
    function NumberOfItemsInSection(): (n: nat)
      reads this`assets
      ensures assets.None? ==> n == 0
      ensures assets.Some? ==> n == |assets.value|
    {
      if assets.Some? then |assets.value| else 0
    }

    /** itemAtIndexPath(_:): the asset at the row; nil before any are loaded. The fetch result traps on a row outside it. */
    function ItemAtIndexPath(row: int): (a: Option<Asset>)
      reads this`assets
      requires assets.Some? ==> 0 <= row < |assets.value|
      ensures a.None? <==> assets.None?
      ensures a.Some? ==> a.value == assets.value[row]
    {
      if assets.Some? then Some(assets.value[row]) else None
    }

    /** Every row the data source reports has an asset behind it, and there is none beyond. */
    lemma ItemsMatchCount(row: int)
      requires 0 <= row < NumberOfItemsInSection()
      ensures ItemAtIndexPath(row).Some?
      ensures ItemAtIndexPath(row).value == assets.value[row]
    {
    }

    /** The selected rows, all inside the fetch result when there is one. */
    predicate SelectionInRange(rows: seq<int>)
      reads this`assets
    {
      assets.Some? ==> forall i :: 0 <= i < |rows| ==> 0 <= rows[i] < |assets.value|
    }

    /**
     * flatMap of itemAtIndexPath over the rows: the asset at each row, in
     * order, with the missing items dropped, which leaves nothing before any
     * assets are loaded.
     */
    function AssetsAtRows(rows: seq<int>): (r: seq<Asset>)
      reads this`assets
      requires SelectionInRange(rows)
      ensures assets.None? ==> r == []
      ensures assets.Some? ==> |r| == |rows| && forall i :: 0 <= i < |rows| ==> r[i] == assets.value[rows[i]]
    {
      if rows == [] then []
      else
        var rest := AssetsAtRows(rows[1..]);
        match ItemAtIndexPath(rows[0])
        case None => rest
        case Some(a) => [a] + rest
    }

    /** dismissLibrary(): exactly one completion, the one for the selection mode, receives nil. */
    method DismissLibrary()
      modifies this`selections, this`multipleSelections
      ensures allowsMultipleSelection ==>
        multipleSelections == old(multipleSelections) + (if hasMultipleSelectionComplete then [None] else [])
        && selections == old(selections)
      ensures !allowsMultipleSelection ==>
        selections == old(selections) + (if hasSelectionComplete then [None] else [])
        && multipleSelections == old(multipleSelections)
    {
      if allowsMultipleSelection {
        if hasMultipleSelectionComplete {
          multipleSelections := multipleSelections + [None];
        }
      } else if hasSelectionComplete {
        selections := selections + [None];
      }
    }

    /** selectMultiple(): the assets at the selected rows go to the multiple-selection completion. */
    method SelectMultiple()
      requires SelectionInRange(selected)
      modifies this`multipleSelections
      ensures multipleSelections == old(multipleSelections)
        + if hasMultipleSelectionComplete then [Some(AssetsAtRows(selected))] else []
    {
      var chosen := AssetsAtRows(selected);
      if hasMultipleSelectionComplete {
        multipleSelections := multipleSelections + [Some(chosen)];
      }
    }

    /** collectionView(_:didSelectItemAt:): in single-selection mode the item goes to the completion. */
    method DidSelectItemAt(row: int)
      requires assets.Some? ==> 0 <= row < |assets.value|
      modifies this`selections
      ensures allowsMultipleSelection ==> selections == old(selections)
      ensures !allowsMultipleSelection ==>
        selections == old(selections) + if hasSelectionComplete then [ItemAtIndexPath(row)] else []
    {
      if allowsMultipleSelection {
        return;
      }
      if hasSelectionComplete {
        selections := selections + [ItemAtIndexPath(row)];
      }
    }

    /**
     * collectionView(_:shouldSelectItemAt:): always in single-selection mode;
     * in multiple-selection mode a tap on a selected item deselects it and
     * refuses, any other tap is allowed.
     */
    method ShouldSelectItemAt(row: int) returns (allow: bool)
      modifies this`selected
      ensures allow <==> !allowsMultipleSelection || row !in old(selected)
      ensures allow ==> selected == old(selected)
      ensures !allow ==> selected == Without(old(selected), row)
    {
      if !allowsMultipleSelection {
        return true;
      }
      if row in selected {
        selected := Without(selected, row);
        return false;
      }
      return true;
    }
  }
}
