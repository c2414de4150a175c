/**
 * The grid component: its own label table, the footer texts, the context
 * menu of a column, the paging-button and empty-state predicates, and the
 * component-local `isComponentLoading` flag with the handlers that flip it
 * and forward the user's intent to the adapter.
 */
module Grid {
  import opened Wrappers
  import opened HostTypes
  import opened Strings
  import opened Columns
  import opened Rows
  import Resources
  import Adapter

  const SortAZLabel := "A bis Z"
  const SortZALabel := "Z bis A"
  const DoesNotContainDataLabel := "Enthält keine Daten"
  const NoRecordsLabel := "Keine Datensätze gefunden"
  const RecordCountTemplate := "{0} Datensätze ({1} ausgewählt)"
  const PageTemplate := "Seite {0}"

  /** The component's own label table. */
  const GridLabels: map<string, string> := map[
    "Label_SortAZ" := SortAZLabel,
    "Label_SortZA" := SortZALabel,
    "Label_DoesNotContainData" := DoesNotContainDataLabel,
    "Label_NoRecords" := NoRecordsLabel,
    "Label_Grid_Footer_RecordCount" := RecordCountTemplate,
    "Label_Grid_Footer" := PageTemplate
  ]

  /** The component's labels agree with the adapter's fallback table. */
  lemma GridLabelsAgreeWithFallback()
    ensures forall key :: key in GridLabels ==>
              key in Resources.GermanLabels && Resources.GermanLabels[key] == GridLabels[key]
  {
  }

  /** The record count shown in the footer: the sentinel -1 reads "5000+". */
  function CountText(totalResultCount: int): (s: string)
    ensures totalResultCount == -1 ==> s == "5000+"
    ensures totalResultCount != -1 ==>
              IsCanonicalDecimal(s) && DecimalValue(s) == totalResultCount
  {
    if totalResultCount == -1 then "5000+"
    else
      IntToStringRoundTrip(totalResultCount);
      IntToString(totalResultCount)
  }

  /** The count reads "5000+" exactly for the sentinel -1. */
  lemma CountTextOverflowMarker(totalResultCount: int)
    ensures CountText(totalResultCount) == "5000+" <==> totalResultCount == -1
  {
    if totalResultCount != -1 {
      assert !IsNumeral("5000+"[4]);
    }
  }

  /** `stringFormat(Label_Grid_Footer_RecordCount, count, selected)` */
  function RecordCountText(totalResultCount: int, selectedCount: nat): (s: string) {
    Format(RecordCountTemplate, [CountText(totalResultCount), NatToString(selectedCount)])
  }

  /** `stringFormat(Label_Grid_Footer, currentPage, selected)` */
  function PageText(currentPage: int, selectedCount: nat): (s: string) {
    Format(PageTemplate, [IntToString(currentPage), NatToString(selectedCount)])
  }

  lemma NoBrace(s: string)
    requires forall i :: 0 <= i < |s| ==> IsNumeral(s[i]) || s[i] == '+'
    ensures forall i :: 0 <= i < |s| ==> s[i] != '{'
  {
  }

  lemma FirstPlaceholders()
    ensures Placeholder(0) == "{0}" && Placeholder(1) == "{1}"
  {
    assert NatToString(0) == "0";
    assert NatToString(1) == "1";
  }

  lemma NoBraceConcat(a: string, b: string)
    requires forall i :: 0 <= i < |a| ==> a[i] != '{'
    requires forall i :: 0 <= i < |b| ==> b[i] != '{'
    ensures forall i :: 0 <= i < |a + b| ==> (a + b)[i] != '{'
  {
  }

  /** The count template, as the pieces around its placeholders. */
  lemma RecordCountTemplatePieces()
    ensures RecordCountTemplate == "{0}" + (" Datensätze (" + "{1}" + " ausgewählt)")
  {
  }

  lemma PageTemplatePieces()
    ensures PageTemplate == "Seite " + "{0}" + []
  {
  }

  /** The first substitution of the count template, for a count without braces. */
  lemma FillCount(count: string)
    ensures ReplaceFirst(RecordCountTemplate, "{0}", count) == count + " Datensätze (" + "{1}" + " ausgewählt)"
  {
    RecordCountTemplatePieces();
    ReplaceAtStart("{0}", " Datensätze (" + "{1}" + " ausgewählt)", count);
  }

  /** The second substitution, for a count without braces. */
  lemma FillSelected(count: string, selected: string)
    requires forall i :: 0 <= i < |count| ==> count[i] != '{'
    ensures ReplaceFirst(count + " Datensätze (" + "{1}" + " ausgewählt)", "{1}", selected)
         == count + " Datensätze (" + selected + " ausgewählt)"
  {
    NoBraceConcat(count, " Datensätze (");
    ReplaceAfterPrefix(count + " Datensätze (", "{1}", " ausgewählt)", selected);
  }

  lemma CountTextHasNoBrace(totalResultCount: int)
    ensures forall i :: 0 <= i < |CountText(totalResultCount)| ==> CountText(totalResultCount)[i] != '{'
  {
    if totalResultCount != -1 {
      NoBrace(IntToString(totalResultCount));
    }
  }

  /** The footer count line, with both placeholders filled in. */
  lemma RecordCountTextShape(totalResultCount: int, selectedCount: nat)
    ensures RecordCountText(totalResultCount, selectedCount)
         == CountText(totalResultCount) + " Datensätze (" + NatToString(selectedCount) + " ausgewählt)"
  {
    var count, sel := CountText(totalResultCount), NatToString(selectedCount);
    var args := [count, sel];
    CountTextHasNoBrace(totalResultCount);
    FirstPlaceholders();
    SubstitutedStep(RecordCountTemplate, args, 1);
    FillCount(count);
    SubstitutedStep(RecordCountTemplate, args, 2);
    FillSelected(count, sel);
  }

  /** The first substitution of the page template. */
  lemma FillPage(page: string)
    ensures ReplaceFirst(PageTemplate, "{0}", page) == "Seite " + page
  {
    PageTemplatePieces();
    ReplaceAfterPrefix("Seite ", "{0}", [], page);
  }

  /** The page template after its first substitution. */
  lemma PageAfterFirst(page: string, selected: string)
    ensures Substituted(PageTemplate, [page, selected], 1) == "Seite " + page
  {
    FirstPlaceholders();
    SubstitutedStep(PageTemplate, [page, selected], 1);
    FillPage(page);
  }

  /** The page template after both substitutions, for a page text without braces. */
  lemma PageAfterSecond(page: string, selected: string)
    requires forall i :: 0 <= i < |page| ==> page[i] != '{'
    ensures Substituted(PageTemplate, [page, selected], 2) == "Seite " + page
  {
    PageAfterFirst(page, selected);
    SubstitutedStep(PageTemplate, [page, selected], 2);
    FirstPlaceholders();
    NoBraceConcat("Seite ", page);
    ReplaceAbsent("Seite " + page, "{1}", selected);
  }

  /** The page line: the page number in place of `{0}`; the selected count is ignored. */
  lemma PageTextShape(currentPage: int, selectedCount: nat)
    ensures PageText(currentPage, selectedCount) == "Seite " + IntToString(currentPage)
  {
    NoBrace(IntToString(currentPage));
    PageAfterSecond(IntToString(currentPage), NatToString(selectedCount));
  }

  /** The paging buttons and the "no records" indicator. */
  predicate FirstPageDisabled(hasPreviousPage: bool, isComponentLoading: bool, itemsLoading: bool) {
    !hasPreviousPage || isComponentLoading || itemsLoading
  }

  predicate NextPageDisabled(hasNextPage: bool, isComponentLoading: bool, itemsLoading: bool) {
    !hasNextPage || isComponentLoading || itemsLoading
  }

  predicate ShowNoRecords(itemsLoading: bool, isComponentLoading: bool, items: seq<Option<EntityRecord>>) {
    !itemsLoading && !isComponentLoading && |items| == 0
  }

  /**
   * An entry of a column's context menu. `disable` is the key the grid
   * writes; the menu widget reads `disabled`, so it has no effect there.
   */
  datatype MenuItem = MenuItem(key: string, name: string, checked: bool, disable: bool)

  /** The three entries of a column's context menu: A-Z, Z-A and the filter toggle. */
  function ContextMenu(column: GridColumn): (items: seq<MenuItem>)
    ensures |items| == 3
    ensures items[0].key == "aToZ" && items[1].key == "zToA" && items[2].key == "filter"
    ensures items[0].checked <==> column.isSorted && !column.isSortedDescending
    ensures items[1].checked <==> column.isSorted && column.isSortedDescending
    ensures !(items[0].checked && items[1].checked)
    ensures items[0].checked || items[1].checked <==> column.isSorted
    ensures items[2].checked == column.isFiltered
    ensures items[0].disable == items[1].disable == column.data.disableSorting
  {
    [ MenuItem("aToZ", SortAZLabel, column.isSorted && !column.isSortedDescending, column.data.disableSorting),
      MenuItem("zToA", SortZALabel, column.isSorted && column.isSortedDescending, column.data.disableSorting),
      MenuItem("filter", DoesNotContainDataLabel, column.isFiltered, false) ]
  }

  /**
   * The menu of a projected column checks "Z bis A" exactly when the first
   * sort entry naming the column is descending, and "A bis Z" exactly when
   * that entry is ascending (or carries any other direction).
   */
  lemma ContextMenuFollowsSorting(col: Column, isFirst: bool, sorting: seq<SortStatus>,
                                  filtering: Option<FilterExpression>)
    ensures var items := ContextMenu(ToGridColumn(col, isFirst, sorting, filtering));
      var first := FirstSortIndex(sorting, col.name);
      && (items[1].checked <==> first.Some? && sorting[first.value].sortDirection == Descending)
      && (items[0].checked <==> first.Some? && sorting[first.value].sortDirection != Descending)
  {
    var g := ToGridColumn(col, isFirst, sorting, filtering);
    var first := FirstSortIndex(sorting, col.name);
    if g.isSortedDescending {
      var k :| 0 <= k < |sorting| && sorting[k].name == col.name && sorting[k].sortDirection == Descending
               && forall m :: 0 <= m < k ==> sorting[m].name != col.name;
      assert first == Some(k);
    }
    if first.Some? && sorting[first.value].sortDirection == Descending {
      assert g.isSortedDescending;
    }
  }

  /** What one render shows, apart from widgets and styling. */
  datatype View = View(
    columns: seq<GridColumn>,
    items: seq<Option<EntityRecord>>,
    showNoRecords: bool,
    firstPageDisabled: bool,
    previousPageDisabled: bool,
    nextPageDisabled: bool,
    recordCountText: string,
    pageText: string)

  function Render(props: GridProps, items: seq<Option<EntityRecord>>, isComponentLoading: bool,
                  selectedCount: nat): (v: View)
    ensures v.items == items
    ensures v.columns == ProjectColumns(props.columns, props.sorting, props.filtering)
    ensures v.showNoRecords <==> !props.itemsLoading && !isComponentLoading && |items| == 0
    ensures v.firstPageDisabled <==> !props.hasPreviousPage || isComponentLoading || props.itemsLoading
    ensures v.previousPageDisabled == v.firstPageDisabled
    ensures v.nextPageDisabled <==> !props.hasNextPage || isComponentLoading || props.itemsLoading
    ensures v.recordCountText == RecordCountText(props.totalResultCount, selectedCount)
    ensures v.pageText == "Seite " + IntToString(props.currentPage)
  {
    PageTextShape(props.currentPage, selectedCount);
    View(
      ProjectColumns(props.columns, props.sorting, props.filtering),
      items,
      ShowNoRecords(props.itemsLoading, isComponentLoading, items),
      FirstPageDisabled(props.hasPreviousPage, isComponentLoading, props.itemsLoading),
      FirstPageDisabled(props.hasPreviousPage, isComponentLoading, props.itemsLoading),
      NextPageDisabled(props.hasNextPage, isComponentLoading, props.itemsLoading),
      RecordCountText(props.totalResultCount, selectedCount),
      PageText(props.currentPage, selectedCount))
  }

  /**
   * With the component's own loading flag off, a loaded snapshot with no ids
   * renders no rows and shows the "no records" indicator.
   */
  lemma EmptyResultShowsNoRecords(props: GridProps, selectedCount: nat)
    requires props.records.Some? && props.sortedRecordIds == Some([]) && !props.itemsLoading
    ensures var v := Render(props, ProjectRows(props.records.value, props.sortedRecordIds.value), false, selectedCount);
      v.showNoRecords && v.items == []
  {
  }

  /**
   * The rendered component: the last props, the rows derived from them, the
   * local loading flag, and the adapter whose callbacks it was given.
   */
  class GridComponent {
    var props: GridProps
    var items: seq<Option<EntityRecord>>
    var isComponentLoading: bool
    const adapter: Adapter.ModelDrivenGrid

    /** First render: the flag starts false; rows are derived from the props. */
    constructor Mount(adapter: Adapter.ModelDrivenGrid, props: GridProps)
      requires props.records.Some? && props.sortedRecordIds.Some?
      ensures this.adapter == adapter && this.props == props
      ensures items == ProjectRows(props.records.value, props.sortedRecordIds.value)
      ensures !isComponentLoading
    {
      this.adapter := adapter;
      this.props := props;
      items := ProjectRows(props.records.value, props.sortedRecordIds.value);
      isComponentLoading := false;
    }

    /** A re-render with new props: rows recomputed, flag cleared when records exist. */
    method Receive(p: GridProps)
      requires p.records.Some? && p.sortedRecordIds.Some?
      modifies this`props, this`items, this`isComponentLoading
      ensures props == p
      ensures items == ProjectRows(p.records.value, p.sortedRecordIds.value)
      ensures |p.records.value| > 0 ==> !isComponentLoading
      ensures |p.records.value| == 0 ==> isComponentLoading == old(isComponentLoading)
    {
      if |p.records.value| > 0 {
        isComponentLoading := false;
      }
      props := p;
      items := ProjectRows(p.records.value, p.sortedRecordIds.value);
    }

    method OnNextPage()
      modifies this`isComponentLoading, adapter`currentPage, adapter`requests
      ensures isComponentLoading
      ensures adapter.currentPage == old(adapter.currentPage) + 1
      ensures adapter.requests == old(adapter.requests) + [LoadExactPage(adapter.currentPage)]
    {
      isComponentLoading := true;
      adapter.LoadNextPage();
    }

    method OnPreviousPage()
      modifies this`isComponentLoading, adapter`currentPage, adapter`requests
      ensures isComponentLoading
      ensures adapter.currentPage == old(adapter.currentPage) - 1
      ensures adapter.requests == old(adapter.requests) + [LoadExactPage(adapter.currentPage)]
    {
      isComponentLoading := true;
      adapter.LoadPreviousPage();
    }

    method OnFirstPage()
      modifies this`isComponentLoading, adapter`currentPage, adapter`requests
      ensures isComponentLoading
      ensures adapter.currentPage == 1
      ensures adapter.requests == old(adapter.requests) + [LoadExactPage(1)]
    {
      isComponentLoading := true;
      adapter.LoadFirstPage();
    }

    /**
     * A sort entry of the menu: sorts by the column, and sets the flag only
     * when rows are shown (an empty result would never clear it).
     */
    method OnSortMenuItem(column: GridColumn, desc: bool)
      modifies this`isComponentLoading, adapter`sorting, adapter`requests
      ensures adapter.sorting == [SortStatus(column.key, if desc then Descending else Ascending)]
      ensures adapter.requests == old(adapter.requests) + [Refresh]
      ensures isComponentLoading == (old(isComponentLoading) || |items| > 0)
    {
      adapter.OnSort(column.key, desc);
      if |items| > 0 {
        isComponentLoading := true;
      }
    }

    /** The filter entry of the menu toggles the column's filter and sets the flag. */
    method OnFilterMenuItem(column: GridColumn)
      modifies this`isComponentLoading, adapter`filter, adapter`requests
      ensures !column.isFiltered ==>
                adapter.filter == Some(FilterExpression(Some([Condition(column.key, DoesNotContainData)])))
      ensures column.isFiltered ==> adapter.filter == None
      ensures adapter.requests == old(adapter.requests) + [Refresh]
      ensures isComponentLoading
    {
      adapter.OnFilter(column.key, !column.isFiltered);
      isComponentLoading := true;
    }

    /** The selection changed: the ids of the rows at the selected indices go to the host. */
    method OnSelectionChanged(selectedIndices: seq<int>)
      modifies adapter`requests
      ensures adapter.requests == old(adapter.requests) + [SetSelectedRecordIds(SelectedIds(items, selectedIndices))]
    {
      adapter.SetSelectedRecords(SelectedIds(items, selectedIndices));
    }

    /** A row was invoked: navigate to it. */
    method OnItemInvoked(item: Option<EntityRecord>)
      modifies adapter`requests
      ensures item.Some? ==> adapter.requests == old(adapter.requests) + [OpenDatasetItem(item.value.namedReference)]
      ensures item.None? ==> adapter.requests == old(adapter.requests)
    {
      adapter.OnNavigate(item);
    }
  }

  /**
   * The flag's one trap: the filter entry sets the flag unconditionally, and
   * a re-render clears it only when records arrive. When the filtered result
   * is empty, the grid never shows "no records" and keeps every paging button
   * disabled.
   */
  method FilterToEmptyResult(g: GridComponent, column: GridColumn, p: GridProps, selectedCount: nat)
    returns (v: View)
    requires p.records == Some(map[]) && p.sortedRecordIds.Some?
    modifies g`isComponentLoading, g`props, g`items, g.adapter`filter, g.adapter`requests
    ensures g.isComponentLoading
    ensures v == Render(g.props, g.items, g.isComponentLoading, selectedCount)
    ensures !v.showNoRecords
    ensures v.firstPageDisabled && v.previousPageDisabled && v.nextPageDisabled
  {
    g.OnFilterMenuItem(column);
    g.Receive(p);
    v := Render(g.props, g.items, g.isComponentLoading, selectedCount);
  }
}
