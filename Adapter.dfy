/**
 * The control adapter `ModelDrivenGrid`: the view state it keeps across host
 * callbacks (current page, last accepted records and id order), the
 * reconciliation `updateView` performs on each snapshot, and the commands
 * that write the host's sort list, filter and paging cursor.
 */
module Adapter {
  import opened Wrappers
  import opened HostTypes
  import Resources

  /** The adapter's own state: `currentPage`, `records`, `sortedRecordsIds`. */
  datatype ViewState = ViewState(
    currentPage: int,
    records: Option<map<string, EntityRecord>>,
    sortedRecordsIds: Option<seq<string>>)

  /** Field initialisers: page 1, `records` undefined, `sortedRecordsIds = []`. */
  const InitialViewState: ViewState := ViewState(1, None, Some([]))

  /**
   * `!this.sortedRecordsIds && dataset.sortedRecordIds`: no id list held
   * (only after a snapshot without one was accepted) and one arriving.
   */
  predicate InitialLoad(s: ViewState, snap: Snapshot) {
    s.sortedRecordsIds.None? && snap.sortedRecordIds.Some?
  }

  predicate DatasetChanged(s: ViewState, snap: Snapshot) {
    "dataset" in snap.updatedProperties || InitialLoad(s, snap)
  }

  predicate PagingChanged(snap: Snapshot) {
    "paging" in snap.updatedProperties
  }

  predicate ResetPaging(s: ViewState, snap: Snapshot) {
    DatasetChanged(s, snap) && !snap.loading && !snap.hasPreviousPage && s.currentPage != 1
  }

  /** When `updateView` takes the snapshot's records and id order. */
  predicate Accepts(s: ViewState, snap: Snapshot, isTestHarness: bool) {
    ResetPaging(s, snap) || DatasetChanged(s, snap) || PagingChanged(snap)
    || isTestHarness || s.records.None? || !snap.loading
  }

  /** The view state after `updateView` with snapshot `snap`. */
  function Reconcile(s: ViewState, snap: Snapshot, isTestHarness: bool): (r: ViewState)
    ensures r.currentPage != s.currentPage <==> ResetPaging(s, snap)
    ensures r.currentPage != s.currentPage ==> r.currentPage == 1
    ensures Accepts(s, snap, isTestHarness) ==>
              r.records == Some(snap.records) && r.sortedRecordsIds == snap.sortedRecordIds
    ensures !Accepts(s, snap, isTestHarness) ==>
              r.records == s.records && r.sortedRecordsIds == s.sortedRecordsIds
    ensures r.records.Some?
  {
    var page := if ResetPaging(s, snap) then 1 else s.currentPage;
    if Accepts(s, snap, isTestHarness) then ViewState(page, Some(snap.records), snap.sortedRecordIds)
    else ViewState(page, s.records, s.sortedRecordsIds)
  }

  /**
   * The dataset's `loading` flag after `updateView`: forced off when an
   * accepted snapshot carries a non-empty id list, otherwise as the host set it.
   */
  function LoadingAfter(s: ViewState, snap: Snapshot, isTestHarness: bool): (b: bool)
    ensures b ==> snap.loading
    ensures Accepts(s, snap, isTestHarness) && snap.sortedRecordIds.Some? && |snap.sortedRecordIds.value| > 0 ==> !b
    ensures !(Accepts(s, snap, isTestHarness) && snap.sortedRecordIds.Some? && |snap.sortedRecordIds.value| > 0) ==>
              b == snap.loading
  {
    if Accepts(s, snap, isTestHarness) && snap.sortedRecordIds.Some? && |snap.sortedRecordIds.value| > 0
    then false else snap.loading
  }

  /** The first `updateView` after `init` always takes the snapshot. */
  lemma FirstUpdateAccepts(snap: Snapshot, isTestHarness: bool)
    ensures Reconcile(InitialViewState, snap, isTestHarness)
         == ViewState(1, Some(snap.records), snap.sortedRecordIds)
  {
  }

  /**
   * A still-loading snapshot with no change flags, outside the test
   * harness, while records are held and the first load cannot fire (an id
   * list is held, or the snapshot brings none), changes nothing: the grid
   * keeps showing the held rows instead of flashing empty.
   */
  lemma LoadingSnapshotKeepsRows(s: ViewState, snap: Snapshot)
    requires s.records.Some? && (s.sortedRecordsIds.Some? || snap.sortedRecordIds.None?)
    requires snap.loading
    requires "dataset" !in snap.updatedProperties && "paging" !in snap.updatedProperties
    ensures Reconcile(s, snap, false) == s
    ensures LoadingAfter(s, snap, false)
  {
  }

  class ModelDrivenGrid {
    var currentPage: int
    var records: Option<map<string, EntityRecord>>
    var sortedRecordsIds: Option<seq<string>>
    var isTestHarness: bool
    var resources: Resources.HostResources

    // The host dataset reached through the context captured by `init`:
    // its sort list, its filter, its `loading` flag, and the calls made on it.
    var sorting: seq<SortStatus>
    var filter: Option<FilterExpression>
    var loading: bool
    var requests: seq<HostRequest>

    function State(): ViewState
      reads this
    {
      ViewState(currentPage, records, sortedRecordsIds)
    }

    /**
     * Construction (field initialisers) followed by `init`: captures the
     * resources, installs the German fallback, marks the dataset loading.
     */
    constructor Init(resources: Resources.HostResources, isTestHarness: bool,
                     sorting: seq<SortStatus>, filter: Option<FilterExpression>)
      modifies resources
      ensures State() == InitialViewState
      ensures this.isTestHarness == isTestHarness && this.resources == resources
      ensures this.sorting == sorting && this.filter == filter
      ensures loading && requests == []
      ensures forall key :: resources.getString(key)
                == Resources.OverriddenGetString(old(resources.getString), key)
    {
      currentPage := 1;
      records := None;
      sortedRecordsIds := Some([]);
      this.isTestHarness := isTestHarness;
      this.resources := resources;
      this.sorting := sorting;
      this.filter := filter;
      requests := [];
      loading := true;
      new;
      CreateGermanResourceFallback();
    }

    /** Puts the German table in front of whatever `getString` was. */
    method CreateGermanResourceFallback()
      modifies resources
      ensures forall key :: resources.getString(key)
                == Resources.OverriddenGetString(old(resources.getString), key)
    {
      var original := resources.getString;
      resources.getString := key => Resources.OverriddenGetString(original, key);
    }

    method SetSelectedRecords(ids: seq<Option<string>>)
      modifies this`requests
      ensures requests == old(requests) + [SetSelectedRecordIds(ids)]
    {
      requests := requests + [SetSelectedRecordIds(ids)];
    }

    /** Opens the record only when one is given. */
    method OnNavigate(item: Option<EntityRecord>)
      modifies this`requests
      ensures item.Some? ==> requests == old(requests) + [OpenDatasetItem(item.value.namedReference)]
      ensures item.None? ==> requests == old(requests)
    {
      if item.Some? {
        requests := requests + [OpenDatasetItem(item.value.namedReference)];
      }
    }

    /** Empties the sort list in place, pushes the one new entry, refreshes. */
    method OnSort(name: string, desc: bool)
      modifies this`sorting, this`requests
      ensures sorting == [SortStatus(name, if desc then Descending else Ascending)]
      ensures requests == old(requests) + [Refresh]
    {
      while |sorting| > 0
        invariant requests == old(requests)
        decreases |sorting|
      {
        sorting := sorting[..|sorting| - 1];
      }
      sorting := sorting + [SortStatus(name, if desc then Descending else Ascending)];
      requests := requests + [Refresh];
    }

    /** Enabling sets the single "does not contain data" condition; disabling clears the whole filter. */
    method OnFilter(name: string, enabled: bool)
      modifies this`filter, this`requests
      ensures enabled ==> filter == Some(FilterExpression(Some([Condition(name, DoesNotContainData)])))
      ensures !enabled ==> filter == None
      ensures requests == old(requests) + [Refresh]
    {
      if enabled {
        filter := Some(FilterExpression(Some([Condition(name, DoesNotContainData)])));
      } else {
        filter := None;
      }
      requests := requests + [Refresh];
    }

    method LoadFirstPage()
      modifies this`currentPage, this`requests
      ensures currentPage == 1
      ensures requests == old(requests) + [LoadExactPage(1)]
    {
      currentPage := 1;
      requests := requests + [LoadExactPage(1)];
    }

    method LoadNextPage()
      modifies this`currentPage, this`requests
      ensures currentPage == old(currentPage) + 1
      ensures requests == old(requests) + [LoadExactPage(currentPage)]
    {
      currentPage := currentPage + 1;
      requests := requests + [LoadExactPage(currentPage)];
    }

    method LoadPreviousPage()
      modifies this`currentPage, this`requests
      ensures currentPage == old(currentPage) - 1
      ensures requests == old(requests) + [LoadExactPage(currentPage)]
    {
      currentPage := currentPage - 1;
      requests := requests + [LoadExactPage(currentPage)];
    }

    /**
     * `updateView`: reconciles the view state with the snapshot, possibly
     * clears the dataset's `loading`, and returns the props it renders with.
     */
    method UpdateView(snap: Snapshot) returns (props: GridProps)
      modifies this`currentPage, this`records, this`sortedRecordsIds, this`loading
      ensures State() == Reconcile(old(State()), snap, isTestHarness)
      ensures loading == LoadingAfter(old(State()), snap, isTestHarness)
      ensures props == GridProps(snap.columns, records, sortedRecordsIds, snap.hasNextPage,
                                 snap.hasPreviousPage, currentPage, snap.totalResultCount,
                                 snap.sorting, snap.filtering, loading)
    {
      loading := snap.loading;
      var initialLoad := sortedRecordsIds.None? && snap.sortedRecordIds.Some?;
      var datasetChanged := "dataset" in snap.updatedProperties || initialLoad;
      var pagingChanged := "paging" in snap.updatedProperties;
      var resetPaging := datasetChanged && !loading && !snap.hasPreviousPage && currentPage != 1;

      if resetPaging {
        currentPage := 1;
      }

      if resetPaging || datasetChanged || pagingChanged || isTestHarness || records.None? || !loading {
        records := Some(snap.records);
        sortedRecordsIds := snap.sortedRecordIds;
        if snap.sortedRecordIds.Some? && |snap.sortedRecordIds.value| > 0 {
          loading := false;
        }
      }

      props := GridProps(snap.columns, records, sortedRecordsIds, snap.hasNextPage,
                         snap.hasPreviousPage, currentPage, snap.totalResultCount,
                         snap.sorting, snap.filtering, loading);
    }
  }

  /** Next page followed by previous page returns to the page it started from. */
  method NextThenPrevious(g: ModelDrivenGrid)
    modifies g`currentPage, g`requests
    ensures g.currentPage == old(g.currentPage)
    ensures g.requests == old(g.requests)
              + [LoadExactPage(old(g.currentPage) + 1), LoadExactPage(old(g.currentPage))]
  {
    g.LoadNextPage();
    g.LoadPreviousPage();
  }
}
