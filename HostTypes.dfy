/**
 * The host dataset API as the control sees it: records, column metadata, the
 * sort list, the filter expression, the per-call snapshot handed to
 * `updateView`, the props bag handed to the grid component, and the calls the
 * control makes back into the host.
 */
module HostTypes {
  import opened Wrappers

  /** The reference `openDatasetItem` navigates to. */
  datatype EntityReference = EntityReference(id: string, etn: string, name: string)

  /** One record of the dataset: its stable id and its navigation reference. */
  datatype EntityRecord = EntityRecord(recordId: string, namedReference: EntityReference)

  /** Column metadata as the host describes it. */
  datatype Column = Column(
    name: string,
    displayName: string,
    order: int,
    isHidden: bool,
    visualSizeFactor: int,
    disableSorting: bool,
    dataType: string)

  /** Sort direction codes of the host's sort list. */
  const Ascending: int := 0
  const Descending: int := 1

  datatype SortStatus = SortStatus(name: string, sortDirection: int)

  /** The host's "does not contain data" condition operator. */
  const DoesNotContainData: int := 12

  datatype Condition = Condition(attributeName: string, conditionOperator: int)

  /** A filter expression; its condition list may itself be absent. */
  datatype FilterExpression = FilterExpression(conditions: Option<seq<Condition>>)

  /**
   * What the host hands to one `updateView` call: the context's
   * `updatedProperties` and the dataset as it stands at that moment.
   */
  datatype Snapshot = Snapshot(
    updatedProperties: seq<string>,
    sortedRecordIds: Option<seq<string>>,
    records: map<string, EntityRecord>,
    columns: seq<Column>,
    loading: bool,
    hasNextPage: bool,
    hasPreviousPage: bool,
    totalResultCount: int,
    sorting: seq<SortStatus>,
    filtering: Option<FilterExpression>)

  /** The props bag the control renders the grid with (callbacks aside). */
  datatype GridProps = GridProps(
    columns: seq<Column>,
    records: Option<map<string, EntityRecord>>,
    sortedRecordIds: Option<seq<string>>,
    hasNextPage: bool,
    hasPreviousPage: bool,
    currentPage: int,
    totalResultCount: int,
    sorting: seq<SortStatus>,
    filtering: Option<FilterExpression>,
    itemsLoading: bool)

  /** A call the control makes into the host dataset. */
  datatype HostRequest =
    | LoadExactPage(page: int)
    | Refresh
    | SetSelectedRecordIds(ids: seq<Option<string>>)
    | OpenDatasetItem(reference: EntityReference)
}
