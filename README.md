# ModelDrivenGrid: a verified model of the grid control's state logic

The control is a data grid for a model-driven app. The host runtime hands it a
dataset (record ids in display order, a record map, column metadata, the sort
list, the filter, paging flags and a `loading` flag) on every `updateView`. The
control renders the records and sends sort, filter, paging, selection and
navigation requests back to the host. This project models the two pieces of
sequential logic in it:

- **The control adapter** (`ModelDrivenGrid/index.ts`, module `Adapter`). The
  class `Adapter.ModelDrivenGrid` keeps `currentPage`, `records` and
  `sortedRecordsIds` across host callbacks. `UpdateView` applies the
  reconciliation policy: reset to page 1, accept or ignore the snapshot, force
  `loading` off. The paging, sort and filter commands write the host's paging
  cursor, sort list and filter.
  - The policy itself is the pure function `Adapter.Reconcile`, and the new
    `loading` value is `Adapter.LoadingAfter`.
  - The host dataset reached through `init`'s context is modelled as fields of
    the class: the sort list (`sorting`), the filter (`filter`), the `loading`
    flag, and an append-only log of the calls made on it (`requests`). Those
    calls are `loadExactPage`, `refresh`, `setSelectedRecordIds` and
    `openDatasetItem`.
  - The host's resources object is `Resources.HostResources`. `init` replaces
    its `getString` with the German table in front of the host lookup.
- **The grid component** (`ModelDrivenGrid/Grid.tsx`, modules `Strings`,
  `Columns`, `Rows`, `Grid`).
  - `stringFormat` is a loop (`Strings.StringFormat`), specified by
    `Strings.Format`.
  - The pure projections:
    - column projection: `Columns.ProjectColumns`, a stable sort by `order`
      over the shown columns;
    - row projection: `Rows.ProjectRows`;
    - selection mapping: `Rows.SelectedIds`;
    - footer texts;
    - paging-button and empty-state predicates (`Grid.Render`).
  - The class `Grid.GridComponent` holds the component-local
    `isComponentLoading` flag. Its handlers set or clear the flag and call the
    adapter's commands.

JavaScript truthiness is kept where it decides behaviour:
- `records` starts undefined: `Option`, initially `None`.
- `sortedRecordsIds` starts as the truthy `[]`: `Option`, initially `Some([])`.
  So `initialLoad` holds only after a snapshot without an id list was accepted.
- An absent filter, or a filter whose condition list is absent, gives
  "not filtered".
- A missing record id gives the `None` placeholder row.
- An out-of-range selected index gives a `None` id.

Three details of the code decide behaviour and are kept as written:
- The first column gets no context-menu or click handler at all, and its
  `disableSorting` is forced true (`ModelDrivenGrid/Grid.tsx:257-274`).
- The immediate-feedback loading flag is React state of the grid component
  (`ModelDrivenGrid/Grid.tsx:135`), so the model puts it on
  `Grid.GridComponent`, not on the adapter.
- The fallback lookup is `germanLabels[key] || original(key)`
  (`ModelDrivenGrid/index.ts:53`), so an empty table entry would fall
  through to the host. `Resources.OverriddenGetString` models the `||`. Its
  contract states that every table key wins, because the table has no empty
  entry.

## Model

| member | source | states |
|---|---|---|
| `Adapter.Reconcile` | ModelDrivenGrid/index.ts:141-160 | The page changes exactly when the reset condition holds (dataset changed, not loading, no previous page, page not 1), and then it becomes 1. When the accept condition holds, records and id order become the snapshot's. Otherwise both stay as they were. Records are always held afterwards. |
| `Adapter.LoadingAfter` | ModelDrivenGrid/index.ts:157-164 | `loading` is never turned on. It is off after an accepted snapshot with a non-empty id list. Otherwise it is the host's value. |
| `Adapter.FirstUpdateAccepts` | ModelDrivenGrid/index.ts:14-20 | From the initial state (page 1, `records` undefined, ids `[]`), any snapshot is accepted and the page stays 1. |
| `Adapter.LoadingSnapshotKeepsRows` | ModelDrivenGrid/index.ts:145-160 | Take a still-loading snapshot with neither `dataset` nor `paging` flagged, outside the test harness, while records are held and the first load cannot fire (an id list is held, or the snapshot brings none). It changes nothing and leaves `loading` on: no flicker to empty. |
| `Adapter.ModelDrivenGrid.Init` | ModelDrivenGrid/index.ts:117-134 | Initial view state, captured resources and test-harness flag, `loading` set true, no host calls yet. `getString` is the German override over the host's original lookup. |
| `Adapter.ModelDrivenGrid.CreateGermanResourceFallback` | ModelDrivenGrid/index.ts:26-55 | Afterwards `getString(key)` is the table's string for table keys and the previous lookup's result for all other keys. |
| `Adapter.ModelDrivenGrid.SetSelectedRecords` | ModelDrivenGrid/index.ts:22-24 | Exactly one `setSelectedRecordIds(ids)` call is logged. |
| `Adapter.ModelDrivenGrid.OnNavigate` | ModelDrivenGrid/index.ts:57-61 | Opens the item's named reference when an item is given. Otherwise makes no call. |
| `Adapter.ModelDrivenGrid.OnSort` | ModelDrivenGrid/index.ts:63-73 | After popping every prior entry, the sort list is exactly `[{name, desc ? 1 : 0}]`. Exactly one refresh is logged. |
| `Adapter.ModelDrivenGrid.OnFilter` | ModelDrivenGrid/index.ts:75-90 | Enabling sets a filter of exactly one condition (attribute `name`, operator 12). Disabling clears the whole filter. Either way exactly one refresh is logged. |
| `Adapter.ModelDrivenGrid.LoadFirstPage` | ModelDrivenGrid/index.ts:92-95 | The page becomes 1 and page 1 is requested. |
| `Adapter.ModelDrivenGrid.LoadNextPage` | ModelDrivenGrid/index.ts:97-100 | The page goes up by one and exactly the new page is requested. |
| `Adapter.ModelDrivenGrid.LoadPreviousPage` | ModelDrivenGrid/index.ts:102-105 | The page goes down by one and exactly the new page is requested. |
| `Adapter.ModelDrivenGrid.UpdateView` | ModelDrivenGrid/index.ts:141-196 | The view state becomes `Reconcile` of the old one and `loading` becomes `LoadingAfter`. The rendered props carry the held records and ids, the current page, the snapshot's columns, paging, sorting and filter, and the dataset's `loading`. |
| `Adapter.NextThenPrevious` | ModelDrivenGrid/index.ts:97-105 | Next page then previous page restores the page and requests page p+1, then page p. |
| `Resources.OverriddenGetString` | ModelDrivenGrid/index.ts:28-54 | A key in the table yields the table's (non-empty) string. Any other key yields the host's original result. |
| `Strings.StringFormat` | ModelDrivenGrid/Grid.tsx:17-22 | The loop's result equals `Format(template, args)`: substitutions for k = 0, 1, … applied in order. |
| `Strings.ReplaceFirst` | ModelDrivenGrid/Grid.tsx:19 | `replace` with a string pattern changes only the first occurrence. Without an occurrence the text is unchanged. |
| `Strings.IndexOf` | ModelDrivenGrid/Grid.tsx:19 | The result is the first index where the pattern occurs, or none when it occurs nowhere. |
| `Strings.IntToString` | ModelDrivenGrid/Grid.tsx:371 | Decimal text in the canonical form of `toString()`: digits with an optional leading '-', no leading zero except "0" itself, and no "-0". |
| `Strings.NatToStringLeadingDigit` | ModelDrivenGrid/Grid.tsx:372 | The decimal text of a natural number starts with '0' exactly when the number is 0, and is then "0". |
| `Strings.CanonicalIsIntToString` | ModelDrivenGrid/Grid.tsx:393 | Every canonical decimal text is `IntToString` of the value it denotes, so each integer has exactly one text. |
| `Strings.NatToStringRoundTrip` | ModelDrivenGrid/Grid.tsx:372 | The decimal text of a natural number is all digits and reads back (`NatValue`) as that number. |
| `Strings.IntToStringRoundTrip` | ModelDrivenGrid/Grid.tsx:371 | The decimal text of an integer reads back (`DecimalValue`) as that integer. |
| `Strings.IntToStringInjective` | ModelDrivenGrid/Grid.tsx:393 | Two integers with the same decimal text are equal. |
| `Strings.FormatWithoutPlaceholders` | ModelDrivenGrid/Grid.tsx:17-22 | A template containing none of `{0}`…`{n-1}` is returned unchanged. |
| `Strings.ExtraArgsIgnored` | ModelDrivenGrid/Grid.tsx:17-22 | Arguments whose placeholders do not occur in the text left by the earlier substitutions do not change the result. |
| `Strings.ReplaceAfterPrefix` | ModelDrivenGrid/Grid.tsx:19 | The first `{k}` after a prefix without '{' is the one replaced. |
| `Columns.Visible` | ModelDrivenGrid/Grid.tsx:250 | Keeps exactly the columns that are not hidden and have order ≥ 0, each as often as it occurs in the input. |
| `Columns.ShownFrom` | ModelDrivenGrid/Grid.tsx:250 | The positions of the shown columns: strictly ascending, each holding a shown column, and containing every position that holds one. |
| `Columns.VisibleIsFilter` | ModelDrivenGrid/Grid.tsx:250 | The k-th column that `Visible` keeps is the column at the k-th shown position, so it keeps the shown columns in their input order. |
| `Columns.VisibleKeepsOrder` | ModelDrivenGrid/Grid.tsx:250 | The same for the whole column list. |
| `Columns.SortByOrder` | ModelDrivenGrid/Grid.tsx:251 | The result is a permutation of the input, in ascending `order`. |
| `Columns.SortKeepsClasses` | ModelDrivenGrid/Grid.tsx:251 | Stability: for each order value, the columns with that order keep their relative input order. |
| `Columns.SortedVisible` | ModelDrivenGrid/Grid.tsx:249-251 | The result is sorted, a permutation of the shown columns, and stable per order value. |
| `Columns.FirstSortIndex` | ModelDrivenGrid/Grid.tsx:253 | Gives the index of the first sort entry with the column's name, or none exactly when no entry has it. |
| `Columns.NamesAttribute` | ModelDrivenGrid/Grid.tsx:254-255 | Holds iff some condition names the column. |
| `Columns.MinWidth` | ModelDrivenGrid/Grid.tsx:272 | The larger of `visualSizeFactor` and 100, so always ≥ 100. |
| `Columns.ToGridColumn` | ModelDrivenGrid/Grid.tsx:252-275 | `isSorted` iff some entry names the column. `isSortedDescending` iff the first such entry has direction 1. `isFiltered` iff a filter with a condition list has a condition naming the column. `minWidth` is `MinWidth(visualSizeFactor)` and the column is resizable. The first column has `disableSorting` forced and no handlers; every other column keeps its flag and has both handlers. |
| `Columns.ProjectColumns` | ModelDrivenGrid/Grid.tsx:248-277 | One projected column per shown column: element i is the projection of the i-th sorted shown column, with i = 0 as the first. |
| `Columns.ProjectedColumnsOrdered` | ModelDrivenGrid/Grid.tsx:249-272 | Projected columns are shown columns in ascending order, each resizable and as wide as `MinWidth` of its size factor. |
| `Columns.ProjectedColumnsComplete` | ModelDrivenGrid/Grid.tsx:249-251 | Every shown input column appears among the projected columns. |
| `Columns.FirstColumnLocked` | ModelDrivenGrid/Grid.tsx:257-274 | The first projected column always has `disableSorting` and no context-menu or click handler. Every other column keeps its own `disableSorting` and has both handlers. |
| `Rows.ProjectRows` | ModelDrivenGrid/Grid.tsx:149-152 | Same length and order as the id list. Element i is the record for id i, or the missing placeholder when the id is absent. |
| `Rows.SelectedId` | ModelDrivenGrid/Grid.tsx:120-121 | The id of the row at the index. `undefined` for an out-of-range index or a missing row. |
| `Rows.SelectedIds` | ModelDrivenGrid/Grid.tsx:118-122 | One entry per selected index, in order, each the id of the row at that index. |
| `Rows.SelectionThroughRows` | ModelDrivenGrid/Grid.tsx:118-122 | Through the row projection, selected index i gives the record id stored for `sortedRecordIds[i]`. |
| `Grid.GridLabelsAgreeWithFallback` | ModelDrivenGrid/Grid.tsx:63-70 | Each label of the component's own table equals the adapter's fallback string for the same key. |
| `Grid.CountText` | ModelDrivenGrid/Grid.tsx:371 | The count text is "5000+" for the sentinel -1, and otherwise the canonical decimal text that reads back as the count. |
| `Grid.CountTextOverflowMarker` | ModelDrivenGrid/Grid.tsx:371 | The count text is "5000+" exactly when `totalResultCount == -1`. |
| `Grid.RecordCountText` | ModelDrivenGrid/Grid.tsx:369-373 | `stringFormat` of the count template with the count text and the selected count; `Grid.RecordCountTextShape` gives the resulting line. |
| `Grid.PageText` | ModelDrivenGrid/Grid.tsx:391-395 | `stringFormat` of the page template with the page and the selected count; `Grid.PageTextShape` gives the resulting line. |
| `Grid.RecordCountTextShape` | ModelDrivenGrid/Grid.tsx:369-373 | The footer reads `<count> Datensätze (<selected> ausgewählt)`. |
| `Grid.PageTextShape` | ModelDrivenGrid/Grid.tsx:391-395 | The page label reads `Seite <page>`; the extra selected-count argument is ignored. |
| `Grid.ContextMenu` | ModelDrivenGrid/Grid.tsx:159-202 | Three entries: A-Z, Z-A, filter. A-Z is checked iff the column is sorted ascending, Z-A iff it is sorted descending, so at most one is, and one is iff the column is sorted. The filter entry is checked iff the column is filtered. Both sort entries carry the column's `disableSorting`. The source sets this under the key `disable`, while the menu widget reads `disabled`, so in the running grid the sort entries are never actually disabled; the model records the value the source writes. |
| `Grid.ContextMenuFollowsSorting` | ModelDrivenGrid/Grid.tsx:165-180 | For a projected column, Z-A is checked iff the first sort entry naming the column is descending, and A-Z iff that entry exists with another direction. |
| `Grid.Render` | ModelDrivenGrid/Grid.tsx:341-400 | First/previous are disabled iff there is no previous page, or the component is loading, or the items are loading. Next is disabled iff there is no next page, or either flag is set. "No records" shows iff neither flag is set and there are no items. The footer texts are as above. |
| `Grid.EmptyResultShowsNoRecords` | ModelDrivenGrid/Grid.tsx:341 | With the component's own loading flag off, a loaded snapshot with no ids renders no rows and shows the "no records" indicator. |
| `Grid.GridComponent.Mount` | ModelDrivenGrid/Grid.tsx:135-155 | The flag starts false and the rows are the projection of the props. |
| `Grid.GridComponent.Receive` | ModelDrivenGrid/Grid.tsx:143-155 | The rows are re-projected. The flag is cleared when the record map is non-empty and otherwise unchanged. |
| `Grid.GridComponent.OnNextPage` | ModelDrivenGrid/Grid.tsx:233-236 | Sets the flag, moves the adapter one page forward and requests that page. |
| `Grid.GridComponent.OnPreviousPage` | ModelDrivenGrid/Grid.tsx:238-241 | Sets the flag, moves the adapter one page back and requests that page. |
| `Grid.GridComponent.OnFirstPage` | ModelDrivenGrid/Grid.tsx:243-246 | Sets the flag, moves the adapter to page 1 and requests page 1. |
| `Grid.GridComponent.OnSortMenuItem` | ModelDrivenGrid/Grid.tsx:167-188 | Replaces the sort list with the column's single entry and refreshes. Sets the flag only when rows are shown. |
| `Grid.GridComponent.OnFilterMenuItem` | ModelDrivenGrid/Grid.tsx:196-200 | Toggles the filter (set when not filtered, cleared when filtered), refreshes, and sets the flag. |
| `Grid.FilterToEmptyResult` | ModelDrivenGrid/Grid.tsx:144-147 | After the filter entry and a re-render with an empty record map, the flag is still set: "no records" is not shown and all paging buttons are disabled. |
| `Grid.GridComponent.OnSelectionChanged` | ModelDrivenGrid/Grid.tsx:117-126 | Sends exactly the mapped ids of the current rows to the host. |
| `Grid.GridComponent.OnItemInvoked` | ModelDrivenGrid/Grid.tsx:359 | Navigates to the invoked row when there is one. |

## Left out

- Rendering is not modelled: React and ReactDOM, Fluent UI widgets, the sticky
  header, the scroll pane, context-menu positioning and dismissal, row styling
  (`onRenderRow`), cell and image rendering (`onRenderItemColumn`), and the
  root container style. They are presentation only.
- `initializeIcons`, `trackContainerResize` and test-harness detection through
  the DOM are host or DOM calls. The test-harness flag is a constructor
  parameter.
- The `parseInt` of `allocatedWidth` and the width/height props are not
  modelled. They only size the widget.
- `getOutputs` and `destroy` are not modelled: they return an empty object and
  unmount the tree.
- What the host does behind `refresh`, `loadExactPage`, `setSelectedRecordIds`
  and `openDatasetItem` is not modelled. Each call is only logged in
  `requests`. The snapshot the next `updateView` receives is an input. It is
  not linked to the sort list or filter the adapter wrote, nor to the
  `loading` flag: `Init` sets it and `UpdateView` may clear it, but the next
  `UpdateView` decides from the snapshot's own `loading`, so neither write
  reaches that decision, although in the host it is the purpose of the
  write-back.
- The selection widget is not modelled. The selected indices and the selected
  count are inputs. Its reset on page change (`setKey`) is Fluent-internal.
- `useMemo`/`useCallback` memoisation and `forceUpdate` are not modelled. Grid.GridComponent.Receive re-projects the rows and clears the loading flag on every re-render. The source does both only when the `records` or `sortedRecordIds` object changes identity.
- Strings.StringFormat: the `$` replacement patterns of JavaScript's `String.prototype.replace` (`$$`, `$&`, …) are not modelled. Every argument the grid passes is a decimal number or "5000+".
- Strings.IntToString: JavaScript numbers are modelled as unbounded integers, so the decimal text of non-integral or very large numbers (exponent notation) is not modelled. The same holds for `order`, `visualSizeFactor`, `totalResultCount` and `currentPage`.
- Resources.OverriddenGetString: keys inherited from `Object.prototype` (such as "toString") are not modelled. The source would return a prototype member for them.
- Rows.ProjectRows: likewise, ids such as "__proto__" that hit prototype members of the record map are treated as absent.
- Grid.GridComponent.Receive and Grid.GridComponent.Mount require records and an id list to be present, as the component's prop types declare. The source's `sortedRecordIds.map` would throw on an undefined id list.
- The grid's `sorting &&` guard is not modelled: the sort list in the props is a sequence that is always present.
