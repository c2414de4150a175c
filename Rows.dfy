/**
 * Row projection (`items`) and the selection mapping from selected row
 * indices back to record ids.
 */
module Rows {
  import opened Wrappers
  import opened HostTypes

  /**
   * `sortedRecordIds.map(id => records[id])`: one row per id, in the same
   * order; an id absent from the map gives the `undefined` placeholder.
   */
  function ProjectRows(records: map<string, EntityRecord>, ids: seq<string>): (r: seq<Option<EntityRecord>>)
    ensures |r| == |ids|
    ensures forall i :: 0 <= i < |ids| && ids[i] in records ==> r[i] == Some(records[ids[i]])
    ensures forall i :: 0 <= i < |ids| && ids[i] !in records ==> r[i] == None
  {
    if ids == [] then []
    else [if ids[0] in records then Some(records[ids[0]]) else None] + ProjectRows(records, ids[1..])
  }

  /** `items[index] && items[index].getRecordId()`: out-of-range and missing rows give `undefined`. */
  function SelectedId(items: seq<Option<EntityRecord>>, index: int): (id: Option<string>)
    ensures id.Some? <==> 0 <= index < |items| && items[index].Some?
    ensures id.Some? ==> id.value == items[index].value.recordId
  {
    if 0 <= index < |items| && items[index].Some? then Some(items[index].value.recordId) else None
  }

  /** `selection.getSelectedIndices().map(...)`: one entry per selected index, in order. */
  function SelectedIds(items: seq<Option<EntityRecord>>, indices: seq<int>): (r: seq<Option<string>>)
    ensures |r| == |indices|
    ensures forall k :: 0 <= k < |indices| ==> r[k] == SelectedId(items, indices[k])
  {
    if indices == [] then []
    else [SelectedId(items, indices[0])] + SelectedIds(items, indices[1..])
  }

  /**
   * Through the row projection, each selected index names the id of the
   * record stored for the id at that row.
   */
  lemma SelectionThroughRows(records: map<string, EntityRecord>, ids: seq<string>, indices: seq<int>)
    ensures var sel := SelectedIds(ProjectRows(records, ids), indices);
      forall k :: 0 <= k < |indices| ==>
        sel[k] == (if 0 <= indices[k] < |ids| && ids[indices[k]] in records
                   then Some(records[ids[indices[k]]].recordId) else None)
  {
  }
}
