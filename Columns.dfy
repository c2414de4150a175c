/**
 * The grid's column projection: keep the shown columns, order them by their
 * `order` (the stable sort of the JavaScript runtime), and derive for each the
 * sorted/filtered flags, the minimum width and whether it offers the
 * sort/filter menu (the first column never does).
 */
module Columns {
  import opened Wrappers
  import opened HostTypes

  /** A projected grid column. */
  datatype GridColumn = GridColumn(
    key: string,
    name: string,
    fieldName: string,
    isSorted: bool,
    isSortedDescending: bool,
    isResizable: bool,
    isFiltered: bool,
    data: Column,             // the source column, `disableSorting` overridden
    minWidth: int,
    hasContextMenu: bool,     // `onColumnContextMenu` is set
    hasColumnClick: bool)     // `onColumnClick` is set

  /** The column filter: not hidden and a non-negative order. */
  predicate IsShown(c: Column) {
    !c.isHidden && c.order >= 0
  }

  /** The shown columns, in their original relative order (`columns.filter`). */
  function Visible(cols: seq<Column>): (r: seq<Column>)
    ensures |r| <= |cols|
    ensures forall c :: c in r <==> c in cols && IsShown(c)
    ensures forall i :: 0 <= i < |r| ==> IsShown(r[i])
    ensures forall c :: multiset(r)[c] == if IsShown(c) then multiset(cols)[c] else 0
  {
    if cols == [] then []
    else
      assert cols == [cols[0]] + cols[1..];
      if IsShown(cols[0]) then [cols[0]] + Visible(cols[1..])
      else Visible(cols[1..])
  }

  /** The positions from `i` on at which `cols` holds a shown column, ascending. */
  function ShownFrom(cols: seq<Column>, i: nat): (f: seq<nat>)
    requires i <= |cols|
    ensures forall k :: 0 <= k < |f| ==> i <= f[k] < |cols| && IsShown(cols[f[k]])
    ensures forall j :: i <= j < |cols| && IsShown(cols[j]) ==> j in f
    ensures forall k, m :: 0 <= k < m < |f| ==> f[k] < f[m]
    decreases |cols| - i
  {
    if i == |cols| then []
    else if IsShown(cols[i]) then [i] + ShownFrom(cols, i + 1)
    else ShownFrom(cols, i + 1)
  }

  /**
   * `Visible` is the filter: its k-th column is the column at the k-th shown
   * position, so it keeps exactly the shown columns, in order, each once per
   * occurrence.
   */
  lemma {:induction false} VisibleIsFilter(cols: seq<Column>, i: nat)
    requires i <= |cols|
    ensures |Visible(cols[i..])| == |ShownFrom(cols, i)|
    ensures forall k :: 0 <= k < |ShownFrom(cols, i)| ==> Visible(cols[i..])[k] == cols[ShownFrom(cols, i)[k]]
    decreases |cols| - i
  {
    if i < |cols| {
      VisibleIsFilter(cols, i + 1);
      var v, f := Visible(cols[i + 1..]), ShownFrom(cols, i + 1);
      var vi, fi := Visible(cols[i..]), ShownFrom(cols, i);
      VisibleStep(cols, i);
      if IsShown(cols[i]) {
        assert vi == [cols[i]] + v && fi == [i] + f;
        forall k | 0 <= k < |fi| ensures vi[k] == cols[fi[k]] {
          if k > 0 {
            assert vi[k] == v[k - 1] && fi[k] == f[k - 1];
          }
        }
      } else {
        assert vi == v && fi == f;
      }
    }
  }

  /** One step of the filter, at position `i`. */
  lemma VisibleStep(cols: seq<Column>, i: nat)
    requires i < |cols|
    ensures Visible(cols[i..]) == (if IsShown(cols[i]) then [cols[i]] else []) + Visible(cols[i + 1..])
  {
    var t := cols[i..];
    assert t != [] && t[0] == cols[i] && t[1..] == cols[i + 1..];
  }

  /** The filter over the whole column list. */
  lemma VisibleKeepsOrder(cols: seq<Column>)
    ensures |Visible(cols)| == |ShownFrom(cols, 0)|
    ensures forall k :: 0 <= k < |Visible(cols)| ==> Visible(cols)[k] == cols[ShownFrom(cols, 0)[k]]
  {
    VisibleIsFilter(cols, 0);
    assert cols[0..] == cols;
  }

  /** Non-decreasing by `order`. */
  predicate SortedByOrder(s: seq<Column>) {
    forall i, j :: 0 <= i < j < |s| ==> s[i].order <= s[j].order
  }

  /** The columns of `s` whose order is `v`, in their order in `s`. */
  function OrderClass(s: seq<Column>, v: int): (r: seq<Column>) {
    if s == [] then []
    else (if s[0].order == v then [s[0]] else []) + OrderClass(s[1..], v)
  }

  /** Inserts `x` before the first column whose order is at least its own. */
  function InsertByOrder(x: Column, s: seq<Column>): (r: seq<Column>)
    ensures |r| == |s| + 1
    ensures multiset(r) == multiset(s) + multiset{x}
    ensures r[0] == x || (|s| > 0 && r[0] == s[0])
  {
    if s == [] then [x]
    else if x.order <= s[0].order then [x] + s
    else
      assert s == [s[0]] + s[1..];
      [s[0]] + InsertByOrder(x, s[1..])
  }

  /** Insertion keeps a sorted list sorted. */
  lemma {:induction false} InsertSorted(x: Column, s: seq<Column>)
    requires SortedByOrder(s)
    ensures SortedByOrder(InsertByOrder(x, s))
  {
    if s != [] && x.order > s[0].order {
      InsertSorted(x, s[1..]);
      var t := InsertByOrder(x, s[1..]);
      assert InsertByOrder(x, s) == [s[0]] + t;
      assert s[0].order <= t[0].order;
      forall i, j | 0 <= i < j < |t| + 1
        ensures ([s[0]] + t)[i].order <= ([s[0]] + t)[j].order
      {
        if i == 0 {
          assert t[0].order <= t[j - 1].order || j == 1;
        }
      }
    }
  }

  /** The stable sort of `s` by ascending `order` (an insertion sort). */
  function SortByOrder(s: seq<Column>): (r: seq<Column>)
    ensures |r| == |s|
    ensures multiset(r) == multiset(s)
    ensures SortedByOrder(r)
  {
    if s == [] then []
    else
      assert s == [s[0]] + s[1..];
      var t := SortByOrder(s[1..]);
      InsertSorted(s[0], t);
      InsertByOrder(s[0], t)
  }

  /** Inserting `x` adds it at the front of its order class and nowhere else. */
  lemma {:induction false} InsertKeepsClasses(x: Column, s: seq<Column>, v: int)
    ensures OrderClass(InsertByOrder(x, s), v)
         == (if x.order == v then [x] else []) + OrderClass(s, v)
  {
    if s == [] {
    } else if x.order <= s[0].order {
      assert ([x] + s)[1..] == s;
      assert OrderClass([x] + s, v) == (if x.order == v then [x] else []) + OrderClass(s, v);
    } else {
      InsertKeepsClasses(x, s[1..], v);
      var t := InsertByOrder(x, s[1..]);
      assert InsertByOrder(x, s) == [s[0]] + t;
      assert ([s[0]] + t)[1..] == t;
      assert OrderClass([s[0]] + t, v) == (if s[0].order == v then [s[0]] else []) + OrderClass(t, v);
      assert OrderClass(s, v) == (if s[0].order == v then [s[0]] else []) + OrderClass(s[1..], v);
    }
  }

  /**
   * Stability: for every order value, the columns with that order appear in
   * the sorted result in the same relative order as in the input.
   */
  lemma {:induction false} SortKeepsClasses(s: seq<Column>, v: int)
    ensures OrderClass(SortByOrder(s), v) == OrderClass(s, v)
  {
    if s != [] {
      SortKeepsClasses(s[1..], v);
      InsertKeepsClasses(s[0], SortByOrder(s[1..]), v);
    }
  }

  /**
   * The sorted shown columns: ascending order, exactly the shown columns of
   * the input (with multiplicity), and columns of equal order kept in their
   * input order -- which determines the result of a stable sort.
   */
  function SortedVisible(cols: seq<Column>): (r: seq<Column>)
    ensures SortedByOrder(r)
    ensures multiset(r) == multiset(Visible(cols))
    ensures forall c :: c in r <==> c in cols && IsShown(c)
    ensures forall v :: OrderClass(r, v) == OrderClass(Visible(cols), v)
  {
    var r := SortByOrder(Visible(cols));
    assert forall c :: c in r <==> c in multiset(Visible(cols));
    forall v ensures OrderClass(r, v) == OrderClass(Visible(cols), v) {
      SortKeepsClasses(Visible(cols), v);
    }
    r
  }

  /** Index of the first sort entry naming `name` (`sorting.find`). */
  function FirstSortIndex(sorting: seq<SortStatus>, name: string): (r: Option<nat>)
    ensures r.Some? ==> r.value < |sorting| && sorting[r.value].name == name
    ensures r.Some? ==> forall k :: 0 <= k < r.value ==> sorting[k].name != name
    ensures r.None? <==> forall k :: 0 <= k < |sorting| ==> sorting[k].name != name
  {
    if sorting == [] then None
    else if sorting[0].name == name then Some(0)
    else match FirstSortIndex(sorting[1..], name)
      case None => None
      case Some(i) => Some(i + 1)
  }

  /** Some condition of the list names the attribute `name` (`conditions.find`). */
  function NamesAttribute(conditions: seq<Condition>, name: string): (b: bool)
    ensures b <==> exists k :: 0 <= k < |conditions| && conditions[k].attributeName == name
  {
    if conditions == [] then false
    else conditions[0].attributeName == name || NamesAttribute(conditions[1..], name)
  }

  /** `col.visualSizeFactor > 100 ? col.visualSizeFactor : 100` */
  function MinWidth(visualSizeFactor: int): (w: int)
    ensures w >= 100 && w >= visualSizeFactor
    ensures w == 100 || w == visualSizeFactor
  {
    if visualSizeFactor > 100 then visualSizeFactor else 100
  }

  /** One projected column; `isFirst` is `index === 0`. */
  function ToGridColumn(col: Column, isFirst: bool, sorting: seq<SortStatus>,
                        filtering: Option<FilterExpression>): (g: GridColumn)
    ensures g.key == col.name && g.fieldName == col.name && g.name == col.displayName
    ensures g.isSorted <==> exists k :: 0 <= k < |sorting| && sorting[k].name == col.name
    ensures g.isSortedDescending <==>
              exists k :: 0 <= k < |sorting| && sorting[k].name == col.name && sorting[k].sortDirection == Descending
                && forall m :: 0 <= m < k ==> sorting[m].name != col.name
    ensures g.isFiltered <==>
              filtering.Some? && filtering.value.conditions.Some?
              && exists k :: 0 <= k < |filtering.value.conditions.value|
                   && filtering.value.conditions.value[k].attributeName == col.name
    ensures g.minWidth == MinWidth(col.visualSizeFactor)
    ensures g.isResizable
    ensures g.data == col.(disableSorting := isFirst || col.disableSorting)
    ensures g.hasContextMenu == !isFirst && g.hasColumnClick == !isFirst
  {
    var sortOn := FirstSortIndex(sorting, col.name);
    var filtered := filtering.Some? && filtering.value.conditions.Some?
                    && NamesAttribute(filtering.value.conditions.value, col.name);
    GridColumn(
      col.name, col.displayName, col.name,
      sortOn.Some?,
      sortOn.Some? && sorting[sortOn.value].sortDirection == Descending,
      true,
      filtered,
      col.(disableSorting := isFirst || col.disableSorting),
      MinWidth(col.visualSizeFactor),
      !isFirst, !isFirst)
  }

  /**
   * `gridColumns`: the sorted shown columns, each projected with its
   * position deciding whether it is the first column.
   */
  function ProjectColumns(cols: seq<Column>, sorting: seq<SortStatus>,
                          filtering: Option<FilterExpression>): (r: seq<GridColumn>)
    ensures |r| == |Visible(cols)|
    ensures forall i :: 0 <= i < |r| ==> r[i] == ToGridColumn(SortedVisible(cols)[i], i == 0, sorting, filtering)
  {
    var sv := SortedVisible(cols);
    assert |sv| == |multiset(sv)| == |multiset(Visible(cols))| == |Visible(cols)|;
    seq(|sv|, i requires 0 <= i < |sv| => ToGridColumn(sv[i], i == 0, sorting, filtering))
  }

  /**
   * The projected columns are shown columns, in ascending order, resizable,
   * and as wide as their size factor but at least 100.
   */
  lemma ProjectedColumnsOrdered(cols: seq<Column>, sorting: seq<SortStatus>, filtering: Option<FilterExpression>)
    ensures var r := ProjectColumns(cols, sorting, filtering);
      && (forall i, j :: 0 <= i < j < |r| ==> r[i].data.order <= r[j].data.order)
      && (forall i :: 0 <= i < |r| ==> IsShown(r[i].data) && r[i].isResizable
                                       && r[i].minWidth == MinWidth(r[i].data.visualSizeFactor))
  {
    var r := ProjectColumns(cols, sorting, filtering);
    var sv := SortedVisible(cols);
    forall i | 0 <= i < |r|
      ensures r[i].data.order == sv[i].order && IsShown(r[i].data) && r[i].isResizable
              && r[i].minWidth == MinWidth(r[i].data.visualSizeFactor)
    {
      var g := ToGridColumn(sv[i], i == 0, sorting, filtering);
      assert r[i] == g;
      assert sv[i] in sv;
    }
  }

  /** Every shown input column is projected. */
  lemma ProjectedColumnsComplete(cols: seq<Column>, sorting: seq<SortStatus>, filtering: Option<FilterExpression>)
    ensures var r := ProjectColumns(cols, sorting, filtering);
      forall c :: c in cols && IsShown(c) ==> exists i :: 0 <= i < |r| && r[i].key == c.name
  {
    var r := ProjectColumns(cols, sorting, filtering);
    var sv := SortedVisible(cols);
    forall c | c in cols && IsShown(c) ensures exists i :: 0 <= i < |r| && r[i].key == c.name {
      var i :| 0 <= i < |sv| && sv[i] == c;
      var g := ToGridColumn(sv[i], i == 0, sorting, filtering);
      assert r[i] == g;
    }
  }

  /**
   * The first projected column is locked against sorting and offers no menu;
   * every other column keeps its own `disableSorting` and has both handlers.
   */
  lemma FirstColumnLocked(cols: seq<Column>, sorting: seq<SortStatus>, filtering: Option<FilterExpression>)
    ensures var r := ProjectColumns(cols, sorting, filtering);
      && (|r| > 0 ==> r[0].data.disableSorting && !r[0].hasContextMenu && !r[0].hasColumnClick)
      && (forall i :: 0 < i < |r| ==> r[i].hasContextMenu && r[i].hasColumnClick
                                      && r[i].data.disableSorting == SortedVisible(cols)[i].disableSorting)
  {
    var r := ProjectColumns(cols, sorting, filtering);
    var sv := SortedVisible(cols);
    if |r| > 0 {
      var g := ToGridColumn(sv[0], true, sorting, filtering);
      assert r[0] == g;
    }
    forall i | 0 < i < |r|
      ensures r[i].hasContextMenu && r[i].hasColumnClick && r[i].data.disableSorting == sv[i].disableSorting
    {
      var g := ToGridColumn(sv[i], false, sorting, filtering);
      assert r[i] == g;
    }
  }
}
