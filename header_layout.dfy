/** The row-indexed header layout (`flattenHeaderData`) and what
    `buildSheetHeader` does with it apart from styling: where each header name
    is written and which header cells are merged. */
module HeaderLayout {
  import opened Values
  import opened Header

  /** A PHP array keyed by header row, in insertion order: each entry is a row
      index and the cells placed in that row. */
  type RowTable = seq<(int, seq<Column>)>

  /** `$table[$row] ?? []`. */
  function Lookup(t: RowTable, row: int): seq<Column>
  {
    if |t| == 0 then [] else if t[0].0 == row then t[0].1 else Lookup(t[1..], row)
  }

  /** `$table[$row] = $cells`: an existing key keeps its position, a new key
      goes to the end. */
  function Put(t: RowTable, row: int, cells: seq<Column>): RowTable
  {
    if |t| == 0 then [(row, cells)]
    else if t[0].0 == row then [(row, cells)] + t[1..]
    else [t[0]] + Put(t[1..], row, cells)
  }

  /** The rows' cell lists in insertion order, joined: what the spread
      operator hands to `array_merge`. */
  function AllCells(t: RowTable): seq<Column>
  {
    if |t| == 0 then [] else t[0].1 + AllCells(t[1..])
  }

  /** flattenHeaderData: each node is appended to the list of the current
      row; a branch's own table, computed one row further down, is spread
      into the next row. The fold is written on the last sibling, in the
      order the loop visits them. */
  function FlattenHeaderData(header: seq<HeaderNode>, currentRow: int): RowTable
    decreases header
  {
    if |header| == 0 then []
    else
      var data := FlattenHeaderData(header[..|header| - 1], currentRow);
      var value := header[|header| - 1];
      var placed := Put(data, currentRow, Lookup(data, currentRow) + [GetHeaderFields(value)]);
      if IsBranch(value) then
        var nextRow := currentRow + 1;
        Put(placed, nextRow, Lookup(placed, nextRow) + AllCells(FlattenHeaderData(value.children, nextRow)))
      else
        placed
  }

  /** The foreach of flattenHeaderData. `$data[$row] = $data[$row] ?? []`
      followed by an append is one `Put` of the extended list. */
  method FlattenHeaderDataLoop(header: seq<HeaderNode>, currentRow: int) returns (data: RowTable)
    ensures data == FlattenHeaderData(header, currentRow)
    decreases header
  {
    data := [];
    var i := 0;
    while i < |header|
      invariant 0 <= i <= |header|
      invariant data == FlattenHeaderData(header[..i], currentRow)
    {
      var value := header[i];
      assert header[..i + 1][..i] == header[..i] && header[..i + 1][i] == value;
      data := Put(data, currentRow, Lookup(data, currentRow) + [GetHeaderFields(value)]);
      if |value.children| > 0 {
        var nextRow := currentRow + 1;
        var sub := FlattenHeaderDataLoop(value.children, nextRow);
        data := Put(data, nextRow, Lookup(data, nextRow) + AllCells(sub));
      }
      i := i + 1;
    }
    assert header[..|header|] == header;
  }

  predicate HasBranch(hs: seq<HeaderNode>)
  {
    exists k :: 0 <= k < |hs| && IsBranch(hs[k])
  }

  /** Everything below the top level, as the next row of the layout receives
      it: for each branch in turn, its children and then, by the same rule,
      everything below them. */
  function Below(hs: seq<HeaderNode>): seq<Column>
    decreases hs
  {
    if |hs| == 0 then []
    else
      var v := hs[|hs| - 1];
      Below(hs[..|hs| - 1]) + (if IsBranch(v) then Project(v.children) + Below(v.children) else [])
  }

  lemma {:induction false} BelowWithoutBranch(hs: seq<HeaderNode>)
    requires !HasBranch(hs)
    ensures Below(hs) == []
    decreases |hs|
  {
    if |hs| > 0 {
      var p := hs[..|hs| - 1];
      assert !HasBranch(p) by {
        forall k | 0 <= k < |p| ensures !IsBranch(p[k]) {
          assert p[k] == hs[k];
        }
      }
      BelowWithoutBranch(p);
    }
  }

  /** The closed form of the layout: the siblings in the current row and,
      when some sibling is a branch, everything below them in the next. */
  function LayoutOf(hs: seq<HeaderNode>, currentRow: int): RowTable
  {
    if |hs| == 0 then []
    else [(currentRow, Project(hs))] + (if HasBranch(hs) then [(currentRow + 1, Below(hs))] else [])
  }

  lemma HasBranchAppend(p: seq<HeaderNode>, v: HeaderNode)
    ensures HasBranch(p + [v]) <==> HasBranch(p) || IsBranch(v)
  {
    var hs := p + [v];
    if HasBranch(hs) {
      var k :| 0 <= k < |hs| && IsBranch(hs[k]);
      if k < |p| {
        assert p[k] == hs[k];
      }
    }
    if HasBranch(p) {
      var k :| 0 <= k < |p| && IsBranch(p[k]);
      assert hs[k] == p[k];
    }
    if IsBranch(v) {
      assert hs[|p|] == v;
    }
  }

  /** Appending the current row's new cell to the layout of the earlier
      siblings. */
  lemma PlaceStep(p: seq<HeaderNode>, v: HeaderNode, currentRow: int)
    ensures
      var data := LayoutOf(p, currentRow);
      var tail: RowTable := if HasBranch(p) then [(currentRow + 1, Below(p))] else [];
      Put(data, currentRow, Lookup(data, currentRow) + [GetHeaderFields(v)])
        == [(currentRow, Project(p + [v]))] + tail
  {
    assert Project(p + [v]) == Project(p) + [GetHeaderFields(v)];
    if !HasBranch(p) && |p| > 0 {
      assert Below(p) == [] by {
        BelowWithoutBranch(p);
      }
    }
    if |p| == 0 {
      assert !HasBranch(p);
    }
  }

  /** Spreading a branch's own layout into the next row. */
  lemma SpreadStep(p: seq<HeaderNode>, v: HeaderNode, currentRow: int)
    requires IsBranch(v)
    requires FlattenHeaderData(v.children, currentRow + 1) == LayoutOf(v.children, currentRow + 1)
    ensures
      var tail: RowTable := if HasBranch(p) then [(currentRow + 1, Below(p))] else [];
      var placed := [(currentRow, Project(p + [v]))] + tail;
      var nextRow := currentRow + 1;
      Put(placed, nextRow, Lookup(placed, nextRow) + AllCells(FlattenHeaderData(v.children, nextRow)))
        == [(currentRow, Project(p + [v])), (nextRow, Below(p + [v]))]
  {
    var c := v.children;
    var nextRow := currentRow + 1;
    var hs := p + [v];
    assert hs[..|hs| - 1] == p;
    assert Below(hs) == Below(p) + (Project(c) + Below(c));
    var subTail: RowTable := if HasBranch(c) then [(nextRow + 1, Below(c))] else [];
    assert AllCells(subTail) == Below(c) by {
      if !HasBranch(c) {
        BelowWithoutBranch(c);
      }
    }
    assert AllCells(FlattenHeaderData(c, nextRow)) == Project(c) + Below(c);
    if !HasBranch(p) {
      assert Below(p) == [] by {
        BelowWithoutBranch(p);
      }
    }
  }

  /** The layout has at most two rows: the current one holds the siblings
      themselves, in order; the next one, present exactly when some sibling
      is a branch, holds every node below them, whatever its depth. */
  lemma {:induction false} FlattenHeaderDataShape(hs: seq<HeaderNode>, currentRow: int)
    ensures FlattenHeaderData(hs, currentRow) == LayoutOf(hs, currentRow)
    decreases hs
  {
    if |hs| > 0 {
      var p := hs[..|hs| - 1];
      var v := hs[|hs| - 1];
      assert hs == p + [v];
      FlattenHeaderDataShape(p, currentRow);
      HasBranchAppend(p, v);
      PlaceStep(p, v, currentRow);
      if IsBranch(v) {
        FlattenHeaderDataShape(v.children, currentRow + 1);
        SpreadStep(p, v, currentRow);
      } else {
        assert Below(hs) == Below(p);
      }
    }
  }

  lemma {:induction false} PreOrderAppend(a: seq<HeaderNode>, b: seq<HeaderNode>)
    ensures PreOrder(a + b) == PreOrder(a) + PreOrder(b)
    decreases a
  {
    if |a| == 0 {
      assert a + b == b;
    } else {
      assert (a + b)[0] == a[0];
      assert (a + b)[1..] == a[1..] + b;
      PreOrderAppend(a[1..], b);
    }
  }

  lemma {:induction false} LayoutHoldsEveryNodeOnce(hs: seq<HeaderNode>)
    ensures multiset(Project(hs)) + multiset(Below(hs)) == multiset(Project(PreOrder(hs)))
    decreases hs
  {
    if |hs| > 0 {
      var p := hs[..|hs| - 1];
      var v := hs[|hs| - 1];
      assert hs == p + [v];
      LayoutHoldsEveryNodeOnce(p);
      LayoutHoldsEveryNodeOnce(v.children);
      PreOrderAppend(p, [v]);
      assert [v][1..] == [];
      assert PreOrder([v]) == [v] + PreOrder(v.children);
      ProjectAppend(p, [v]);
      ProjectAppend(PreOrder(p), PreOrder([v]));
      ProjectAppend([v], PreOrder(v.children));
      if !IsBranch(v) {
        assert PreOrder(v.children) == [];
      }
    }
  }

  /** The closed-form layout holds the siblings and everything below them. */
  lemma AllCellsOfLayout(hs: seq<HeaderNode>, currentRow: int)
    ensures AllCells(LayoutOf(hs, currentRow)) == Project(hs) + Below(hs)
  {
    if |hs| == 0 {
      assert Project(hs) + Below(hs) == [];
    } else if HasBranch(hs) {
      var t := [(currentRow, Project(hs)), (currentRow + 1, Below(hs))];
      assert LayoutOf(hs, currentRow) == t;
      assert AllCells(t) == Project(hs) + AllCells(t[1..]);
      assert AllCells(t[1..]) == Below(hs) + AllCells([]);
    } else {
      var t := [(currentRow, Project(hs))];
      assert LayoutOf(hs, currentRow) == t;
      assert AllCells(t) == Project(hs) + AllCells([]);
      BelowWithoutBranch(hs);
    }
  }

  /** The rows of the closed-form layout are consecutive from the current
      one. */
  lemma LayoutRows(hs: seq<HeaderNode>, currentRow: int)
    ensures |LayoutOf(hs, currentRow)| <= 2
    ensures forall k :: 0 <= k < |LayoutOf(hs, currentRow)| ==> LayoutOf(hs, currentRow)[k].0 == currentRow + k
  {
  }

  /** Every header node, branch or leaf, is placed exactly once in the layout,
      and no row other than the first two is ever used. */
  lemma FlattenHeaderDataPlacesEveryNode(hs: seq<HeaderNode>, currentRow: int)
    ensures forall k :: 0 <= k < |FlattenHeaderData(hs, currentRow)| ==>
      FlattenHeaderData(hs, currentRow)[k].0 == currentRow + k
    ensures |FlattenHeaderData(hs, currentRow)| <= 2
    ensures multiset(AllCells(FlattenHeaderData(hs, currentRow))) == multiset(Project(PreOrder(hs)))
  {
    FlattenHeaderDataShape(hs, currentRow);
    AllCellsOfLayout(hs, currentRow);
    LayoutRows(hs, currentRow);
    LayoutHoldsEveryNodeOnce(hs);
  }


  // ---------------------------------------------------------------------
  // buildSheetHeader: cell placement and merge rectangles
  // ---------------------------------------------------------------------

  /** The width a list of cells covers. */
  function Width(cells: seq<Column>): int
  {
    if |cells| == 0 then 0 else cells[0].colSpan + Width(cells[1..])
  }

  /** Where the names of one row are written: 1-based, the column cursor
      advancing by each cell's colSpan. */
  function RowCells(cells: seq<Column>, row: int, col: int): seq<Cell>
  {
    if |cells| == 0 then []
    else [Cell(col, row + 1, Str(cells[0].name))] + RowCells(cells[1..], row, col + cells[0].colSpan)
  }

  /** The rectangles one row asks for: a cell wider or taller than one grid
      cell is merged over its colSpan columns and rowSpan rows. */
  function RowMerges(cells: seq<Column>, row: int, col: int): seq<Rect>
  {
    if |cells| == 0 then []
    else
      var c := cells[0];
      var nextCol := col + c.colSpan;
      (if c.colSpan > 1 || c.rowSpan > 1 then [Rect(col, row + 1, nextCol - 1, row + c.rowSpan)] else [])
      + RowMerges(cells[1..], row, nextCol)
  }

  function HeaderCells(t: RowTable): seq<Cell>
  {
    if |t| == 0 then [] else RowCells(t[0].1, t[0].0, 1) + HeaderCells(t[1..])
  }

  function HeaderMerges(t: RowTable): seq<Rect>
  {
    if |t| == 0 then [] else RowMerges(t[0].1, t[0].0, 1) + HeaderMerges(t[1..])
  }

  /** One cell of a row, unfolded at position `j`. */
  lemma RowStep(value: seq<Column>, j: int, row: int, col: int)
    requires 0 <= j < |value|
    ensures RowCells(value[j..], row, col)
      == [Cell(col, row + 1, Str(value[j].name))] + RowCells(value[j + 1..], row, col + value[j].colSpan)
    ensures RowMerges(value[j..], row, col)
      == (if value[j].colSpan > 1 || value[j].rowSpan > 1
          then [Rect(col, row + 1, col + value[j].colSpan - 1, row + value[j].rowSpan)] else [])
         + RowMerges(value[j + 1..], row, col + value[j].colSpan)
  {
    assert value[j..][0] == value[j] && value[j..][1..] == value[j + 1..];
  }

  /** The inner loop of buildSheetHeader: one row of names, the column
      cursor restarting at 1. */
  method BuildHeaderRow(value: seq<Column>, row: int) returns (cells: seq<Cell>, merges: seq<Rect>)
    ensures cells == RowCells(value, row, 1)
    ensures merges == RowMerges(value, row, 1)
  {
    cells, merges := [], [];
    var col := 1;
    var j := 0;
    assert value[0..] == value;
    while j < |value|
      invariant 0 <= j <= |value|
      invariant cells + RowCells(value[j..], row, col) == RowCells(value, row, 1)
      invariant merges + RowMerges(value[j..], row, col) == RowMerges(value, row, 1)
    {
      var val := value[j];
      RowStep(value, j, row, col);
      var cell := Cell(col, row + 1, Str(val.name));
      var nextCol := col + val.colSpan;
      assert cells + [cell] + RowCells(value[j + 1..], row, nextCol) == RowCells(value, row, 1);
      cells := cells + [cell];
      if val.colSpan > 1 || val.rowSpan > 1 {
        var rect := Rect(col, row + 1, nextCol - 1, row + val.rowSpan);
        assert merges + [rect] + RowMerges(value[j + 1..], row, nextCol) == RowMerges(value, row, 1);
        merges := merges + [rect];
      }
      col := nextCol;
      j := j + 1;
    }
  }

  /** buildSheetHeader without the renderer: every row restarts at column 1
      and writes to its row index + 1, whatever start_row and start_column
      say. */
  method BuildSheetHeader(header: RowTable) returns (cells: seq<Cell>, merges: seq<Rect>)
    ensures cells == HeaderCells(header)
    ensures merges == HeaderMerges(header)
  {
    cells, merges := [], [];
    var i := 0;
    while i < |header|
      invariant 0 <= i <= |header|
      invariant cells + HeaderCells(header[i..]) == HeaderCells(header)
      invariant merges + HeaderMerges(header[i..]) == HeaderMerges(header)
    {
      var (row, value) := header[i];
      assert header[i..][0] == header[i] && header[i..][1..] == header[i + 1..];
      var rowCells, rowMerges := BuildHeaderRow(value, row);
      cells := cells + rowCells;
      merges := merges + rowMerges;
      i := i + 1;
    }
  }

  /** Within one row, the k-th name lands right after the columns its left
      siblings span, on the row below the row index. */
  lemma {:induction false} RowCellsPlacement(cells: seq<Column>, row: int, col: int)
    ensures |RowCells(cells, row, col)| == |cells|
    ensures forall k :: 0 <= k < |cells| ==>
      RowCells(cells, row, col)[k] == Cell(col + Width(cells[..k]), row + 1, Str(cells[k].name))
    decreases |cells|
  {
    if |cells| > 0 {
      var rest := cells[1..];
      RowCellsPlacement(rest, row, col + cells[0].colSpan);
      forall k | 0 <= k < |cells|
        ensures RowCells(cells, row, col)[k] == Cell(col + Width(cells[..k]), row + 1, Str(cells[k].name))
      {
        if k > 0 {
          assert cells[..k][1..] == rest[..k - 1];
          assert rest[k - 1] == cells[k];
        }
      }
    }
  }

  /** Every merged cell of a row starts on that row, lies inside the row's
      width and is larger than one grid cell. */
  lemma {:induction false} RowMergesBounds(cells: seq<Column>, row: int, col: int)
    requires forall k :: 0 <= k < |cells| ==> cells[k].colSpan >= 1 && cells[k].rowSpan >= 1
    ensures forall i :: 0 <= i < |RowMerges(cells, row, col)| ==>
      var m := RowMerges(cells, row, col)[i];
      && col <= m.col <= m.col2 < col + Width(cells)
      && m.row == row + 1 <= m.row2
      && (m.col < m.col2 || m.row < m.row2)
    decreases |cells|
  {
    if |cells| > 0 {
      var rest := cells[1..];
      RowMergesBounds(rest, row, col + cells[0].colSpan);
      WidthPositive(rest);
    }
  }

  /** Rectangles that run left to right without overlapping. */
  predicate LeftToRight(ms: seq<Rect>)
  {
    forall i, j :: 0 <= i < j < |ms| ==> ms[i].col2 < ms[j].col
  }

  lemma LeftToRightPrepend(r: Rect, tail: seq<Rect>)
    requires LeftToRight(tail)
    requires forall i :: 0 <= i < |tail| ==> r.col2 < tail[i].col
    ensures LeftToRight([r] + tail)
  {
    var ms := [r] + tail;
    assert forall j :: 1 <= j < |ms| ==> ms[j] == tail[j - 1];
  }

  /** The merged cells of a row run left to right without overlapping. */
  lemma {:induction false} RowMergesOrdered(cells: seq<Column>, row: int, col: int)
    requires forall k :: 0 <= k < |cells| ==> cells[k].colSpan >= 1 && cells[k].rowSpan >= 1
    ensures LeftToRight(RowMerges(cells, row, col))
    decreases |cells|
  {
    if |cells| > 0 {
      var rest := cells[1..];
      var nextCol := col + cells[0].colSpan;
      RowMergesOrdered(rest, row, nextCol);
      RowMergesBounds(rest, row, nextCol);
      var tail := RowMerges(rest, row, nextCol);
      if cells[0].colSpan > 1 || cells[0].rowSpan > 1 {
        LeftToRightPrepend(Rect(col, row + 1, nextCol - 1, row + cells[0].rowSpan), tail);
      }
    }
  }

  /** A cell that covers more than one grid cell, the test buildSheetHeader
      makes before it merges. */
  predicate Merged(c: Column)
  {
    c.colSpan > 1 || c.rowSpan > 1
  }

  /** The rectangle the k-th cell of a row covers: from the column after its
      left siblings' width, over its colSpan columns and rowSpan rows. */
  function CellRect(cells: seq<Column>, k: int, row: int, col: int): Rect
    requires 0 <= k < |cells|
  {
    Rect(col + Width(cells[..k]), row + 1, col + Width(cells[..k + 1]) - 1, row + cells[k].rowSpan)
  }

  /** The rectangles of the merged cells from the k-th on, in order. */
  function MergedCells(cells: seq<Column>, row: int, col: int, k: int): seq<Rect>
    requires 0 <= k <= |cells|
    decreases |cells| - k
  {
    if k == |cells| then []
    else (if Merged(cells[k]) then [CellRect(cells, k, row, col)] else []) + MergedCells(cells, row, col, k + 1)
  }

  lemma {:induction false} WidthSnoc(a: seq<Column>, c: Column)
    ensures Width(a + [c]) == Width(a) + c.colSpan
    decreases |a|
  {
    if |a| > 0 {
      assert (a + [c])[1..] == a[1..] + [c];
      WidthSnoc(a[1..], c);
    }
  }

  /** The first cell of a row, one step unfolded. */
  lemma RowMergesUnfold(cells: seq<Column>, row: int, col: int)
    requires |cells| > 0
    ensures RowMerges(cells, row, col)
      == (if Merged(cells[0]) then [Rect(col, row + 1, col + cells[0].colSpan - 1, row + cells[0].rowSpan)] else [])
         + RowMerges(cells[1..], row, col + cells[0].colSpan)
  {
  }

  /** The k-th cell of a row, one step unfolded at the column its left
      siblings' width leaves. */
  lemma RowMergesAt(cells: seq<Column>, row: int, col: int, k: int)
    requires 0 <= k < |cells|
    ensures RowMerges(cells[k..], row, col + Width(cells[..k]))
      == (if Merged(cells[k]) then [CellRect(cells, k, row, col)] else [])
         + RowMerges(cells[k + 1..], row, col + Width(cells[..k + 1]))
  {
    var here := col + Width(cells[..k]);
    assert col + Width(cells[..k + 1]) == here + cells[k].colSpan by {
      assert cells[..k + 1] == cells[..k] + [cells[k]];
      WidthSnoc(cells[..k], cells[k]);
    }
    assert cells[k..][0] == cells[k] && cells[k..][1..] == cells[k + 1..];
    RowMergesUnfold(cells[k..], row, here);
  }

  lemma {:induction false} RowMergesFrom(cells: seq<Column>, row: int, col: int, k: int)
    requires 0 <= k <= |cells|
    ensures RowMerges(cells[k..], row, col + Width(cells[..k])) == MergedCells(cells, row, col, k)
    decreases |cells| - k
  {
    if k < |cells| {
      RowMergesAt(cells, row, col, k);
      RowMergesFrom(cells, row, col, k + 1);
    }
  }

  /** The merges of a row are exactly the rectangles of its merged cells,
      one per merged cell, left to right; a cell of one grid cell gets
      none. */
  lemma RowMergesAreMergedCells(cells: seq<Column>, row: int, col: int)
    ensures RowMerges(cells, row, col) == MergedCells(cells, row, col, 0)
  {
    RowMergesFrom(cells, row, col, 0);
    assert cells[0..] == cells;
    assert cells[..0] == [];
  }

  lemma {:induction false} MergedCellsHas(cells: seq<Column>, row: int, col: int, k: int, j: int)
    requires 0 <= k <= j < |cells| && Merged(cells[j])
    ensures CellRect(cells, j, row, col) in MergedCells(cells, row, col, k)
    decreases j - k
  {
    if k < j {
      MergedCellsHas(cells, row, col, k + 1, j);
    }
  }

  /** A cell gets a merge, and then the rectangle it covers, exactly when it
      spans more than one column or more than one row. */
  lemma CellMergedIff(cells: seq<Column>, row: int, col: int, k: int)
    requires forall i :: 0 <= i < |cells| ==> cells[i].colSpan >= 1 && cells[i].rowSpan >= 1
    requires 0 <= k < |cells|
    ensures Merged(cells[k]) <==> CellRect(cells, k, row, col) in RowMerges(cells, row, col)
  {
    RowMergesAreMergedCells(cells, row, col);
    if Merged(cells[k]) {
      MergedCellsHas(cells, row, col, 0, k);
    } else {
      RowMergesBounds(cells, row, col);
      assert cells[..k + 1] == cells[..k] + [cells[k]];
      WidthSnoc(cells[..k], cells[k]);
    }
  }

  lemma {:induction false} WidthPositive(cells: seq<Column>)
    requires forall k :: 0 <= k < |cells| ==> cells[k].colSpan >= 1
    ensures Width(cells) >= |cells|
    decreases |cells|
  {
    if |cells| > 0 {
      WidthPositive(cells[1..]);
    }
  }

  lemma {:induction false} WidthOfProject(hs: seq<HeaderNode>)
    ensures Width(Project(hs)) == SumColSpan(hs)
    decreases |hs|
  {
    if |hs| > 0 {
      assert Project(hs)[1..] == Project(hs[1..]);
      assert ColSpans(hs)[1..] == ColSpans(hs[1..]);
      WidthOfProject(hs[1..]);
    }
  }

  /** On the first header row of a resolved header, the merged cells stay
      within the leaf columns the data will use and never reach below the
      deepest header level. */
  lemma TopRowMergesFitLeafColumns(hs: seq<HeaderNode>)
    requires Resolved(hs)
    ensures forall i :: 0 <= i < |RowMerges(Project(hs), 0, 1)| ==>
      var m := RowMerges(Project(hs), 0, 1)[i];
      1 <= m.col <= m.col2 <= |FlattenHeader(hs, 0, 0)| && 1 == m.row <= m.row2 <= MaxDepth(hs)
  {
    if |hs| > 0 {
      ResolvedSpansPositive(hs);
      var top := Project(hs);
      RowMergesBounds(top, 0, 1);
      WidthOfProject(hs);
      FlattenHeaderOfResolved(hs, 0, 0);
      assert Depths(hs)[0] == hs[0].depth;
      forall k | 0 <= k < |hs| ensures top[k].rowSpan <= MaxDepth(hs) {
        assert NodeResolved(hs[k], MaxDepth(hs));
      }
      RowMergesTallest(top, 0, 1, MaxDepth(hs));
    }
  }

  lemma {:induction false} RowMergesTallest(cells: seq<Column>, row: int, col: int, tallest: int)
    requires forall k :: 0 <= k < |cells| ==> cells[k].rowSpan <= tallest
    ensures forall i :: 0 <= i < |RowMerges(cells, row, col)| ==> RowMerges(cells, row, col)[i].row2 <= row + tallest
    decreases |cells|
  {
    if |cells| > 0 {
      RowMergesTallest(cells[1..], row, col + cells[0].colSpan, tallest);
    }
  }
}
