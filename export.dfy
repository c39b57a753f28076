/** The exporter object: the per-sheet state `build` fills in, the
    stateful `flattenData` walk that appends to the sheet's merge list, and
    what `buildSheet` hands to the spreadsheet (names, values and merged
    regions; styling is not modelled). */
module Exporter {
  import opened Values
  import opened Header
  import opened HeaderLayout
  import DataTree
  import FileName

  /** The configuration keys the core reads, after the sheet's own
      configuration has been merged over the defaults. */
  datatype Config = Config(sheetName: string, childrenTextKey: string, cellMerge: bool,
                           startRow: int, startColumn: int)

  /** The keys a sheet's `config` array may set; `None` for an absent key. */
  datatype Overrides = Overrides(sheetName: Option<string>, childrenTextKey: Option<string>,
                                 cellMerge: Option<bool>, startRow: Option<int>, startColumn: Option<int>)

  /** `sheet_name`, `data_children_text_key`, `data_children_cell_merge`,
      `start_row` and `start_column` of the default configuration. */
  const DefaultConfig: Config := Config("Sheet", "name", true, 1, 1)

  function Pick<T>(o: Option<T>, default: T): T
  {
    if o.Some? then o.value else default
  }

  /** `array_merge($defaultConfig, $val['config'] ?? [])`: a key the sheet
      sets wins over the default. */
  function MergeConfig(o: Overrides): Config
  {
    Config(Pick(o.sheetName, DefaultConfig.sheetName),
           Pick(o.childrenTextKey, DefaultConfig.childrenTextKey),
           Pick(o.cellMerge, DefaultConfig.cellMerge),
           Pick(o.startRow, DefaultConfig.startRow),
           Pick(o.startColumn, DefaultConfig.startColumn))
  }

  /** One entry of the exporter's data: a sheet's configuration, header
      forest and data tree. */
  datatype Sheet = Sheet(config: Overrides, header: seq<HeaderNode>, data: seq<DataTree.DataNode>)

  /** What build stores for one sheet: the header height, the leaf columns,
      the header layout, the flat records and the data merge regions. */
  datatype SheetBuild = SheetBuild(headerRow: int, leaves: seq<Column>, layout: RowTable,
                                   records: seq<Record>, merges: seq<Rect>)

  /** What build computes for one sheet, or `None` when its header is empty
      and `max` fails. */
  function PlanSheet(sheet: Sheet): Option<SheetBuild>
  {
    PlanResolved(MergeConfig(sheet.config), ResolveHeader(sheet.header), DataTree.ResolveData(sheet.data))
  }

  /** The plan once the configuration is merged and the header and the data
      are resolved. */
  function PlanResolved(config: Config, header: seq<HeaderNode>, data: seq<DataTree.DataNode>): Option<SheetBuild>
  {
    match HeaderRow(header)
    case None => None
    case Some(headerRow) =>
      var leaves := FlattenHeader(header, headerRow, 0);
      var flat := DataTree.FlattenData(data, config.startRow + headerRow, config.startColumn,
                                       map[], leaves, config.childrenTextKey);
      Some(SheetBuild(headerRow, leaves, FlattenHeaderData(header, 0), flat.records, flat.merges))
  }

  /** The writes buildSheet makes on a worksheet: its title, the header names
      and header merges, the data values row by row, and the data merges it
      applies. */
  datatype Rendered = Rendered(title: string, headerCells: seq<Cell>, headerMerges: seq<Rect>,
                               dataCells: seq<seq<Cell>>, dataMerges: seq<Rect>)

  /** Record k goes to row `startRow + 1 + k`, leaf column j to column
      `j + 1`; the value is the record's entry for the column's field. */
  function DataCells(header: seq<Column>, data: seq<Record>, startRow: int): seq<seq<Cell>>
  {
    seq(|data|, k requires 0 <= k < |data| =>
      seq(|header|, j requires 0 <= j < |header| => Cell(j + 1, startRow + 1 + k, Get(data[k], header[j].field))))
  }

  function Render(config: Config, b: SheetBuild): Rendered
  {
    Rendered(config.sheetName, HeaderCells(b.layout), HeaderMerges(b.layout),
             DataCells(b.leaves, b.records, b.headerRow),
             if config.cellMerge then b.merges else [])
  }

  function RenderSheet(sheet: Sheet): Option<Rendered>
  {
    match PlanSheet(sheet)
    case None => None
    case Some(b) => Some(Render(MergeConfig(sheet.config), b))
  }

  /** buildSheetData: for each record, the row cursor moves down one and the
      leaf columns are written from column 1. */
  method BuildSheetData(header: seq<Column>, data: seq<Record>, startRow: int) returns (cells: seq<seq<Cell>>)
    ensures cells == DataCells(header, data, startRow)
    ensures |cells| == |data|
    ensures forall k :: 0 <= k < |data| ==> |cells[k]| == |header|
    ensures forall k, j :: 0 <= k < |data| && 0 <= j < |header| ==>
      cells[k][j] == Cell(j + 1, startRow + 1 + k, Get(data[k], header[j].field))
  {
    cells := [];
    var row := startRow;
    var k := 0;
    while k < |data|
      invariant 0 <= k <= |data| && |cells| == k && row == startRow + k
      invariant forall i :: 0 <= i < k ==> cells[i] == DataCells(header, data, startRow)[i]
    {
      row := row + 1;
      var line := BuildDataRow(header, data[k], row);
      assert line == DataCells(header, data, startRow)[k];
      cells := cells + [line];
      k := k + 1;
    }
  }

  /** The inner loop of buildSheetData: one record, column cursor from 1. */
  method BuildDataRow(header: seq<Column>, rec: Record, row: int) returns (line: seq<Cell>)
    ensures |line| == |header|
    ensures forall j :: 0 <= j < |header| ==> line[j] == Cell(j + 1, row, Get(rec, header[j].field))
  {
    line := [];
    var col := 1;
    var j := 0;
    while j < |header|
      invariant 0 <= j <= |header| && |line| == j && col == j + 1
      invariant forall i :: 0 <= i < j ==> line[i] == Cell(i + 1, row, Get(rec, header[i].field))
    {
      line := line + [Cell(col, row, Get(rec, header[j].field))];
      col := col + 1;
      j := j + 1;
    }
  }

  /** The walk so far, `records` and `merges`, followed by the walk still
      to come, `rest`, is the whole walk appended to the merges found before. */
  ghost predicate Progress(records: seq<Record>, merges: seq<Rect>, rest: DataTree.Flat,
                           total: DataTree.Flat, before: seq<Rect>)
  {
    && records + rest.records == total.records
    && merges + rest.merges == before + total.merges
  }

  /** A record at position `i` moves the walk on by one row and one record. */
  lemma RecordWalkStep(data: seq<DataTree.DataNode>, i: int, row: int, startColumn: int, context: Record,
                       leaves: seq<Column>, textKey: string, records: seq<Record>, merges: seq<Rect>,
                       total: DataTree.Flat, before: seq<Rect>)
    requires 0 <= i < |data| && !DataTree.IsGroup(data[i])
    requires Progress(records, merges, DataTree.FlattenData(data[i..], row, startColumn, context, leaves, textKey), total, before)
    ensures Progress(records + [context + data[i].fields], merges,
                     DataTree.FlattenData(data[i + 1..], row + 1, startColumn, context, leaves, textKey), total, before)
  {
    assert data[i..][0] == data[i] && data[i..][1..] == data[i + 1..];
    var next := DataTree.FlattenData(data[i + 1..], row + 1, startColumn, context, leaves, textKey);
    DataTree.UnfoldRecord(data[i..], row, startColumn, context, leaves, textKey);
    assert records + ([context + data[i].fields] + next.records) == (records + [context + data[i].fields]) + next.records;
  }

  /** A group at position `i` moves the walk on by its region, its
      children's walk and its `_merge_row` rows, under the labelled context. */
  lemma GroupWalkStep(data: seq<DataTree.DataNode>, i: int, row: int, startColumn: int, context: Record,
                      leaves: seq<Column>, textKey: string, records: seq<Record>, merges: seq<Rect>,
                      total: DataTree.Flat, before: seq<Rect>, labelled: Record, inner: DataTree.Flat)
    requires 0 <= i < |data| && DataTree.IsGroup(data[i])
    requires Progress(records, merges, DataTree.FlattenData(data[i..], row, startColumn, context, leaves, textKey), total, before)
    requires labelled == context[DataTree.FieldAt(leaves, startColumn) := DataTree.Label(data[i], textKey)]
    requires inner == DataTree.FlattenData(data[i].children, row, startColumn + 1, labelled, leaves, textKey)
    ensures Progress(records + inner.records,
                     merges + [Rect(startColumn, row, startColumn, row + DataTree.SpanOf(data[i]) - 1)] + inner.merges,
                     DataTree.FlattenData(data[i + 1..], row + DataTree.SpanOf(data[i]) - 1 + 1, startColumn, labelled, leaves, textKey),
                     total, before)
  {
    assert data[i..][0] == data[i] && data[i..][1..] == data[i + 1..];
    var region := Rect(startColumn, row, startColumn, row + DataTree.SpanOf(data[i]) - 1);
    var next := DataTree.FlattenData(data[i + 1..], row + DataTree.SpanOf(data[i]) - 1 + 1, startColumn, labelled, leaves, textKey);
    DataTree.UnfoldGroupAt(data[i..], row, startColumn, context, leaves, textKey, labelled, inner, next);
    assert records + (inner.records + next.records) == (records + inner.records) + next.records;
    assert merges + ([region] + inner.merges + next.merges) == (merges + [region] + inner.merges) + next.merges;
  }

  /** At the end of the list the walk so far is the whole walk. */
  lemma WalkDone(data: seq<DataTree.DataNode>, row: int, startColumn: int, context: Record,
                 leaves: seq<Column>, textKey: string, records: seq<Record>, merges: seq<Rect>,
                 total: DataTree.Flat, before: seq<Rect>)
    requires Progress(records, merges, DataTree.FlattenData(data[|data|..], row, startColumn, context, leaves, textKey), total, before)
    ensures records == total.records && merges == before + total.merges
  {
    assert data[|data|..] == [];
    assert records + [] == records && merges + [] == merges;
  }

  /** An empty header leaves nothing to plan: `max` of an empty list throws. */
  lemma EmptyHeaderPlan(sheet: Sheet)
    requires |ResolveHeader(sheet.header)| == 0
    ensures PlanSheet(sheet) == None && RenderSheet(sheet) == None
  {
  }

  /** A sheet is planned and rendered exactly when its header is not empty. */
  lemma PlanIsSomeExactly(sheet: Sheet)
    ensures PlanSheet(sheet).Some? <==> |sheet.header| > 0
    ensures RenderSheet(sheet).Some? <==> |sheet.header| > 0
  {
  }

  /** Four per-sheet tables hold `b` for sheet `index`. */
  predicate HoldsIn(merges: map<nat, seq<Rect>>, leaves: map<nat, seq<Column>>, layouts: map<nat, RowTable>,
                    records: map<nat, seq<Record>>, index: nat, b: SheetBuild)
  {
    && index in merges && merges[index] == b.merges
    && index in leaves && leaves[index] == b.leaves
    && index in layouts && layouts[index] == b.layout
    && index in records && records[index] == b.records
  }

  predicate AllHoldIn(merges: map<nat, seq<Rect>>, leaves: map<nat, seq<Column>>, layouts: map<nat, RowTable>,
                      records: map<nat, seq<Record>>, plans: seq<SheetBuild>)
  {
    forall k :: 0 <= k < |plans| ==> HoldsIn(merges, leaves, layouts, records, k, plans[k])
  }

  /** Storing sheet `index` (or only resetting its merge list) keeps the
      stored state of every sheet before it. */
  lemma AllHoldKept(plans: seq<SheetBuild>, index: nat,
                    m0: map<nat, seq<Rect>>, l0: map<nat, seq<Column>>, t0: map<nat, RowTable>, r0: map<nat, seq<Record>>,
                    m1: map<nat, seq<Rect>>, l1: map<nat, seq<Column>>, t1: map<nat, RowTable>, r1: map<nat, seq<Record>>)
    requires AllHoldIn(m0, l0, t0, r0, plans) && |plans| <= index
    requires index in m1 && m1 == m0[index := m1[index]]
    requires
      || (l1 == l0 && t1 == t0 && r1 == r0)
      || (&& index in l1 && l1 == l0[index := l1[index]]
          && index in t1 && t1 == t0[index := t1[index]]
          && index in r1 && r1 == r0[index := r1[index]])
    ensures AllHoldIn(m1, l1, t1, r1, plans)
  {
    forall k | 0 <= k < |plans|
      ensures HoldsIn(m1, l1, t1, r1, k, plans[k])
    {
      assert HoldsIn(m0, l0, t0, r0, k, plans[k]);
    }
  }

  /** The first `|plans|` of `sheets` are planned as `plans` says and
      rendered as `rendered` says. */
  ghost predicate Planned(sheets: seq<Sheet>, plans: seq<SheetBuild>, rendered: seq<Rendered>)
  {
    && |rendered| == |plans| <= |sheets|
    && forall k :: 0 <= k < |plans| ==> PlanSheet(sheets[k]) == Some(plans[k]) && RenderSheet(sheets[k]) == Some(rendered[k])
  }

  lemma PlannedAppend(sheets: seq<Sheet>, plans: seq<SheetBuild>, rendered: seq<Rendered>, plan: SheetBuild, r: Rendered)
    requires Planned(sheets, plans, rendered) && |plans| < |sheets|
    requires PlanSheet(sheets[|plans|]) == Some(plan) && RenderSheet(sheets[|plans|]) == Some(r)
    ensures Planned(sheets, plans + [plan], rendered + [r])
  {
    var n := |plans|;
    forall k | 0 <= k <= n
      ensures PlanSheet(sheets[k]) == Some((plans + [plan])[k]) && RenderSheet(sheets[k]) == Some((rendered + [r])[k])
    {
      if k < n {
        assert (plans + [plan])[k] == plans[k] && (rendered + [r])[k] == rendered[k];
      }
    }
  }

  lemma PlannedHeaders(sheets: seq<Sheet>, plans: seq<SheetBuild>, rendered: seq<Rendered>)
    requires Planned(sheets, plans, rendered)
    ensures forall k :: 0 <= k < |plans| ==> |sheets[k].header| > 0
  {
    forall k | 0 <= k < |plans|
      ensures |sheets[k].header| > 0
    {
      PlanIsSomeExactly(sheets[k]);
    }
  }

  /** Proof step, not a property: RenderSheet unfolded one step for a
      planned sheet. */
  lemma RenderOfPlan(sheet: Sheet)
    requires PlanSheet(sheet).Some?
    ensures RenderSheet(sheet) == Some(Render(MergeConfig(sheet.config), PlanSheet(sheet).value))
  {
  }

  /** Proof step, not a property: PlanResolved unfolded one step, from the
      header height, the leaf columns, the header layout and the walk. */
  lemma PlanOf(config: Config, header: seq<HeaderNode>, tree: seq<DataTree.DataNode>, headerRow: int,
               leaves: seq<Column>, layout: RowTable, flat: DataTree.Flat)
    requires |header| > 0 && headerRow == Max(RowSpans(header))
    requires leaves == FlattenHeader(header, headerRow, 0) && layout == FlattenHeaderData(header, 0)
    requires flat == DataTree.FlattenData(tree, config.startRow + headerRow, config.startColumn, map[], leaves,
                                          config.childrenTextKey)
    ensures PlanResolved(config, header, tree) == Some(SheetBuild(headerRow, leaves, layout, flat.records, flat.merges))
  {
    assert HeaderRow(header) == Some(headerRow);
  }

  /** Planning with another start row changes only the data merge regions,
      which move down by the difference. */
  lemma PlanShift(config: Config, header: seq<HeaderNode>, tree: seq<DataTree.DataNode>, row: int)
    ensures
      var a := PlanResolved(config, header, tree);
      var b := PlanResolved(config.(startRow := row), header, tree);
      && b.Some? == a.Some?
      && (a.Some? ==> b.value == a.value.(merges := DataTree.ShiftRows(a.value.merges, row - config.startRow)))
  {
    if HeaderRow(header).Some? {
      var headerRow := HeaderRow(header).value;
      var leaves := FlattenHeader(header, headerRow, 0);
      DataTree.FlattenDataShift(tree, config.startRow + headerRow, config.startColumn, map[], leaves,
                                config.childrenTextKey, row - config.startRow);
      assert config.startRow + headerRow + (row - config.startRow) == row + headerRow;
    }
  }

  /** `start_row` moves only the data merge regions: the same sheet with
      another `start_row` renders the same title, header names, header
      merges and data values (these are placed from the header height
      alone), and every data merge region moves down by the difference. */
  lemma StartRowShiftsOnlyDataMerges(sheet: Sheet, row: int)
    ensures
      var moved := sheet.(config := sheet.config.(startRow := Some(row)));
      RenderSheet(moved).Some? == RenderSheet(sheet).Some?
    ensures
      var moved := sheet.(config := sheet.config.(startRow := Some(row)));
      var d := row - MergeConfig(sheet.config).startRow;
      RenderSheet(sheet).Some? ==>
        var a := RenderSheet(sheet).value;
        var b := RenderSheet(moved).value;
        && b.title == a.title && b.headerCells == a.headerCells && b.headerMerges == a.headerMerges
        && b.dataCells == a.dataCells
        && b.dataMerges == DataTree.ShiftRows(a.dataMerges, d)
  {
    var moved := sheet.(config := sheet.config.(startRow := Some(row)));
    var c := MergeConfig(sheet.config);
    var header := ResolveHeader(sheet.header);
    var tree := DataTree.ResolveData(sheet.data);
    assert MergeConfig(moved.config) == c.(startRow := row);
    assert PlanSheet(sheet) == PlanResolved(c, header, tree);
    assert PlanSheet(moved) == PlanResolved(c.(startRow := row), header, tree);
    PlanShift(c, header, tree, row);
  }

  class Export {
    /** The sheets to export. */
    var data: seq<Sheet>
    var currentSheetIndex: nat
    var currentConfig: Config
    /** Sheet index to the data merge regions collected for it. */
    var merges: map<nat, seq<Rect>>
    var flattenHeader: map<nat, seq<Column>>
    var flattenHeaderData: map<nat, RowTable>
    var flattenData: map<nat, seq<Record>>
    /** The writer chosen by xlsx(), xls() or csv(). */
    var fileType: FileName.FileType

    constructor (data: seq<Sheet>)
      ensures this.data == data && fileType == FileName.Xlsx
      ensures currentSheetIndex == 0 && currentConfig == DefaultConfig
      ensures merges == map[] && flattenHeader == map[] && flattenHeaderData == map[] && flattenData == map[]
    {
      this.data := data;
      currentSheetIndex := 0;
      currentConfig := DefaultConfig;
      merges := map[];
      flattenHeader := map[];
      flattenHeaderData := map[];
      flattenData := map[];
      fileType := FileName.Xlsx;
    }

    method SetXlsx()
      modifies this`fileType
      ensures fileType == FileName.Xlsx
    {
      fileType := FileName.Xlsx;
    }

    method SetXls()
      modifies this`fileType
      ensures fileType == FileName.Xls
    {
      fileType := FileName.Xls;
    }

    method SetCsv()
      modifies this`fileType
      ensures fileType == FileName.Csv
    {
      fileType := FileName.Csv;
    }

    /** resolveFileName with the date and file-name strings already chosen:
      the path ends in the lower-cased name of the writer in use. */
    method ResolvePath(rootPath: string, date: string, fileName: string, sep: char) returns (info: FileName.FileInfo)
      ensures info == FileName.ResolveFileName(rootPath, date, fileName, fileType, sep)
      ensures info.fileType == FileName.Lower(FileName.TypeName(fileType))
    {
      info := FileName.ResolveFileName(rootPath, date, fileName, fileType, sep);
    }

    /** `$this->flattenHeader[$this->currentSheetIndex]`. */
    function LeafColumns(): seq<Column>
      reads this`currentSheetIndex, this`flattenHeader
    {
      if currentSheetIndex in flattenHeader then flattenHeader[currentSheetIndex] else []
    }

    /** The stored state of sheet `index` is `b`. */
    predicate Holds(index: nat, b: SheetBuild)
      reads this
    {
      HoldsIn(merges, flattenHeader, flattenHeaderData, flattenData, index, b)
    }

    /** The stored state of sheet k is `plans[k]`, for every k. */
    predicate AllHold(plans: seq<SheetBuild>)
      reads this
    {
      AllHoldIn(merges, flattenHeader, flattenHeaderData, flattenData, plans)
    }

    lemma AllHoldAppend(plans: seq<SheetBuild>, plan: SheetBuild)
      requires AllHold(plans) && Holds(|plans|, plan)
      ensures AllHold(plans + [plan])
    {
      assert forall k :: 0 <= k < |plans| ==> (plans + [plan])[k] == plans[k];
    }

    /** flattenData: returns the records and appends the regions, in
      pre-order, to the current sheet's merge list; nothing else changes. */
    method FlattenData(data: seq<DataTree.DataNode>, startRow: int, startColumn: int, item: Record)
      returns (records: seq<Record>)
      requires currentSheetIndex in merges
      modifies this`merges
      ensures
        var flat := DataTree.FlattenData(data, startRow, startColumn, item, LeafColumns(), currentConfig.childrenTextKey);
        && records == flat.records
        && merges == old(merges)[currentSheetIndex := old(merges[currentSheetIndex]) + flat.merges]
      decreases data, 2
    {
      var textKey := currentConfig.childrenTextKey;
      ghost var leaves := LeafColumns();
      ghost var total := DataTree.FlattenData(data, startRow, startColumn, item, leaves, textKey);
      ghost var before := merges[currentSheetIndex];
      records := [];
      var row := startRow;
      var context := item;
      var i := 0;
      while i < |data|
        invariant 0 <= i <= |data|
        invariant leaves == LeafColumns() && textKey == currentConfig.childrenTextKey
        invariant currentSheetIndex in merges
        invariant merges == old(merges)[currentSheetIndex := merges[currentSheetIndex]]
        invariant Progress(records, merges[currentSheetIndex],
                           DataTree.FlattenData(data[i..], row, startColumn, context, leaves, textKey), total, before)
      {
        var added;
        added, row, context := FlattenEntry(data, i, row, startColumn, context, records, total, before);
        records := records + added;
        i := i + 1;
      }
      WalkDone(data, row, startColumn, context, leaves, textKey, records, merges[currentSheetIndex], total, before);
    }

    /** One pass of flattenData's loop, on `data[i]`: a record is merged
      into the context and the row moves down one; a group goes through
      FlattenGroup and the row moves below its region. Either way the walk
      so far moves on by one entry. */
    method FlattenEntry(data: seq<DataTree.DataNode>, i: int, row: int, startColumn: int, context: Record,
                        ghost records: seq<Record>, ghost total: DataTree.Flat, ghost before: seq<Rect>)
      returns (added: seq<Record>, nextRow: int, nextContext: Record)
      requires 0 <= i < |data| && currentSheetIndex in merges
      requires Progress(records, merges[currentSheetIndex],
                        DataTree.FlattenData(data[i..], row, startColumn, context, LeafColumns(), currentConfig.childrenTextKey),
                        total, before)
      modifies this`merges
      ensures currentSheetIndex in merges && merges == old(merges)[currentSheetIndex := merges[currentSheetIndex]]
      ensures Progress(records + added, merges[currentSheetIndex],
                       DataTree.FlattenData(data[i + 1..], nextRow, startColumn, nextContext, LeafColumns(),
                                            currentConfig.childrenTextKey),
                       total, before)
      decreases data, 1
    {
      ghost var leaves := LeafColumns();
      var value := data[i];
      if |value.children| == 0 {
        RecordWalkStep(data, i, row, startColumn, context, leaves, currentConfig.childrenTextKey,
                       records, merges[currentSheetIndex], total, before);
        added := [context + value.fields];
        nextRow := row + 1;
        nextContext := context;
      } else {
        ghost var mergesBefore := merges[currentSheetIndex];
        added, nextContext := FlattenGroup(value, row, startColumn, context);
        GroupWalkStep(data, i, row, startColumn, context, leaves, currentConfig.childrenTextKey, records, mergesBefore,
                      total, before, nextContext,
                      DataTree.FlattenData(value.children, row, startColumn + 1, nextContext, leaves,
                                           currentConfig.childrenTextKey));
        nextRow := row + DataTree.SpanOf(value) - 1 + 1;
      }
    }

    /** The group branch of flattenData: the group's region is appended to
      the current sheet's merge list, the group's label is written into the
      context under the field of the leaf column at `startColumn`, and the
      children are walked one column to the right under that context. */
    method FlattenGroup(value: DataTree.DataNode, row: int, startColumn: int, context: Record)
      returns (records: seq<Record>, labelled: Record)
      requires currentSheetIndex in merges
      modifies this`merges
      ensures labelled == context[DataTree.FieldAt(LeafColumns(), startColumn) := DataTree.Label(value, currentConfig.childrenTextKey)]
      ensures
        var inner := DataTree.FlattenData(value.children, row, startColumn + 1, labelled, LeafColumns(), currentConfig.childrenTextKey);
        && records == inner.records
        && merges == old(merges)[currentSheetIndex := old(merges[currentSheetIndex])
                                   + [Rect(startColumn, row, startColumn, row + DataTree.SpanOf(value) - 1)] + inner.merges]
      decreases value, 0
    {
      var region := Rect(startColumn, row, startColumn, row + DataTree.SpanOf(value) - 1);
      merges := merges[currentSheetIndex := merges[currentSheetIndex] + [region]];
      var key := DataTree.FieldAt(LeafColumns(), startColumn);
      labelled := context[key := DataTree.Label(value, currentConfig.childrenTextKey)];
      records := FlattenData(value.children, row, startColumn + 1, labelled);
    }

    /** buildSheet: the title, the header, the data rows starting below the
      header height, and the sheet's data merges when
      `data_children_cell_merge` is on. */
    method BuildSheet(sheetIndex: nat, headerRow: int) returns (r: Rendered)
      requires sheetIndex in flattenHeader && sheetIndex in flattenHeaderData
      requires sheetIndex in flattenData && sheetIndex in merges
      ensures r == Render(currentConfig, SheetBuild(headerRow, flattenHeader[sheetIndex], flattenHeaderData[sheetIndex],
                                                    flattenData[sheetIndex], merges[sheetIndex]))
    {
      var header := flattenHeader[sheetIndex];
      var headerData := flattenHeaderData[sheetIndex];
      var rows := flattenData[sheetIndex];
      var headerCells, headerMerges := BuildSheetHeader(headerData);
      var dataCells := BuildSheetData(header, rows, headerRow);
      assert dataCells == DataCells(header, rows, headerRow);
      var applied := if currentConfig.cellMerge then merges[sheetIndex] else [];
      r := Rendered(currentConfig.sheetName, headerCells, headerMerges, dataCells, applied);
    }

    /** The start of build's loop body: the sheet becomes current, its
      configuration is merged over the defaults, its header and data are
      resolved and its merge list is emptied. */
    method ResetSheet(index: nat, sheet: Sheet) returns (header: seq<HeaderNode>, tree: seq<DataTree.DataNode>)
      modifies this`currentSheetIndex, this`currentConfig, this`merges
      ensures currentSheetIndex == index && currentConfig == MergeConfig(sheet.config)
      ensures merges == old(merges)[index := []]
      ensures header == ResolveHeader(sheet.header) && tree == DataTree.ResolveData(sheet.data)
    {
      currentSheetIndex := index;
      currentConfig := MergeConfig(sheet.config);
      header := ResolveHeaderMerge(sheet.header);
      tree := DataTree.ResolveDataMerge(sheet.data);
      merges := merges[index := []];
    }

    /** The rest of build's loop body before buildSheet: the header height,
      the leaf columns, the header layout and the flat records are stored
      for the current sheet, and the data walk appends its regions. */
    method StoreSheet(header: seq<HeaderNode>, tree: seq<DataTree.DataNode>) returns (headerRow: int)
      requires |header| > 0 && currentSheetIndex in merges
      modifies this`merges, this`flattenHeader, this`flattenHeaderData, this`flattenData
      ensures headerRow == Max(RowSpans(header))
      ensures
        var leaves := FlattenHeader(header, headerRow, 0);
        var flat := DataTree.FlattenData(tree, currentConfig.startRow + headerRow, currentConfig.startColumn,
                                         map[], leaves, currentConfig.childrenTextKey);
        && flattenHeader == old(flattenHeader)[currentSheetIndex := leaves]
        && flattenHeaderData == old(flattenHeaderData)[currentSheetIndex := FlattenHeaderData(header, 0)]
        && flattenData == old(flattenData)[currentSheetIndex := flat.records]
        && merges == old(merges)[currentSheetIndex := old(merges[currentSheetIndex]) + flat.merges]
    {
      headerRow := Max(RowSpans(header));
      var leaves := FlattenHeaderLoop(header, headerRow, 0);
      flattenHeader := flattenHeader[currentSheetIndex := leaves];
      var layout := FlattenHeaderDataLoop(header, 0);
      flattenHeaderData := flattenHeaderData[currentSheetIndex := layout];
      var records := FlattenData(tree, currentConfig.startRow + headerRow, currentConfig.startColumn, map[]);
      flattenData := flattenData[currentSheetIndex := records];
    }

    /** What StoreSheet leaves for a sheet whose merge list started empty is
      that sheet's plan. */
    lemma StoredPlan(sheet: Sheet, header: seq<HeaderNode>, tree: seq<DataTree.DataNode>, headerRow: int)
      requires header == ResolveHeader(sheet.header) && tree == DataTree.ResolveData(sheet.data)
      requires |header| > 0 && currentConfig == MergeConfig(sheet.config) && headerRow == Max(RowSpans(header))
      requires
        var leaves := FlattenHeader(header, headerRow, 0);
        var flat := DataTree.FlattenData(tree, currentConfig.startRow + headerRow, currentConfig.startColumn,
                                         map[], leaves, currentConfig.childrenTextKey);
        && currentSheetIndex in flattenHeader && flattenHeader[currentSheetIndex] == leaves
        && currentSheetIndex in flattenHeaderData && flattenHeaderData[currentSheetIndex] == FlattenHeaderData(header, 0)
        && currentSheetIndex in flattenData && flattenData[currentSheetIndex] == flat.records
        && currentSheetIndex in merges && merges[currentSheetIndex] == [] + flat.merges
      ensures PlanSheet(sheet).Some? && headerRow == PlanSheet(sheet).value.headerRow
      ensures Holds(currentSheetIndex, PlanSheet(sheet).value)
    {
      var leaves := FlattenHeader(header, headerRow, 0);
      var flat := DataTree.FlattenData(tree, currentConfig.startRow + headerRow, currentConfig.startColumn,
                                       map[], leaves, currentConfig.childrenTextKey);
      assert PlanSheet(sheet) == PlanResolved(currentConfig, header, tree);
      PlanOf(currentConfig, header, tree, headerRow, leaves, FlattenHeaderData(header, 0), flat);
      assert [] + flat.merges == flat.merges;
    }

    /** One pass of build's loop: sheet `index` is resolved, flattened and
      rendered; an empty header makes `max` throw after the configuration
      and the merge list have been reset. */
    method BuildOne(index: nat, sheet: Sheet) returns (r: Option<Rendered>)
      modifies this`currentSheetIndex, this`currentConfig, this`merges, this`flattenHeader,
               this`flattenHeaderData, this`flattenData
      ensures r == RenderSheet(sheet)
      ensures currentSheetIndex == index && currentConfig == MergeConfig(sheet.config)
      ensures r.Some? ==> Holds(index, PlanSheet(sheet).value)
      ensures index in merges && merges == old(merges)[index := merges[index]]
      ensures r.None? ==> merges[index] == [] && unchanged(this`flattenHeader, this`flattenHeaderData, this`flattenData)
      ensures r.Some? ==>
        && index in flattenHeader && flattenHeader == old(flattenHeader)[index := flattenHeader[index]]
        && index in flattenHeaderData && flattenHeaderData == old(flattenHeaderData)[index := flattenHeaderData[index]]
        && index in flattenData && flattenData == old(flattenData)[index := flattenData[index]]
    {
      var header, tree := ResetSheet(index, sheet);
      if |header| == 0 {
        EmptyHeaderPlan(sheet);
        return None;
      }
      var rendered := BuildStored(index, sheet, header, tree);
      r := Some(rendered);
    }

    /** The part of build after the resolution of a sheet whose header is
      not empty: store the flattened pieces, then build the sheet. */
    method BuildStored(index: nat, sheet: Sheet, header: seq<HeaderNode>, tree: seq<DataTree.DataNode>)
      returns (r: Rendered)
      requires header == ResolveHeader(sheet.header) && tree == DataTree.ResolveData(sheet.data) && |header| > 0
      requires currentSheetIndex == index && currentConfig == MergeConfig(sheet.config)
      requires index in merges && merges[index] == []
      modifies this`merges, this`flattenHeader, this`flattenHeaderData, this`flattenData
      ensures RenderSheet(sheet) == Some(r)
      ensures PlanSheet(sheet).Some? && Holds(index, PlanSheet(sheet).value)
      ensures merges == old(merges)[index := merges[index]]
      ensures flattenHeader == old(flattenHeader)[index := flattenHeader[index]]
      ensures flattenHeaderData == old(flattenHeaderData)[index := flattenHeaderData[index]]
      ensures flattenData == old(flattenData)[index := flattenData[index]]
    {
      var headerRow := StoreSheet(header, tree);
      StoredPlan(sheet, header, tree, headerRow);
      r := BuildSheet(index, headerRow);
      RenderOfPlan(sheet);
    }

    /** build: replaces the data when a non-empty list is given, then builds
      every sheet in order. `ok` is false when a sheet with an empty header
      stops the run; the sheets before it are built. */
    method Build(newData: seq<Sheet>) returns (rendered: seq<Rendered>, ok: bool)
      modifies this`data, this`currentSheetIndex, this`currentConfig, this`merges, this`flattenHeader,
               this`flattenHeaderData, this`flattenData
      ensures data == if |newData| > 0 then newData else old(data)
      ensures ok <==> forall i :: 0 <= i < |data| ==> |data[i].header| > 0
      ensures ok ==> |rendered| == |data|
      ensures !ok ==> |rendered| < |data| && |data[|rendered|].header| == 0
      ensures !ok ==> |rendered| in merges && merges[|rendered|] == []
      ensures forall i :: 0 <= i < |rendered| ==>
        && RenderSheet(data[i]) == Some(rendered[i])
        && Holds(i, PlanSheet(data[i]).value)
    {
      if |newData| > 0 {
        data := newData;
      }
      rendered, ok := BuildSheets(data);
    }

    /** build's loop over the sheets, in order, up to the first one whose
      header is empty. */
    method BuildSheets(sheets: seq<Sheet>) returns (rendered: seq<Rendered>, ok: bool)
      modifies this`currentSheetIndex, this`currentConfig, this`merges, this`flattenHeader,
               this`flattenHeaderData, this`flattenData
      ensures ok <==> forall i :: 0 <= i < |sheets| ==> |sheets[i].header| > 0
      ensures ok ==> |rendered| == |sheets|
      ensures !ok ==> |rendered| < |sheets| && |sheets[|rendered|].header| == 0
      ensures !ok ==> |rendered| in merges && merges[|rendered|] == []
      ensures forall i :: 0 <= i < |rendered| ==>
        && RenderSheet(sheets[i]) == Some(rendered[i])
        && Holds(i, PlanSheet(sheets[i]).value)
    {
      ghost var plans: seq<SheetBuild> := [];
      rendered := [];
      var i := 0;
      while i < |sheets|
        invariant 0 <= i <= |sheets| && |rendered| == i && |plans| == i
        invariant Planned(sheets, plans, rendered)
        invariant AllHold(plans)
      {
        ghost var m0, l0, t0, r0 := merges, flattenHeader, flattenHeaderData, flattenData;
        var r := BuildOne(i, sheets[i]);
        AllHoldKept(plans, i, m0, l0, t0, r0, merges, flattenHeader, flattenHeaderData, flattenData);
        PlanIsSomeExactly(sheets[i]);
        if r.None? {
          PlannedHeaders(sheets, plans, rendered);
          PlannedHold(sheets, plans, rendered);
          return rendered, false;
        }
        ghost var plan := PlanSheet(sheets[i]).value;
        AllHoldAppend(plans, plan);
        PlannedAppend(sheets, plans, rendered, plan, r.value);
        plans := plans + [plan];
        rendered := rendered + [r.value];
        i := i + 1;
      }
      ok := true;
      PlannedHeaders(sheets, plans, rendered);
      PlannedHold(sheets, plans, rendered);
    }

    lemma PlannedHold(sheets: seq<Sheet>, plans: seq<SheetBuild>, rendered: seq<Rendered>)
      requires Planned(sheets, plans, rendered) && AllHold(plans)
      ensures forall i :: 0 <= i < |rendered| ==>
        && RenderSheet(sheets[i]) == Some(rendered[i])
        && Holds(i, PlanSheet(sheets[i]).value)
    {
      forall i | 0 <= i < |rendered|
        ensures RenderSheet(sheets[i]) == Some(rendered[i]) && Holds(i, PlanSheet(sheets[i]).value)
      {
        assert Holds(i, plans[i]);
      }
    }
  }
}
