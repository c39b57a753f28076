# Spreadsheet export: tree-to-grid flattening

`Biin2013\Spreadsheet\Export` turns each sheet of a nested PHP array into a grid. A sheet has two trees:

- a column-header tree: columns with sub-columns;
- a row-group data tree: groups such as province, city and district, with records as leaves.

`build` resolves spans on both trees and flattens them into four per-sheet tables:

- the leaf columns;
- a row-indexed header layout;
- the flat records, each carrying its ancestors' group labels;
- the data merge rectangles `[col, row, col2, row2]`, 1-based and inclusive.

It then writes the header names, the data values and the merges to the worksheet. `export` finally names the file it writes.

This project models that core in Dafny and proves what it computes.

| file | module | what it holds |
|---|---|---|
| `values.dfy` | `Values` | cell values, records, merge rectangles, PHP's `max` and `array_sum` |
| `header.dfy` | `Header` | `resolveHeaderMerge`, `getHeaderFields`, `flattenHeader` and the header height |
| `header_layout.dfy` | `HeaderLayout` | `flattenHeaderData` and the placement and merge arithmetic of `buildSheetHeader` |
| `data.dfy` | `DataTree` | `resolveDataMerge` and the specification of `flattenData` |
| `export.dfy` | `Exporter` | class `Export`: `build`, `flattenData`, `buildSheet`, `buildSheetData`, the writer setters |
| `file_name.dfy` | `FileName` | the path string of `resolveFileName` |
| `fixture.dfy` | `Fixture` | the repository's test sheet worked through the model |

How the source is modelled:

- **Functions and methods.** The recursive resolvers and `flattenData` are specified as functions. Each loop of the source is a method proved equal to its function:
  - `ResolveHeaderMerge`, `StretchLeafRows` and `FlattenHeaderLoop`;
  - `FlattenHeaderDataLoop`, `BuildHeaderRow` and `BuildSheetHeader`;
  - `ResolveDataMerge`, `BuildSheetData` and `Export.FlattenData`.
- **By-reference arrays.** PHP arrays are values. An array passed by reference (`array &$header`) is an in/out parameter here.
- **Per-sheet state.** `merges`, `flattenHeader`, `flattenHeaderData` and `flattenData` are fields of the `Export` class, keyed by sheet index. The methods of `build` update them in place.
- **Quirks are kept as the code has them.** A lemma or a contract states each one:
  - the header layout collapses deeper rows into row 1 (`HeaderLayout.FlattenHeaderDataShape`);
  - a group's label leaks to the siblings after it (`DataTree.LabelLeaksToNextSibling`);
  - the header height is the largest top-level rowSpan (`Header.HeaderRowOfResolved`);
  - a label is stored under the field of the leaf column at the group's absolute column, `start_column` included (`DataTree.GroupLabelInherited`, `Exporter.Export.FlattenGroup`);
  - records keep their span keys (`DataTree.RecordsCarrySpanKeys`);
  - `start_row` moves only the data merge regions (`Exporter.StartRowShiftsOnlyDataMerges`);
  - `start_column` moves the data merge regions and the columns whose fields receive the labels; header and data cells are placed from column 1 whatever it is (`HeaderLayout.BuildSheetHeader`, `Exporter.BuildSheetData`).

Details of the code the model keeps:

- **Header height.** The header height is the largest top-level `_merge_row` (src/Export.php:103). It is 1 when every top-level node is a branch (`Header.HeaderRowOfResolved`).
- **Group context.** The group branch assigns the label into the loop's own `$item`, so the siblings after the group see the label too (src/Export.php:225, `DataTree.LabelLeaksToNextSibling`).
- **Header rows.** `flattenHeaderData` spreads a branch's whole sub-layout into the next row, so every node below the top level lands in row 1 (src/Export.php:190, `HeaderLayout.FlattenHeaderDataShape`).
- **Offsets.** Header cells are written from row 1, data cells from the row below the header, both from column 1 (src/Export.php:265-267, 294-295). Only the data merge regions and the label columns use `start_row`/`start_column` (src/Export.php:106-110, 224).
- **Group key.** Groups are recognised by the fixed key `children` (src/Export.php:149, 215). The `data_children_key` option is never read.
- **Out-of-range columns.** A group deeper than the leaf columns reads `null` as its field, and the label is stored under the key `""` (src/Export.php:224, `DataTree.FieldAt`).
- **Empty header.** `max` on an empty list throws and ends the whole build; the sheets before it stay built (src/Export.php:103, `Exporter.Export.Build`).
- **Records.** The resolver gives every record `_merge_col` 1 as well as `_merge_row` 1, and both keys reach the flat records (src/Export.php:153-154, `DataTree.RecordsCarrySpanKeys`).

## Model

| member | source | states |
|---|---|---|
| Values.Max | src/Export.php:103 | PHP `max` on a non-empty list is an element of the list and bounds every element |
| Values.SumOfPositives | src/Export.php:129 | a sum of spans that are each at least 1 is at least the number of spans |
| Header.ResolveHeader | src/Export.php:124-144 | resolution keeps the number of sibling nodes |
| Header.DepthsIgnoreRowSpan | src/Export.php:139-143 | setting one node's rowSpan leaves the depths of its list unchanged, which is the fact the second loop's proof uses to keep stretching against the same largest depth |
| Header.ResolveHeaderMerge | src/Export.php:124-144 | the by-reference resolver's two loops leave the forest equal to the recursive resolution |
| Header.StretchLeafRows | src/Export.php:139-143 | the second loop sets each childless node's rowSpan to the largest depth of its list and leaves branches alone |
| Header.ResolveHeaderIsResolved | src/Export.php:126-143 | after resolution every leaf has colSpan 1 and depth 1 and a rowSpan equal to the deepest sibling; every branch has colSpan equal to the sum over its children, rowSpan 1 and depth one more than its deepest child; the caller's fields and shape are kept |
| Header.ResolveHeaderKeepsResolved | src/Export.php:126-143 | a forest that already satisfies the span invariant is left unchanged by the resolver |
| Header.ResolveHeaderIdempotent | src/Export.php:124-144 | resolving a resolved header changes nothing |
| Header.ResolveHeaderIgnoresAnnotations | src/Export.php:126-136 | two forests of the same shape resolve identically, whatever `_merge_col`/`_merge_row`/`_row` they carried |
| Header.ResolvedIsUnique | src/Export.php:126-143 | the span invariant determines the annotations of a shape uniquely |
| Header.ResolvedSpansPositive | src/Export.php:129-135 | in a resolved forest every span and depth is at least 1, and a branch is at least 2 deep and at least as wide as its child count |
| Header.HeaderRowOfResolved | src/Export.php:103 | the header height is absent exactly for an empty header; it is the largest depth when some top-level node is a leaf, and 1 when all top-level nodes are branches |
| Header.FlattenHeaderLoop | src/Export.php:159-175 | the loop with its row and column counters returns the leaf-column list |
| Header.FlattenHeaderIsLeavesInOrder | src/Export.php:159-175 | flattenHeader returns exactly the childless nodes in depth-first left-to-right order, as `getHeaderFields` projects them |
| Header.FlattenHeaderIgnoresCounters | src/Export.php:159-175 | the startRow and startColumn arguments do not affect the result |
| Header.FlattenHeaderOfResolvedSiblings | src/Export.php:159-175 | for any list of resolved siblings, the leaf count is the sum of their colSpans, and every leaf is one column wide and one level deep |
| Header.FlattenHeaderOfResolved | src/Export.php:159-175 | a resolved header has as many leaf columns as its top-level colSpans add up to, each one column wide and one level deep |
| HeaderLayout.FlattenHeaderDataLoop | src/Export.php:177-197 | the loop's row-keyed appends and spreads produce the layout table |
| HeaderLayout.BelowWithoutBranch | src/Export.php:183-194 | a list without branches puts nothing below its own row |
| HeaderLayout.PlaceStep | src/Export.php:184-185 | appending a node to the current row keeps the table's row order and puts the node after its left siblings |
| HeaderLayout.SpreadStep | src/Export.php:186-193 | spreading a branch's sub-layout into the next row appends all of its cells, from every depth, to that one row |
| HeaderLayout.FlattenHeaderDataShape | src/Export.php:177-197 | the layout is the siblings in the current row, then, if some sibling is a branch, everything below them in the next row |
| HeaderLayout.LayoutHoldsEveryNodeOnce | src/Export.php:183-194 | the current row and the row below together hold every node of the forest exactly once |
| HeaderLayout.AllCellsOfLayout | src/Export.php:188-193 | the cells of the layout, row after row, are the siblings followed by everything below them |
| HeaderLayout.LayoutRows | src/Export.php:183-194 | the layout has at most two rows, numbered consecutively from the current row |
| HeaderLayout.FlattenHeaderDataPlacesEveryNode | src/Export.php:177-197 | flattenHeaderData places every header node, branch or leaf, exactly once, and uses only the current row and the next |
| HeaderLayout.BuildHeaderRow | src/Export.php:265-286 | the inner loop writes one row's names and merges, with the column cursor starting at 1 |
| HeaderLayout.BuildSheetHeader | src/Export.php:259-288 | buildSheetHeader's writes and merges, row after row, each row at its index + 1 whatever the start offsets |
| HeaderLayout.RowCellsPlacement | src/Export.php:265-285 | the k-th name of a row is written at the start column plus the width of its left siblings, on the row below the row index |
| HeaderLayout.RowMergesBounds | src/Export.php:281-284 | every header merge starts on its row, stays within the row's width and covers more than one grid cell |
| HeaderLayout.RowMergesOrdered | src/Export.php:281-285 | the merges of one row run left to right without overlapping |
| HeaderLayout.RowMergesAreMergedCells | src/Export.php:280-284 | the merges of a row are, in order, exactly the rectangles of its cells that span more than one column or row, one per such cell; each runs from the column after its left siblings' width over its colSpan columns, and from the row below the row index down to the row index plus its rowSpan |
| HeaderLayout.CellMergedIff | src/Export.php:281-284 | a cell's rectangle is among the row's merges if and only if the cell spans more than one column or more than one row |
| HeaderLayout.WidthPositive | src/Export.php:281 | a row of cells at least one column wide is at least as wide as it has cells |
| HeaderLayout.WidthOfProject | src/Export.php:281 | the width of the top row is the sum of the top-level colSpans |
| HeaderLayout.TopRowMergesFitLeafColumns | src/Export.php:264-286 | on a resolved header, the first row's merges stay within the leaf columns and do not reach below the deepest level |
| HeaderLayout.RowMergesTallest | src/Export.php:283 | no merge of a row reaches lower than its tallest cell |
| DataTree.ResolveData | src/Export.php:146-157 | resolution keeps the number of nodes |
| DataTree.ResolveDataMerge | src/Export.php:146-157 | the by-reference resolver leaves the tree equal to the recursive resolution |
| DataTree.SpanSumIsLeafCount | src/Export.php:151 | in a resolved tree the sum of the siblings' `_merge_row` is their number of records |
| DataTree.ResolveDataIsResolved | src/Export.php:148-156 | after resolution every record has `_merge_row` and `_merge_col` 1, every group spans its number of records, and the caller's keys and shape are kept |
| DataTree.ResolveDataKeepsResolved | src/Export.php:148-156 | a tree that already satisfies the span invariant is left unchanged |
| DataTree.ResolveDataIdempotent | src/Export.php:146-157 | resolving a resolved tree changes nothing |
| DataTree.LeafCountPositive | src/Export.php:151 | a non-empty sibling list holds at least one record, so every group spans at least one row |
| DataTree.FlattenDataCount | src/Export.php:211-239 | flattenData emits one record per record leaf |
| DataTree.FlattenDataRecords | src/Export.php:214-216 | records come in depth-first left-to-right leaf order; each keeps every context key, and the leaf's own keys win |
| DataTree.ContextValuesKept | src/Export.php:214-235 | every record shows the inherited context's value under each key the record does not set itself and no group at the start column or deeper overwrites |
| DataTree.NoStrayKeys | src/Export.php:214-235 | a record holds no key beyond those of the inherited context, those of its own leaf and the label fields of the columns from the start column on; with FlattenDataRecords and ContextValuesKept this is the overlay of the context, the labels and the leaf |
| DataTree.GroupLabelInherited | src/Export.php:224-229 | each record under a group shows the group's `data_children_text_key` value under the field of the leaf column at the group's absolute column, unless the record sets that key itself or a deeper column stores labels under the same field |
| DataTree.FlattenDataShift | src/Export.php:214-236 | starting the walk d rows lower gives the same records and every region exactly d rows lower |
| DataTree.RecordsCarrySpanKeys | src/Export.php:153-154 | every flat record of a resolved tree carries `_merge_row` 1 and `_merge_col` 1 |
| DataTree.RecordLeavesResolved | src/Export.php:152-155 | every record leaf of a resolved tree is a resolved record |
| DataTree.SplitGroupStep | src/Export.php:217-235 | a leading group keeps the split equation of the rest of the list |
| DataTree.SplitRecordStep | src/Export.php:214-216 | a leading record keeps the split equation of the rest of the list |
| DataTree.FlattenDataSplit | src/Export.php:214-236 | the walk of a + b is the walk of a, then the walk of b started exactly as many rows lower as a has records, in the context a leaves behind; the cursor advances by exactly one row per record and by the span per group |
| DataTree.RegionsGroupStep | src/Export.php:218-232 | a group's region followed by its children's and its siblings' regions keeps the region invariant |
| DataTree.RegionsRecordStep | src/Export.php:215-216 | a leading record keeps the region invariant of the rest |
| DataTree.FlattenDataRegions | src/Export.php:218-235 | there is one region per group, in pre-order, each as tall as its group has records; each is one column wide, at or right of the start column and within the rows the walk uses; regions in the same column never share a row |
| DataTree.LabelLeaksToNextSibling | src/Export.php:224-225 | a record that follows a group sibling and does not set that key shows the group's label |
| DataTree.GroupRegionsConcat | src/Export.php:218-232 | a region over its children's regions and above its siblings' regions stays within the walk's rows and keeps each column's regions disjoint |
| DataTree.HeightsConcat | src/Export.php:218-223 | region heights matching group sizes is kept by concatenation |
| FileName.LowerChar | src/Export.php:341 | `strtolower` on one character maps 'A'..'Z' to the lower-case letter and keeps every other character |
| FileName.Lower | src/Export.php:341 | the lower-cased type name has the same length, character by character lower-cased |
| FileName.LowerHasNoUpper | src/Export.php:341 | the extension has no upper-case letter |
| FileName.LowerIdempotent | src/Export.php:341 | lower-casing twice is lower-casing once |
| FileName.ExtensionOfEachType | src/Export.php:341 | the three writers give the extensions xlsx, xls and csv |
| FileName.RTrim | src/Export.php:331 | rtrim keeps a prefix, drops only separators and leaves no trailing separator |
| FileName.LTrim | src/Export.php:342 | ltrim keeps a suffix, drops only separators and leaves no leading separator |
| FileName.Trim | src/Export.php:342 | the trimmed file name starts and ends with something other than the separator |
| FileName.RTrimKeeps | src/Export.php:331 | a string with no trailing separator is left as it is |
| FileName.RTrimIdempotent | src/Export.php:331 | trimming the root twice is trimming it once |
| FileName.RTrimUnique | src/Export.php:331 | any prefix that drops only separators and does not end in one is the rtrim result |
| FileName.ResolveFileName | src/Export.php:326-350 | the result echoes root, date and file; the type is the lower-cased writer name; the full path starts with the trimmed root and a separator and ends with a dot and the type |
| FileName.EmptyDateDoublesSeparator | src/Export.php:328-342 | without a date segment the path has two separators in a row before the file name |
| FileName.FullPathSegments | src/Export.php:331-342 | the path is directory, separator, trimmed file name, dot and type; the file segment has no separator at either end |
| FileName.TrimmedInputsSamePath | src/Export.php:331 | trimming the root and the date beforehand gives the same path |
| Exporter.BuildSheetData | src/Export.php:290-310 | record k is written to row startRow + 1 + k, leaf column j to column j + 1, with the record's value for that column's field |
| Exporter.BuildDataRow | src/Export.php:296-308 | one record's row holds one cell per leaf column, from column 1, with the record's value for that field |
| Exporter.RecordWalkStep | src/Export.php:215-216 | a record moves the loop of flattenData on by one record and one row, with no region |
| Exporter.GroupWalkStep | src/Export.php:217-235 | a group moves the loop on by its region, its children's walk and its `_merge_row` rows, under the labelled context |
| Exporter.WalkDone | src/Export.php:238 | at the end of the list, the records so far are the whole walk, and the merge list is the earlier merges followed by the walk's regions |
| Exporter.EmptyHeaderPlan | src/Export.php:103 | a sheet with an empty header has no plan and is not rendered, because `max` of an empty list throws |
| Exporter.PlanIsSomeExactly | src/Export.php:99-103 | a sheet is planned and rendered exactly when its header is not empty |
| Exporter.AllHoldKept | src/Export.php:96-110 | storing one sheet's tables leaves the stored tables of every earlier sheet intact |
| Exporter.PlannedAppend | src/Export.php:95-119 | building one more sheet extends the sheets built so far by its plan |
| Exporter.PlannedHeaders | src/Export.php:95-119 | every sheet built so far had a non-empty header |
| Exporter.PlanShift | src/Export.php:103-110 | planning a sheet under another `start_row` gives the same header height, leaf columns, layout and records, and the data merge regions moved down by the difference |
| Exporter.StartRowShiftsOnlyDataMerges | src/Export.php:106-110 | changing `start_row` leaves the title, the header names, the header merges and the data values as they were, and moves every data merge region down by the difference |
| Exporter.Export.constructor | src/Export.php:42-46 | a new exporter holds the given data, writes Xlsx and has no per-sheet state yet |
| Exporter.Export.SetXlsx | src/Export.php:59-64 | the writer becomes Xlsx |
| Exporter.Export.SetXls | src/Export.php:66-71 | the writer becomes Xls |
| Exporter.Export.SetCsv | src/Export.php:73-78 | the writer becomes Csv |
| Exporter.Export.ResolvePath | src/Export.php:341-342 | the path uses the lower-cased name of the writer currently chosen |
| Exporter.Export.AllHoldAppend | src/Export.php:95-119 | the stored state of the sheets so far, plus the next one, is the stored state of one more sheet |
| Exporter.Export.FlattenData | src/Export.php:211-239 | the loop returns the walk's records and appends the walk's regions, in pre-order, to the current sheet's merge list and to no other |
| Exporter.Export.FlattenEntry | src/Export.php:214-236 | one pass of the loop moves the walk on by one entry and changes only the current sheet's merge list |
| Exporter.Export.FlattenGroup | src/Export.php:217-233 | the group branch appends the group's region, writes the label under the field of the leaf column at the absolute start column, and walks the children one column to the right |
| Exporter.Export.BuildSheet | src/Export.php:241-257 | buildSheet renders the stored header, layout and records; it applies the sheet's data merges only when `data_children_cell_merge` is on |
| Exporter.Export.ResetSheet | src/Export.php:96-101 | the sheet becomes current, its configuration is merged over the defaults, its trees are resolved and its merge list is emptied |
| Exporter.Export.StoreSheet | src/Export.php:103-110 | the header height is `max` of the top-level rowSpans; the leaf list, the layout, the records and the appended regions are stored for the current sheet only |
| Exporter.Export.StoredPlan | src/Export.php:101-110 | what is stored for a sheet whose merge list was reset is exactly that sheet's plan |
| Exporter.Export.BuildOne | src/Export.php:95-119 | one pass of build's loop renders the sheet as its plan says, stores its plan under its index and changes no other sheet's tables; with an empty header it stops after resetting the merge list |
| Exporter.Export.BuildStored | src/Export.php:103-118 | for a sheet with a header, storing and building yields the sheet's rendering and its plan under its index |
| Exporter.Export.Build | src/Export.php:90-122 | a non-empty argument replaces the data; every sheet up to the first empty header is rendered from its plan with its plan stored; success means no sheet header is empty; on failure the failing sheet's merge list is left empty |
| Exporter.Export.BuildSheets | src/Export.php:95-119 | the loop builds the sheets in order and stops at the first empty header, whose merge list it leaves empty; all built sheets keep their stored plans |
| Exporter.Export.PlannedHold | src/Export.php:95-119 | the loop invariant over plans gives the stored state and rendering of each built sheet |
| Fixture.ResolveThreeLeaves | src/Export.php:132-143 | three sibling leaves each resolve to one column, one row and depth 1 |
| Fixture.BranchOverThreeLeaves | src/Export.php:127-131 | a group over three leaves gets colSpan 3, rowSpan 1 and depth 2 |
| Fixture.FirstPassOfShape | src/Export.php:126-136 | the first loop over two three-leaf groups and a leaf gives the groups 3/1/2 and the leaf 1/1/1 |
| Fixture.TwoGroupsAndLeafSpans | src/Export.php:124-144 | such a header resolves to two 3-wide, 2-deep groups and a leaf stretched to 2 rows, and reserves 2 header rows |
| Fixture.UnitCellsNoMerges | src/Export.php:282 | a row of one-by-one cells asks for no merge |
| Fixture.BelowUnitLeaves | src/Export.php:186-193 | branches over plain leaves put only one-by-one cells in the row below |
| Fixture.TopRowMerges | src/Export.php:281-284 | a row of two 3-wide cells and a 2-tall cell asks for these three merges |
| Fixture.TwoGroupsAndLeafMerges | src/Export.php:259-288 | the header merges of that shape are A1:C1, D1:F1 and G1:G2 |
| Fixture.FixtureHeaderSpans | tests/ExportTest.php:31-83 | in the test header, address gets colSpan 3, rowSpan 1 and depth 2, created_at gets rowSpan 2, and the header takes 2 rows |
| Fixture.FixtureHeaderMerges | tests/ExportTest.php:31-83 | the test header merges [1,1,3,1], [4,1,6,1] and [7,1,7,2] |
| Fixture.SumOfOnes | src/Export.php:151 | the sum of record spans is the record count |
| Fixture.ResolveGroupOfRecords | src/Export.php:146-157 | a group of records spans its record count |
| Fixture.RecordsAddNoRegion | src/Export.php:214-216 | a run of records adds no merge region |
| Fixture.StackOfThree | src/Export.php:218-235 | three consecutive regions in one column, each directly below the previous |
| Fixture.GroupsOfRecordsStack | src/Export.php:218-235 | sibling groups of records stack their regions in one column, each directly below the previous |
| Fixture.ResolveGroupOfGroups | src/Export.php:146-157 | a group of groups of records spans the sum of its children's record counts |
| Fixture.ThreeGroupsOfRecords | src/Export.php:218-235 | three groups of records give three regions stacked in their column |
| Fixture.WuhanSpans | tests/ExportTest.php:97-152 | 武汉市's districts span 3, 2 and 1 rows, and 武汉市 spans 6 |
| Fixture.WuhanLayout | tests/ExportTest.php:97-152 | from row 4 in column 3, 武汉市's districts take rows 4-6, 7-8 and 9 |
| Fixture.XianningLayout | tests/ExportTest.php:153-174 | 咸宁市 spans 2 rows; its district takes rows 10-11 of column 3 |
| Fixture.TwoCities | src/Export.php:217-235 | two sibling cities of 6 and 2 rows from row 4: each city's region comes before its districts' regions, and the second city starts at row 10 |
| Fixture.HubeiLayout | tests/ExportTest.php:94-176 | 湖北 spans 8 rows; its cities take rows 4-9 and 10-11 of column 2, each followed by its districts |
| Fixture.FixtureDataMerges | tests/ExportTest.php:84-186 | the test data, flattened from row 3 (start_row 1 below a 2-row header), merges [1,4,1,11], [2,4,2,9], [3,4,3,6], [3,7,3,8], [3,9,3,9], [2,10,2,11] and [3,10,3,11], in pre-order |

## Left out

- PhpSpreadsheet itself is not modelled: the default alignment style, `createSheet`/`setTitle`, fonts, column widths and auto-size, row height, the actual `mergeCells` and `setCellValue` calls, `IOFactory::createWriter` and `save`. `Rendered` records what `buildSheet` hands to those calls (src/Export.php:80-83, 112-116, 247-279, 315). Which worksheet PhpSpreadsheet treats as active is not modelled either.
- The `format` and `custom` column callbacks of `buildSheetData` are caller-supplied closures. A data cell holds the record's raw value (src/Export.php:297-306).
- `export` is not modelled because it only saves through the writer (src/Export.php:312-318).
- The clock, the filesystem and the callables of `resolveFileName` are not modelled: `date`, `microtime`, `is_dir`, `mkdir`, and the date or file-name closures. The date string and the file name are inputs, and `DIRECTORY_SEPARATOR` is a parameter (src/Export.php:328-339).
- FileName.Lower: models `strtolower` on ASCII letters only, which is all the three writer names contain.
- The `data` getter/setter and the static `make` are not modelled. Both only assign or return the data field; `Build` models the data replacement that `build` performs.
- Only five configuration keys are modelled: `sheet_name`, `data_children_text_key`, `data_children_cell_merge`, `start_row` and `start_column`.
  - `data_children_key` and `data_value_key` are never read by the code.
  - The alignment, font, width and height keys only feed the renderer.
- Records are `map<string, Value>`, so these PHP array details are not modelled:
  - the key order of a record;
  - `array_merge`'s renumbering of integer keys;
  - values other than null, integers and strings.
- A record that carries an explicit empty `children` list loses that key in the model: `DataNode` keeps `children` apart from the other keys, whereas `array_merge($item, $value)` keeps `children => []` in the flat record (src/Export.php:215).
- A header node without `field` or `name` is not modelled (PHP would read null with a warning). Both are strings here, and a missing `config` is the empty map.
- Exporter.Export.Build: sheets are taken in list order, indexed 0, 1, …. The string or sparse keys a PHP array may carry are not modelled.
- Exporter.Export.Build: the exception `max` raises on an empty header is modelled as `ok == false`, with the earlier sheets built.
- PHP's 64-bit integer overflow is not modelled: spans and rows are unbounded integers. A span would need more than 2^63 records to overflow.
- The test file's data records keep only `name`, plus `province` and `city` on the two top-level records. The header columns drop their `config` arrays: a width and the two callbacks. None of these affects the spans, the layout or the merges. The test method only prints the export result (tests/ExportTest.php:191-196).
