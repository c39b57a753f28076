/** The row-group data tree: the span resolver (`resolveDataMerge`) and the
    specification of `flattenData`, the walk that turns the tree into flat
    records and vertical merge regions. The stateful walk itself, which
    appends to the exporter's merge list, is `Exporter.Export.FlattenData`. */
module DataTree {
  import opened Values
  import Header

  /** A data node: every key of the caller's array except `children`, and the
      `children` list (empty when absent). A node with children is a group
      whose label sits under the configured text key; any other node is a
      record. */
  datatype DataNode = DataNode(fields: Record, children: seq<DataNode>)

  /** PHP truthiness of `$value['children']`: an empty list is a record. */
  predicate IsGroup(n: DataNode)
  {
    |n.children| > 0
  }

  /** `$value['_merge_row']` as an integer. The resolver always stores an
      integer there; anything else reads as 0. */
  function SpanOf(n: DataNode): int
  {
    if MergeRowKey in n.fields && n.fields[MergeRowKey].Int? then n.fields[MergeRowKey].i else 0
  }

  /** `array_column($nodes, '_merge_row')`. */
  function Spans(ns: seq<DataNode>): seq<int>
  {
    seq(|ns|, k requires 0 <= k < |ns| => SpanOf(ns[k]))
  }

  // ---------------------------------------------------------------------
  // resolveDataMerge
  // ---------------------------------------------------------------------

  /** The loop body of resolveDataMerge for one node: a group is resolved
      below first and then spans the sum of its children's spans; a record
      gets `_merge_col` and `_merge_row` set to 1. A group's `_merge_col` is
      left as the caller wrote it. */
  function ResolveDataNode(n: DataNode): DataNode
    decreases n, 1
  {
    if IsGroup(n) then
      var children := ResolveData(n.children);
      DataNode(n.fields[MergeRowKey := Int(Sum(Spans(children)))], children)
    else
      DataNode(n.fields[MergeColKey := Int(1)][MergeRowKey := Int(1)], n.children)
  }

  function ResolveData(ns: seq<DataNode>): (r: seq<DataNode>)
    decreases ns, 0
    ensures |r| == |ns|
  {
    seq(|ns|, k requires 0 <= k < |ns| => ResolveDataNode(ns[k]))
  }

  /** resolveDataMerge: the by-reference array is an in/out parameter. */
  method ResolveDataMerge(data: seq<DataNode>) returns (out: seq<DataNode>)
    ensures out == ResolveData(data)
    decreases data
  {
    out := data;
    var i := 0;
    while i < |out|
      invariant 0 <= i <= |out| == |data|
      invariant forall k :: 0 <= k < i ==> out[k] == ResolveDataNode(data[k])
      invariant forall k :: i <= k < |out| ==> out[k] == data[k]
    {
      var value := out[i];
      if |value.children| > 0 {
        var children := ResolveDataMerge(value.children);
        value := DataNode(value.fields[MergeRowKey := Int(Sum(Spans(children)))], children);
      } else {
        value := DataNode(value.fields[MergeColKey := Int(1)][MergeRowKey := Int(1)], value.children);
      }
      out := out[i := value];
      i := i + 1;
    }
  }

  /** The number of records under a list of nodes. */
  function LeafCount(ns: seq<DataNode>): nat
    decreases ns
  {
    if |ns| == 0 then 0
    else (if IsGroup(ns[0]) then LeafCount(ns[0].children) else 1) + LeafCount(ns[1..])
  }

  predicate NodeResolved(n: DataNode)
    decreases n, 0
  {
    if IsGroup(n) then
      && Resolved(n.children)
      && Get(n.fields, MergeRowKey) == Int(LeafCount(n.children))
    else
      && Get(n.fields, MergeRowKey) == Int(1)
      && Get(n.fields, MergeColKey) == Int(1)
  }

  /** The span invariant of a data tree: every record spans one row and one
      column, every group as many rows as it has records below it. */
  predicate Resolved(ns: seq<DataNode>)
    decreases ns, 1
  {
    forall k :: 0 <= k < |ns| ==> NodeResolved(ns[k])
  }

  /** The keys the resolver writes. */
  const AnnotationKeys: set<string> := {MergeRowKey, MergeColKey}

  /** The same tree as the caller wrote it, annotations aside. */
  predicate SameShape(a: seq<DataNode>, b: seq<DataNode>)
    decreases a
  {
    && |a| == |b|
    && forall k :: 0 <= k < |a| ==>
         && a[k].fields - AnnotationKeys == b[k].fields - AnnotationKeys
         && SameShape(a[k].children, b[k].children)
  }

  lemma {:induction false} SpanSumIsLeafCount(ns: seq<DataNode>)
    requires Resolved(ns)
    ensures Sum(Spans(ns)) == LeafCount(ns)
    decreases ns
  {
    if |ns| > 0 {
      assert Spans(ns)[1..] == Spans(ns[1..]);
      assert NodeResolved(ns[0]);
      SpanSumIsLeafCount(ns[1..]);
    }
  }

  lemma {:induction false} ResolveDataIsResolved(ns: seq<DataNode>)
    ensures Resolved(ResolveData(ns))
    ensures SameShape(ResolveData(ns), ns)
    decreases ns
  {
    var r := ResolveData(ns);
    forall k | 0 <= k < |ns|
      ensures NodeResolved(r[k])
      ensures r[k].fields - AnnotationKeys == ns[k].fields - AnnotationKeys
      ensures SameShape(r[k].children, ns[k].children)
    {
      assert r[k] == ResolveDataNode(ns[k]);
      if IsGroup(ns[k]) {
        ResolveDataIsResolved(ns[k].children);
        SpanSumIsLeafCount(r[k].children);
      }
    }
  }

  lemma {:induction false} ResolveDataKeepsResolved(ns: seq<DataNode>)
    requires Resolved(ns)
    ensures ResolveData(ns) == ns
    decreases ns
  {
    var r := ResolveData(ns);
    forall k | 0 <= k < |ns|
      ensures r[k] == ns[k]
    {
      var n := ns[k];
      assert r[k] == ResolveDataNode(n);
      assert NodeResolved(n);
      if IsGroup(n) {
        ResolveDataKeepsResolved(n.children);
        SpanSumIsLeafCount(n.children);
        assert n.fields[MergeRowKey := Int(LeafCount(n.children))] == n.fields;
      } else {
        assert n.fields[MergeColKey := Int(1)][MergeRowKey := Int(1)] == n.fields;
      }
    }
  }

  /** Running the resolver on a resolved tree changes nothing. */
  lemma ResolveDataIdempotent(ns: seq<DataNode>)
    ensures ResolveData(ResolveData(ns)) == ResolveData(ns)
  {
    ResolveDataIsResolved(ns);
    ResolveDataKeepsResolved(ResolveData(ns));
  }

  /** A non-empty list of nodes holds at least one record. */
  lemma {:induction false} LeafCountPositive(ns: seq<DataNode>)
    requires |ns| > 0
    ensures LeafCount(ns) >= 1
    decreases ns
  {
    if IsGroup(ns[0]) {
      LeafCountPositive(ns[0].children);
    }
  }

  // ---------------------------------------------------------------------
  // flattenData
  // ---------------------------------------------------------------------

  /** `$this->flattenHeader[$sheet][$startColumn - 1]['field']`: the leaf
      column at the absolute column, 1-based. Past either end PHP reads null
      and the label lands under the key "". */
  function FieldAt(leaves: seq<Header.Column>, column: int): string
  {
    if 0 <= column - 1 < |leaves| then leaves[column - 1].field else ""
  }

  /** `$value[$config['data_children_text_key']]`. */
  function Label(n: DataNode, textKey: string): Value
  {
    Get(n.fields, textKey)
  }

  datatype Flat = Flat(records: seq<Record>, merges: seq<Rect>)

  /** flattenData on a sibling list, the cursor at `startRow`, the groups of
      this level in column `startColumn`, `item` the context inherited from
      the enclosing groups. A record is emitted as the context overlaid with
      its own keys and takes one row. A group first records the region
      `[col, row, col, row + span - 1]`, stores its label in the context
      (where it stays for the later siblings too), flattens its children one
      column to the right from the same row, and moves the cursor by
      `span - 1` and then by 1. */
  function FlattenData(data: seq<DataNode>, startRow: int, startColumn: int, item: Record,
                       leaves: seq<Header.Column>, textKey: string): Flat
    decreases data
  {
    if |data| == 0 then Flat([], [])
    else
      var value := data[0];
      if !IsGroup(value) then
        var rest := FlattenData(data[1..], startRow + 1, startColumn, item, leaves, textKey);
        Flat([item + value.fields] + rest.records, rest.merges)
      else
        var span := SpanOf(value);
        var region := Rect(startColumn, startRow, startColumn, startRow + span - 1);
        var labelled := item[FieldAt(leaves, startColumn) := Label(value, textKey)];
        var inner := FlattenData(value.children, startRow, startColumn + 1, labelled, leaves, textKey);
        var rest := FlattenData(data[1..], startRow + span - 1 + 1, startColumn, labelled, leaves, textKey);
        Flat(inner.records + rest.records, [region] + inner.merges + rest.merges)
  }

  /** A rectangle moved down by `d` rows. */
  function ShiftRect(m: Rect, d: int): Rect
  {
    Rect(m.col, m.row + d, m.col2, m.row2 + d)
  }

  /** The rectangles moved down by `d` rows. */
  function ShiftRows(ms: seq<Rect>, d: int): (r: seq<Rect>)
    ensures |r| == |ms|
  {
    if |ms| == 0 then [] else [ShiftRect(ms[0], d)] + ShiftRows(ms[1..], d)
  }

  lemma {:induction false} ShiftRowsConcat(a: seq<Rect>, b: seq<Rect>, d: int)
    ensures ShiftRows(a + b, d) == ShiftRows(a, d) + ShiftRows(b, d)
    decreases |a|
  {
    if |a| == 0 {
      assert a + b == b;
    } else {
      assert (a + b)[0] == a[0] && (a + b)[1..] == a[1..] + b;
      ShiftRowsConcat(a[1..], b, d);
      var x := [ShiftRect(a[0], d)];
      assert ShiftRows(a + b, d) == x + (ShiftRows(a[1..], d) + ShiftRows(b, d));
      assert x + (ShiftRows(a[1..], d) + ShiftRows(b, d)) == (x + ShiftRows(a[1..], d)) + ShiftRows(b, d);
    }
  }

  /** The shift of a group step, from the shifts of its children's walk and
      of its siblings' walk. */
  lemma ShiftGroupStep(data: seq<DataNode>, startRow: int, startColumn: int, item: Record,
                       leaves: seq<Header.Column>, textKey: string, d: int,
                       labelled: Record, inner: Flat, rest: Flat, innerLow: Flat, restLow: Flat)
    requires |data| > 0 && IsGroup(data[0])
    requires labelled == item[FieldAt(leaves, startColumn) := Label(data[0], textKey)]
    requires inner == FlattenData(data[0].children, startRow, startColumn + 1, labelled, leaves, textKey)
    requires rest == FlattenData(data[1..], startRow + SpanOf(data[0]) - 1 + 1, startColumn, labelled, leaves, textKey)
    requires innerLow == FlattenData(data[0].children, startRow + d, startColumn + 1, labelled, leaves, textKey)
    requires restLow == FlattenData(data[1..], startRow + d + SpanOf(data[0]) - 1 + 1, startColumn, labelled, leaves, textKey)
    requires innerLow.records == inner.records && innerLow.merges == ShiftRows(inner.merges, d)
    requires restLow.records == rest.records && restLow.merges == ShiftRows(rest.merges, d)
    ensures
      var here := FlattenData(data, startRow, startColumn, item, leaves, textKey);
      var lower := FlattenData(data, startRow + d, startColumn, item, leaves, textKey);
      lower.records == here.records && lower.merges == ShiftRows(here.merges, d)
  {
    var span := SpanOf(data[0]);
    var region := Rect(startColumn, startRow, startColumn, startRow + span - 1);
    var here := FlattenData(data, startRow, startColumn, item, leaves, textKey);
    var lower := FlattenData(data, startRow + d, startColumn, item, leaves, textKey);
    assert here.records == inner.records + rest.records && here.merges == [region] + inner.merges + rest.merges by {
      UnfoldGroupAt(data, startRow, startColumn, item, leaves, textKey, labelled, inner, rest);
    }
    assert lower.records == here.records && lower.merges == [ShiftRect(region, d)] + innerLow.merges + restLow.merges by {
      UnfoldGroupAt(data, startRow + d, startColumn, item, leaves, textKey, labelled, innerLow, restLow);
    }
    assert ShiftRows([region], d) == [ShiftRect(region, d)];
    ShiftRowsConcat([region], inner.merges, d);
    ShiftRowsConcat([region] + inner.merges, rest.merges, d);
  }

  /** The start row only moves the regions: starting `d` rows lower gives
      the same records and every region `d` rows lower. */
  lemma {:induction false} FlattenDataShift(data: seq<DataNode>, startRow: int, startColumn: int, item: Record,
                                            leaves: seq<Header.Column>, textKey: string, d: int)
    ensures
      var here := FlattenData(data, startRow, startColumn, item, leaves, textKey);
      var lower := FlattenData(data, startRow + d, startColumn, item, leaves, textKey);
      lower.records == here.records && lower.merges == ShiftRows(here.merges, d)
    decreases data
  {
    if |data| > 0 {
      var value := data[0];
      if !IsGroup(value) {
        FlattenDataShift(data[1..], startRow + 1, startColumn, item, leaves, textKey, d);
        assert startRow + 1 + d == startRow + d + 1;
      } else {
        var labelled := item[FieldAt(leaves, startColumn) := Label(value, textKey)];
        var restRow := startRow + SpanOf(value) - 1 + 1;
        FlattenDataShift(value.children, startRow, startColumn + 1, labelled, leaves, textKey, d);
        FlattenDataShift(data[1..], restRow, startColumn, labelled, leaves, textKey, d);
        assert restRow + d == startRow + d + SpanOf(value) - 1 + 1;
        ShiftGroupStep(data, startRow, startColumn, item, leaves, textKey, d, labelled,
                       FlattenData(value.children, startRow, startColumn + 1, labelled, leaves, textKey),
                       FlattenData(data[1..], restRow, startColumn, labelled, leaves, textKey),
                       FlattenData(value.children, startRow + d, startColumn + 1, labelled, leaves, textKey),
                       FlattenData(data[1..], restRow + d, startColumn, labelled, leaves, textKey));
      }
    }
  }

  /** Proof step, not a property: the walk of a list that starts with a
      record, unfolded one step. */
  lemma UnfoldRecord(data: seq<DataNode>, startRow: int, startColumn: int, item: Record,
                     leaves: seq<Header.Column>, textKey: string)
    requires |data| > 0 && !IsGroup(data[0])
    ensures
      var rest := FlattenData(data[1..], startRow + 1, startColumn, item, leaves, textKey);
      FlattenData(data, startRow, startColumn, item, leaves, textKey)
        == Flat([item + data[0].fields] + rest.records, rest.merges)
  {
  }

  /** Proof step, not a property: the walk of a list that starts with a
      resolved group, unfolded one step. */
  lemma UnfoldGroup(data: seq<DataNode>, startRow: int, startColumn: int, item: Record,
                    leaves: seq<Header.Column>, textKey: string)
    requires |data| > 0 && IsGroup(data[0]) && SpanOf(data[0]) == LeafCount(data[0].children)
    ensures
      var span := LeafCount(data[0].children);
      var labelled := item[FieldAt(leaves, startColumn) := Label(data[0], textKey)];
      var inner := FlattenData(data[0].children, startRow, startColumn + 1, labelled, leaves, textKey);
      var rest := FlattenData(data[1..], startRow + span, startColumn, labelled, leaves, textKey);
      FlattenData(data, startRow, startColumn, item, leaves, textKey)
        == Flat(inner.records + rest.records,
                [Rect(startColumn, startRow, startColumn, startRow + span - 1)] + inner.merges + rest.merges)
  {
  }

  /** Proof step, not a property: the walk of a list that starts with a
      group, unfolded one step, for
      any value under the group's `_merge_row` key: the region, then the
      children's walk one column to the right under the labelled context,
      then the siblings' walk below the region under that same context. */
  lemma UnfoldGroupAt(data: seq<DataNode>, startRow: int, startColumn: int, item: Record,
                      leaves: seq<Header.Column>, textKey: string,
                      labelled: Record, inner: Flat, rest: Flat)
    requires |data| > 0 && IsGroup(data[0])
    requires labelled == item[FieldAt(leaves, startColumn) := Label(data[0], textKey)]
    requires inner == FlattenData(data[0].children, startRow, startColumn + 1, labelled, leaves, textKey)
    requires rest == FlattenData(data[1..], startRow + SpanOf(data[0]) - 1 + 1, startColumn, labelled, leaves, textKey)
    ensures FlattenData(data, startRow, startColumn, item, leaves, textKey)
      == Flat(inner.records + rest.records,
              [Rect(startColumn, startRow, startColumn, startRow + SpanOf(data[0]) - 1)] + inner.merges + rest.merges)
  {
  }

  /** The context a sibling list hands on: the inherited one with the label of
      each group of the list written over it in turn. */
  function ContextAfter(data: seq<DataNode>, startColumn: int, item: Record,
                        leaves: seq<Header.Column>, textKey: string): Record
    decreases data
  {
    if |data| == 0 then item
    else
      var next := if IsGroup(data[0]) then item[FieldAt(leaves, startColumn) := Label(data[0], textKey)] else item;
      ContextAfter(data[1..], startColumn, next, leaves, textKey)
  }

  /** The records of the tree, depth first, left to right. */
  function RecordLeaves(ns: seq<DataNode>): seq<DataNode>
    decreases ns
  {
    if |ns| == 0 then []
    else (if IsGroup(ns[0]) then RecordLeaves(ns[0].children) else [ns[0]]) + RecordLeaves(ns[1..])
  }

  /** The groups of the tree, each before the groups inside it. */
  function Groups(ns: seq<DataNode>): seq<DataNode>
    decreases ns
  {
    if |ns| == 0 then []
    else (if IsGroup(ns[0]) then [ns[0]] + Groups(ns[0].children) else []) + Groups(ns[1..])
  }

  /** A record emitted for `leaf` in context `item`: it keeps every context
      key, and the leaf's own keys win over the context. */
  predicate Carries(rec: Record, item: Record, leaf: DataNode)
  {
    && item.Keys <= rec.Keys
    && forall key :: key in leaf.fields ==> key in rec && rec[key] == leaf.fields[key]
  }

  /** One record per record leaf. */
  lemma {:induction false} FlattenDataCount(data: seq<DataNode>, startRow: int, startColumn: int, item: Record,
                                            leaves: seq<Header.Column>, textKey: string)
    ensures |FlattenData(data, startRow, startColumn, item, leaves, textKey).records| == |RecordLeaves(data)| == LeafCount(data)
    decreases data
  {
    if |data| > 0 {
      var value := data[0];
      var records := FlattenData(data, startRow, startColumn, item, leaves, textKey).records;
      if !IsGroup(value) {
        var rest := FlattenData(data[1..], startRow + 1, startColumn, item, leaves, textKey).records;
        FlattenDataCount(data[1..], startRow + 1, startColumn, item, leaves, textKey);
        assert |records| == 1 + |rest| by {
          UnfoldRecord(data, startRow, startColumn, item, leaves, textKey);
        }
      } else {
        var labelled := item[FieldAt(leaves, startColumn) := Label(value, textKey)];
        var restRow := startRow + SpanOf(value) - 1 + 1;
        var inner := FlattenData(value.children, startRow, startColumn + 1, labelled, leaves, textKey).records;
        var rest := FlattenData(data[1..], restRow, startColumn, labelled, leaves, textKey).records;
        FlattenDataCount(value.children, startRow, startColumn + 1, labelled, leaves, textKey);
        FlattenDataCount(data[1..], restRow, startColumn, labelled, leaves, textKey);
        assert |records| == |inner| + |rest|;
      }
    }
  }


  /** The records of a walk, one per record leaf, each carrying `item`. */
  predicate RecordsMatch(records: seq<Record>, item: Record, leafNodes: seq<DataNode>)
  {
    && |records| == |leafNodes|
    && forall k :: 0 <= k < |records| ==> Carries(records[k], item, leafNodes[k])
  }

  lemma RecordsMatchConcat(r1: seq<Record>, r2: seq<Record>, item: Record, context: Record,
                           l1: seq<DataNode>, l2: seq<DataNode>)
    requires item.Keys <= context.Keys
    requires RecordsMatch(r1, context, l1) && RecordsMatch(r2, context, l2)
    ensures RecordsMatch(r1 + r2, item, l1 + l2)
  {
    forall k | 0 <= k < |r1 + r2|
      ensures Carries((r1 + r2)[k], item, (l1 + l2)[k])
    {
      if k < |r1| {
        assert Carries(r1[k], context, l1[k]);
      } else {
        assert Carries(r2[k - |r1|], context, l2[k - |r1|]);
      }
    }
  }

  /** The records come in depth-first left-to-right order of the record
      leaves; each keeps every key of the inherited context, and holds the
      leaf's own keys with the leaf's values, which win over the context.
      `ContextValuesKept` and `NoStrayKeys` give the rest of the overlay. */
  lemma {:induction false} FlattenDataRecords(data: seq<DataNode>, startRow: int, startColumn: int, item: Record,
                                              leaves: seq<Header.Column>, textKey: string)
    ensures RecordsMatch(FlattenData(data, startRow, startColumn, item, leaves, textKey).records, item, RecordLeaves(data))
    decreases data
  {
    if |data| > 0 {
      var value := data[0];
      var records := FlattenData(data, startRow, startColumn, item, leaves, textKey).records;
      if !IsGroup(value) {
        var rest := FlattenData(data[1..], startRow + 1, startColumn, item, leaves, textKey).records;
        FlattenDataRecords(data[1..], startRow + 1, startColumn, item, leaves, textKey);
        assert records == [item + value.fields] + rest;
        assert RecordLeaves(data) == [value] + RecordLeaves(data[1..]);
        assert RecordsMatch([item + value.fields], item, [value]);
        RecordsMatchConcat([item + value.fields], rest, item, item, [value], RecordLeaves(data[1..]));
      } else {
        var labelled := item[FieldAt(leaves, startColumn) := Label(value, textKey)];
        var restRow := startRow + SpanOf(value) - 1 + 1;
        var inner := FlattenData(value.children, startRow, startColumn + 1, labelled, leaves, textKey).records;
        var rest := FlattenData(data[1..], restRow, startColumn, labelled, leaves, textKey).records;
        FlattenDataRecords(value.children, startRow, startColumn + 1, labelled, leaves, textKey);
        FlattenDataRecords(data[1..], restRow, startColumn, labelled, leaves, textKey);
        assert records == inner + rest;
        assert RecordLeaves(data) == RecordLeaves(value.children) + RecordLeaves(data[1..]);
        RecordsMatchConcat(inner, rest, item, labelled, RecordLeaves(value.children), RecordLeaves(data[1..]));
      }
    }
  }

  /** Some column at or right of `column` stores its group labels under
      `key`, so a group of that level or deeper may overwrite `key` in the
      context. */
  ghost predicate Shadowed(key: string, column: int, leaves: seq<Header.Column>)
  {
    exists c :: c >= column && FieldAt(leaves, c) == key
  }

  /** `rec`, emitted for `leaf`, shows the value `item` holds under every key
      the leaf does not set and no group from `column` on may overwrite. */
  ghost predicate KeptIn(rec: Record, item: Record, leaf: DataNode, column: int, leaves: seq<Header.Column>)
  {
    forall key :: key in item && key !in leaf.fields && !Shadowed(key, column, leaves) ==>
      key in rec && rec[key] == item[key]
  }

  ghost predicate RecordsKept(records: seq<Record>, item: Record, leafNodes: seq<DataNode>,
                              column: int, leaves: seq<Header.Column>)
  {
    && |records| == |leafNodes|
    && forall k :: 0 <= k < |records| ==> KeptIn(records[k], item, leafNodes[k], column, leaves)
  }

  /** `context` agrees with `item` on every key no group from `column` on may
      overwrite. */
  ghost predicate Agrees(context: Record, item: Record, column: int, leaves: seq<Header.Column>)
  {
    forall key :: key in item && !Shadowed(key, column, leaves) ==> key in context && context[key] == item[key]
  }

  lemma RecordsKeptConcat(r1: seq<Record>, r2: seq<Record>, item: Record, column: int,
                          c1: Record, col1: int, c2: Record, col2: int,
                          l1: seq<DataNode>, l2: seq<DataNode>, leaves: seq<Header.Column>)
    requires col1 >= column && col2 >= column
    requires Agrees(c1, item, column, leaves) && Agrees(c2, item, column, leaves)
    requires RecordsKept(r1, c1, l1, col1, leaves) && RecordsKept(r2, c2, l2, col2, leaves)
    ensures RecordsKept(r1 + r2, item, l1 + l2, column, leaves)
  {
    forall k | 0 <= k < |r1 + r2|
      ensures KeptIn((r1 + r2)[k], item, (l1 + l2)[k], column, leaves)
    {
      forall key | key in item && key !in (l1 + l2)[k].fields && !Shadowed(key, column, leaves)
        ensures key in (r1 + r2)[k] && (r1 + r2)[k][key] == item[key]
      {
        assert !Shadowed(key, col1, leaves) && !Shadowed(key, col2, leaves);
        if k < |r1| {
          assert KeptIn(r1[k], c1, l1[k], col1, leaves);
        } else {
          assert KeptIn(r2[k - |r1|], c2, l2[k - |r1|], col2, leaves);
        }
      }
    }
  }

  /** The context values reach the records: every record shows the value the
      inherited context holds under a key, unless the record sets that key
      itself or a group at `startColumn` or deeper stores its label under
      it. */
  lemma {:induction false} ContextValuesKept(data: seq<DataNode>, startRow: int, startColumn: int, item: Record,
                                             leaves: seq<Header.Column>, textKey: string)
    ensures RecordsKept(FlattenData(data, startRow, startColumn, item, leaves, textKey).records,
                        item, RecordLeaves(data), startColumn, leaves)
    decreases data
  {
    if |data| > 0 {
      var value := data[0];
      var records := FlattenData(data, startRow, startColumn, item, leaves, textKey).records;
      assert Agrees(item, item, startColumn, leaves);
      if !IsGroup(value) {
        var rest := FlattenData(data[1..], startRow + 1, startColumn, item, leaves, textKey).records;
        ContextValuesKept(data[1..], startRow + 1, startColumn, item, leaves, textKey);
        assert records == [item + value.fields] + rest;
        assert RecordLeaves(data) == [value] + RecordLeaves(data[1..]);
        assert RecordsKept([item + value.fields], item, [value], startColumn, leaves);
        RecordsKeptConcat([item + value.fields], rest, item, startColumn, item, startColumn, item, startColumn,
                          [value], RecordLeaves(data[1..]), leaves);
      } else {
        var labelled := item[FieldAt(leaves, startColumn) := Label(value, textKey)];
        var restRow := startRow + SpanOf(value) - 1 + 1;
        var inner := FlattenData(value.children, startRow, startColumn + 1, labelled, leaves, textKey).records;
        var rest := FlattenData(data[1..], restRow, startColumn, labelled, leaves, textKey).records;
        ContextValuesKept(value.children, startRow, startColumn + 1, labelled, leaves, textKey);
        ContextValuesKept(data[1..], restRow, startColumn, labelled, leaves, textKey);
        assert Agrees(labelled, item, startColumn, leaves) by {
          forall key | key in item && !Shadowed(key, startColumn, leaves)
            ensures key in labelled && labelled[key] == item[key]
          {
            assert key != FieldAt(leaves, startColumn);
          }
        }
        assert records == inner + rest;
        assert RecordLeaves(data) == RecordLeaves(value.children) + RecordLeaves(data[1..]);
        RecordsKeptConcat(inner, rest, item, startColumn, labelled, startColumn + 1, labelled, startColumn,
                          RecordLeaves(value.children), RecordLeaves(data[1..]), leaves);
      }
    }
  }

  /** Every key of `rec`, emitted for `leaf`, comes from the context, from
      the leaf itself, or from a label stored by a group from `column` on. */
  ghost predicate KeysFrom(rec: Record, item: Record, leaf: DataNode, column: int, leaves: seq<Header.Column>)
  {
    forall key :: key in rec ==> key in item || key in leaf.fields || Shadowed(key, column, leaves)
  }

  ghost predicate RecordsBounded(records: seq<Record>, item: Record, leafNodes: seq<DataNode>,
                                 column: int, leaves: seq<Header.Column>)
  {
    && |records| == |leafNodes|
    && forall k :: 0 <= k < |records| ==> KeysFrom(records[k], item, leafNodes[k], column, leaves)
  }

  /** Every key of `context` is a key of `item` or one a group from `column`
      on may store a label under. */
  ghost predicate WithinContext(context: Record, item: Record, column: int, leaves: seq<Header.Column>)
  {
    forall key :: key in context ==> key in item || Shadowed(key, column, leaves)
  }

  lemma RecordsBoundedConcat(r1: seq<Record>, r2: seq<Record>, item: Record, column: int,
                             c1: Record, col1: int, c2: Record, col2: int,
                             l1: seq<DataNode>, l2: seq<DataNode>, leaves: seq<Header.Column>)
    requires col1 >= column && col2 >= column
    requires WithinContext(c1, item, column, leaves) && WithinContext(c2, item, column, leaves)
    requires RecordsBounded(r1, c1, l1, col1, leaves) && RecordsBounded(r2, c2, l2, col2, leaves)
    ensures RecordsBounded(r1 + r2, item, l1 + l2, column, leaves)
  {
    forall k | 0 <= k < |r1 + r2|
      ensures KeysFrom((r1 + r2)[k], item, (l1 + l2)[k], column, leaves)
    {
      forall key | key in (r1 + r2)[k]
        ensures key in item || key in (l1 + l2)[k].fields || Shadowed(key, column, leaves)
      {
        if k < |r1| {
          assert KeysFrom(r1[k], c1, l1[k], col1, leaves);
          if Shadowed(key, col1, leaves) {
            var c :| c >= col1 && FieldAt(leaves, c) == key;
            assert c >= column;
          }
        } else {
          assert KeysFrom(r2[k - |r1|], c2, l2[k - |r1|], col2, leaves);
          if Shadowed(key, col2, leaves) {
            var c :| c >= col2 && FieldAt(leaves, c) == key;
            assert c >= column;
          }
        }
      }
    }
  }

  /** The other half of the overlay: a record holds no key beyond those of
      the inherited context, those of its own leaf and the label fields of
      the columns from `startColumn` on. */
  lemma {:induction false} NoStrayKeys(data: seq<DataNode>, startRow: int, startColumn: int, item: Record,
                                       leaves: seq<Header.Column>, textKey: string)
    ensures RecordsBounded(FlattenData(data, startRow, startColumn, item, leaves, textKey).records,
                           item, RecordLeaves(data), startColumn, leaves)
    decreases data
  {
    if |data| > 0 {
      var value := data[0];
      var records := FlattenData(data, startRow, startColumn, item, leaves, textKey).records;
      assert WithinContext(item, item, startColumn, leaves);
      if !IsGroup(value) {
        var rest := FlattenData(data[1..], startRow + 1, startColumn, item, leaves, textKey).records;
        NoStrayKeys(data[1..], startRow + 1, startColumn, item, leaves, textKey);
        assert records == [item + value.fields] + rest;
        assert RecordLeaves(data) == [value] + RecordLeaves(data[1..]);
        assert RecordsBounded([item + value.fields], item, [value], startColumn, leaves);
        RecordsBoundedConcat([item + value.fields], rest, item, startColumn, item, startColumn, item, startColumn,
                             [value], RecordLeaves(data[1..]), leaves);
      } else {
        var labelled := item[FieldAt(leaves, startColumn) := Label(value, textKey)];
        var restRow := startRow + SpanOf(value) - 1 + 1;
        var inner := FlattenData(value.children, startRow, startColumn + 1, labelled, leaves, textKey).records;
        var rest := FlattenData(data[1..], restRow, startColumn, labelled, leaves, textKey).records;
        NoStrayKeys(value.children, startRow, startColumn + 1, labelled, leaves, textKey);
        NoStrayKeys(data[1..], restRow, startColumn, labelled, leaves, textKey);
        assert WithinContext(labelled, item, startColumn, leaves) by {
          forall key | key in labelled
            ensures key in item || Shadowed(key, startColumn, leaves)
          {
            if key == FieldAt(leaves, startColumn) {
              assert Shadowed(key, startColumn, leaves);
            }
          }
        }
        assert records == inner + rest;
        assert RecordLeaves(data) == RecordLeaves(value.children) + RecordLeaves(data[1..]);
        RecordsBoundedConcat(inner, rest, item, startColumn, labelled, startColumn + 1, labelled, startColumn,
                             RecordLeaves(value.children), RecordLeaves(data[1..]), leaves);
      }
    }
  }

  /** Each record under a group shows the group's label under the field of
      the group's column, unless the record sets that key itself or a deeper
      column stores its labels under the same field. */
  lemma GroupLabelInherited(data: seq<DataNode>, startRow: int, startColumn: int, item: Record,
                            leaves: seq<Header.Column>, textKey: string, k: int)
    requires |data| > 0 && IsGroup(data[0])
    requires 0 <= k < |RecordLeaves(data[0].children)|
    requires FieldAt(leaves, startColumn) !in RecordLeaves(data[0].children)[k].fields
    requires !Shadowed(FieldAt(leaves, startColumn), startColumn + 1, leaves)
    ensures
      var records := FlattenData(data, startRow, startColumn, item, leaves, textKey).records;
      k < |records| && FieldAt(leaves, startColumn) in records[k] &&
      records[k][FieldAt(leaves, startColumn)] == Label(data[0], textKey)
  {
    var value := data[0];
    var key := FieldAt(leaves, startColumn);
    var labelled := item[key := Label(value, textKey)];
    var inner := FlattenData(value.children, startRow, startColumn + 1, labelled, leaves, textKey).records;
    var restRow := startRow + SpanOf(value) - 1 + 1;
    var rest := FlattenData(data[1..], restRow, startColumn, labelled, leaves, textKey).records;
    var records := FlattenData(data, startRow, startColumn, item, leaves, textKey).records;
    assert records == inner + rest;
    ContextValuesKept(value.children, startRow, startColumn + 1, labelled, leaves, textKey);
    assert KeptIn(inner[k], labelled, RecordLeaves(value.children)[k], startColumn + 1, leaves);
    assert records[k] == inner[k];
  }

  /** Every record of a resolved tree carries the span keys the resolver
      wrote into it, `_merge_row` and `_merge_col` both 1. */
  lemma RecordsCarrySpanKeys(data: seq<DataNode>, startRow: int, startColumn: int, item: Record,
                             leaves: seq<Header.Column>, textKey: string)
    requires Resolved(data)
    ensures forall rec :: rec in FlattenData(data, startRow, startColumn, item, leaves, textKey).records ==>
      Get(rec, MergeRowKey) == Int(1) && Get(rec, MergeColKey) == Int(1)
  {
    var records := FlattenData(data, startRow, startColumn, item, leaves, textKey).records;
    FlattenDataRecords(data, startRow, startColumn, item, leaves, textKey);
    RecordLeavesResolved(data);
    forall rec | rec in records
      ensures Get(rec, MergeRowKey) == Int(1) && Get(rec, MergeColKey) == Int(1)
    {
      var k :| 0 <= k < |records| && records[k] == rec;
      assert NodeResolved(RecordLeaves(data)[k]);
      assert Carries(records[k], item, RecordLeaves(data)[k]);
    }
  }

  lemma {:induction false} RecordLeavesResolved(ns: seq<DataNode>)
    requires Resolved(ns)
    ensures forall k :: 0 <= k < |RecordLeaves(ns)| ==> NodeResolved(RecordLeaves(ns)[k]) && !IsGroup(RecordLeaves(ns)[k])
    decreases ns
  {
    if |ns| > 0 {
      assert NodeResolved(ns[0]);
      RecordLeavesResolved(ns[1..]);
      if IsGroup(ns[0]) {
        RecordLeavesResolved(ns[0].children);
      }
    }
  }

  /** The equation of `FlattenDataSplit`, for one prefix. */
  predicate SplitsAt(a: seq<DataNode>, b: seq<DataNode>, startRow: int, startColumn: int,
                     item: Record, leaves: seq<Header.Column>, textKey: string)
  {
    var whole := FlattenData(a + b, startRow, startColumn, item, leaves, textKey);
    var first := FlattenData(a, startRow, startColumn, item, leaves, textKey);
    var second := FlattenData(b, startRow + LeafCount(a), startColumn,
                              ContextAfter(a, startColumn, item, leaves, textKey), leaves, textKey);
    whole == Flat(first.records + second.records, first.merges + second.merges)
  }

  /** Proof step, not a property: the walk of `a + b` when `a` starts with
      a group, unfolded one step. */
  lemma UnfoldGroupAppend(a: seq<DataNode>, b: seq<DataNode>, startRow: int, startColumn: int,
                          item: Record, leaves: seq<Header.Column>, textKey: string)
    requires |a| > 0 && IsGroup(a[0]) && SpanOf(a[0]) == LeafCount(a[0].children)
    ensures
      var span := LeafCount(a[0].children);
      var labelled := item[FieldAt(leaves, startColumn) := Label(a[0], textKey)];
      var inner := FlattenData(a[0].children, startRow, startColumn + 1, labelled, leaves, textKey);
      var rest := FlattenData(a[1..] + b, startRow + span, startColumn, labelled, leaves, textKey);
      FlattenData(a + b, startRow, startColumn, item, leaves, textKey)
        == Flat(inner.records + rest.records,
                [Rect(startColumn, startRow, startColumn, startRow + span - 1)] + inner.merges + rest.merges)
  {
    assert (a + b)[0] == a[0] && (a + b)[1..] == a[1..] + b;
    UnfoldGroup(a + b, startRow, startColumn, item, leaves, textKey);
  }

  /** Proof step, not a property: the walk of `a + b` when `a` starts with
      a record, unfolded one step. */
  lemma UnfoldRecordAppend(a: seq<DataNode>, b: seq<DataNode>, startRow: int, startColumn: int,
                           item: Record, leaves: seq<Header.Column>, textKey: string)
    requires |a| > 0 && !IsGroup(a[0])
    ensures
      var rest := FlattenData(a[1..] + b, startRow + 1, startColumn, item, leaves, textKey);
      FlattenData(a + b, startRow, startColumn, item, leaves, textKey)
        == Flat([item + a[0].fields] + rest.records, [] + rest.merges)
  {
    assert (a + b)[0] == a[0] && (a + b)[1..] == a[1..] + b;
    UnfoldRecord(a + b, startRow, startColumn, item, leaves, textKey);
    var rest := FlattenData(a[1..] + b, startRow + 1, startColumn, item, leaves, textKey);
    assert [] + rest.merges == rest.merges;
  }

  /** Appending a walk's head to the split of its tail splits the whole. */
  lemma ConcatStep(whole: Flat, first: Flat, restA: Flat, restAB: Flat, second: Flat,
                   head: seq<Record>, headMerges: seq<Rect>)
    requires restAB == Flat(restA.records + second.records, restA.merges + second.merges)
    requires whole == Flat(head + restAB.records, headMerges + restAB.merges)
    requires first == Flat(head + restA.records, headMerges + restA.merges)
    ensures whole == Flat(first.records + second.records, first.merges + second.merges)
  {
    assert head + (restA.records + second.records) == (head + restA.records) + second.records;
    assert headMerges + (restA.merges + second.merges) == (headMerges + restA.merges) + second.merges;
  }

  lemma SplitGroupStep(a: seq<DataNode>, b: seq<DataNode>, startRow: int, startColumn: int,
                       item: Record, leaves: seq<Header.Column>, textKey: string)
    requires |a| > 0 && IsGroup(a[0]) && SpanOf(a[0]) == LeafCount(a[0].children)
    requires SplitsAt(a[1..], b, startRow + LeafCount(a[0].children), startColumn,
                      item[FieldAt(leaves, startColumn) := Label(a[0], textKey)], leaves, textKey)
    ensures SplitsAt(a, b, startRow, startColumn, item, leaves, textKey)
  {
    var span := LeafCount(a[0].children);
    var labelled := item[FieldAt(leaves, startColumn) := Label(a[0], textKey)];
    var inner := FlattenData(a[0].children, startRow, startColumn + 1, labelled, leaves, textKey);
    var head := [Rect(startColumn, startRow, startColumn, startRow + span - 1)] + inner.merges;
    var whole := FlattenData(a + b, startRow, startColumn, item, leaves, textKey);
    var first := FlattenData(a, startRow, startColumn, item, leaves, textKey);
    var restA := FlattenData(a[1..], startRow + span, startColumn, labelled, leaves, textKey);
    var restAB := FlattenData(a[1..] + b, startRow + span, startColumn, labelled, leaves, textKey);
    var second := FlattenData(b, startRow + LeafCount(a), startColumn,
                              ContextAfter(a, startColumn, item, leaves, textKey), leaves, textKey);
    assert restAB == Flat(restA.records + second.records, restA.merges + second.merges) by {
      assert LeafCount(a) == span + LeafCount(a[1..]);
      assert ContextAfter(a, startColumn, item, leaves, textKey) == ContextAfter(a[1..], startColumn, labelled, leaves, textKey);
    }
    assert whole == Flat(inner.records + restAB.records, head + restAB.merges) by {
      UnfoldGroupAppend(a, b, startRow, startColumn, item, leaves, textKey);
    }
    assert first == Flat(inner.records + restA.records, head + restA.merges) by {
      UnfoldGroup(a, startRow, startColumn, item, leaves, textKey);
    }
    ConcatStep(whole, first, restA, restAB, second, inner.records, head);
  }


  lemma SplitRecordStep(a: seq<DataNode>, b: seq<DataNode>, startRow: int, startColumn: int,
                        item: Record, leaves: seq<Header.Column>, textKey: string)
    requires |a| > 0 && !IsGroup(a[0])
    requires SplitsAt(a[1..], b, startRow + 1, startColumn, item, leaves, textKey)
    ensures SplitsAt(a, b, startRow, startColumn, item, leaves, textKey)
  {
    assert LeafCount(a) == 1 + LeafCount(a[1..]);
    assert ContextAfter(a, startColumn, item, leaves, textKey) == ContextAfter(a[1..], startColumn, item, leaves, textKey);
    UnfoldRecordAppend(a, b, startRow, startColumn, item, leaves, textKey);
    UnfoldRecord(a, startRow, startColumn, item, leaves, textKey);
    var restA := FlattenData(a[1..], startRow + 1, startColumn, item, leaves, textKey);
    assert restA.merges == [] + restA.merges;
    ConcatStep(FlattenData(a + b, startRow, startColumn, item, leaves, textKey),
               FlattenData(a, startRow, startColumn, item, leaves, textKey),
               restA,
               FlattenData(a[1..] + b, startRow + 1, startColumn, item, leaves, textKey),
               FlattenData(b, startRow + LeafCount(a), startColumn,
                           ContextAfter(a, startColumn, item, leaves, textKey), leaves, textKey),
               [item + a[0].fields], []);
  }

  /** A sibling prefix moves the cursor by exactly its number of records: the
      walk of `a + b` is the walk of `a` followed by the walk of `b` started
      that many rows further down, in the context `a` leaves behind. */
  lemma {:induction false} FlattenDataSplit(a: seq<DataNode>, b: seq<DataNode>, startRow: int, startColumn: int,
                                            item: Record, leaves: seq<Header.Column>, textKey: string)
    requires Resolved(a)
    ensures SplitsAt(a, b, startRow, startColumn, item, leaves, textKey)
    decreases a
  {
    if |a| == 0 {
      assert a + b == b;
    } else {
      assert NodeResolved(a[0]);
      if IsGroup(a[0]) {
        var labelled := item[FieldAt(leaves, startColumn) := Label(a[0], textKey)];
        FlattenDataSplit(a[1..], b, startRow + LeafCount(a[0].children), startColumn, labelled, leaves, textKey);
        SplitGroupStep(a, b, startRow, startColumn, item, leaves, textKey);
      } else {
        FlattenDataSplit(a[1..], b, startRow + 1, startColumn, item, leaves, textKey);
        SplitRecordStep(a, b, startRow, startColumn, item, leaves, textKey);
      }
    }
  }

  /** Every region is one column wide, at or right of `col`, and lies within
      rows `lo` to `hi`. */
  predicate RegionsWithin(ms: seq<Rect>, col: int, lo: int, hi: int)
  {
    forall i :: 0 <= i < |ms| ==>
      && col <= ms[i].col == ms[i].col2
      && lo <= ms[i].row <= ms[i].row2 <= hi
  }

  /** The i-th region is as tall as the i-th group has records. */
  predicate HeightsMatch(ms: seq<Rect>, groups: seq<DataNode>)
  {
    && |ms| == |groups|
    && forall i :: 0 <= i < |ms| ==> ms[i].row2 - ms[i].row + 1 == LeafCount(groups[i].children)
  }

  /** Regions in the same column come top to bottom without sharing a row. */
  predicate Stacked(ms: seq<Rect>)
  {
    forall i, j :: 0 <= i < j < |ms| && ms[i].col == ms[j].col ==> ms[i].row2 < ms[j].row
  }

  lemma GroupRegionsConcat(region: Rect, inner: seq<Rect>, rest: seq<Rect>, col: int, row: int, span: int, hi: int)
    requires span >= 1 && region == Rect(col, row, col, row + span - 1) && row + span - 1 <= hi
    requires RegionsWithin(inner, col + 1, row, row + span - 1) && Stacked(inner)
    requires RegionsWithin(rest, col, row + span, hi) && Stacked(rest)
    ensures RegionsWithin([region] + inner + rest, col, row, hi)
    ensures Stacked([region] + inner + rest)
  {
    var ms := [region] + inner + rest;
    assert forall i :: 1 <= i <= |inner| ==> ms[i] == inner[i - 1];
    assert forall i :: |inner| < i < |ms| ==> ms[i] == rest[i - 1 - |inner|];
    forall i, j | 0 <= i < j < |ms| && ms[i].col == ms[j].col
      ensures ms[i].row2 < ms[j].row
    {
      if i > |inner| {
        assert ms[i] == rest[i - 1 - |inner|] && ms[j] == rest[j - 1 - |inner|];
      } else if i >= 1 && j <= |inner| {
        assert ms[i] == inner[i - 1] && ms[j] == inner[j - 1];
      }
    }
  }

  lemma HeightsConcat(ms1: seq<Rect>, ms2: seq<Rect>, g1: seq<DataNode>, g2: seq<DataNode>)
    requires HeightsMatch(ms1, g1) && HeightsMatch(ms2, g2)
    ensures HeightsMatch(ms1 + ms2, g1 + g2)
  {
    assert forall i :: |ms1| <= i < |ms1 + ms2| ==> (ms1 + ms2)[i] == ms2[i - |ms1|] && (g1 + g2)[i] == g2[i - |ms1|];
  }

  /** The region facts of one walk: one region per group in pre-order, each
      as tall as its group has records, one column wide at or right of
      `startColumn`, inside the rows the walk consumes, and stacked by
      column. */
  predicate RegionsFit(data: seq<DataNode>, startRow: int, startColumn: int, item: Record,
                       leaves: seq<Header.Column>, textKey: string)
  {
    var merges := FlattenData(data, startRow, startColumn, item, leaves, textKey).merges;
    && HeightsMatch(merges, Groups(data))
    && RegionsWithin(merges, startColumn, startRow, startRow + LeafCount(data) - 1)
    && Stacked(merges)
  }

  /** The region invariant of a group step, on the sequences alone. */
  lemma GroupRegionsFit(merges: seq<Rect>, region: Rect, inner: seq<Rect>, rest: seq<Rect>,
                        groups: seq<DataNode>, value: DataNode, innerGroups: seq<DataNode>, restGroups: seq<DataNode>,
                        col: int, row: int, span: int, hi: int)
    requires merges == [region] + inner + rest && groups == [value] + innerGroups + restGroups
    requires span == LeafCount(value.children) >= 1 && region == Rect(col, row, col, row + span - 1)
    requires row + span - 1 <= hi
    requires HeightsMatch(inner, innerGroups) && RegionsWithin(inner, col + 1, row, row + span - 1) && Stacked(inner)
    requires HeightsMatch(rest, restGroups) && RegionsWithin(rest, col, row + span, hi) && Stacked(rest)
    ensures HeightsMatch(merges, groups) && RegionsWithin(merges, col, row, hi) && Stacked(merges)
  {
    GroupRegionsConcat(region, inner, rest, col, row, span, hi);
    assert HeightsMatch([region], [value]);
    HeightsConcat([region], inner, [value], innerGroups);
    HeightsConcat([region] + inner, rest, [value] + innerGroups, restGroups);
  }

  lemma RegionsGroupStep(data: seq<DataNode>, startRow: int, startColumn: int, item: Record,
                         leaves: seq<Header.Column>, textKey: string)
    requires |data| > 0 && IsGroup(data[0]) && SpanOf(data[0]) == LeafCount(data[0].children)
    requires
      var labelled := item[FieldAt(leaves, startColumn) := Label(data[0], textKey)];
      && RegionsFit(data[0].children, startRow, startColumn + 1, labelled, leaves, textKey)
      && RegionsFit(data[1..], startRow + LeafCount(data[0].children), startColumn, labelled, leaves, textKey)
    ensures RegionsFit(data, startRow, startColumn, item, leaves, textKey)
  {
    var value := data[0];
    var span := LeafCount(value.children);
    LeafCountPositive(value.children);
    var labelled := item[FieldAt(leaves, startColumn) := Label(value, textKey)];
    var inner := FlattenData(value.children, startRow, startColumn + 1, labelled, leaves, textKey).merges;
    var rest := FlattenData(data[1..], startRow + span, startColumn, labelled, leaves, textKey).merges;
    var region := Rect(startColumn, startRow, startColumn, startRow + span - 1);
    var merges := FlattenData(data, startRow, startColumn, item, leaves, textKey).merges;
    assert merges == [region] + inner + rest by {
      UnfoldGroup(data, startRow, startColumn, item, leaves, textKey);
    }
    var hi := startRow + LeafCount(data) - 1;
    assert hi == startRow + span + LeafCount(data[1..]) - 1;
    assert Groups(data) == [value] + Groups(value.children) + Groups(data[1..]);
    GroupRegionsFit(merges, region, inner, rest, Groups(data), value, Groups(value.children), Groups(data[1..]),
                    startColumn, startRow, span, hi);
  }

  lemma RegionsRecordStep(data: seq<DataNode>, startRow: int, startColumn: int, item: Record,
                          leaves: seq<Header.Column>, textKey: string)
    requires |data| > 0 && !IsGroup(data[0])
    requires RegionsFit(data[1..], startRow + 1, startColumn, item, leaves, textKey)
    ensures RegionsFit(data, startRow, startColumn, item, leaves, textKey)
  {
    UnfoldRecord(data, startRow, startColumn, item, leaves, textKey);
    assert LeafCount(data) == 1 + LeafCount(data[1..]);
    assert Groups(data) == Groups(data[1..]);
  }

  /** One region per group, in pre-order, each as tall as its group has
      records; each sits in a single column at or right of `startColumn`,
      inside the rows the walk consumes; and regions of one column are
      stacked top to bottom without sharing a row. */
  lemma {:induction false} FlattenDataRegions(data: seq<DataNode>, startRow: int, startColumn: int, item: Record,
                                              leaves: seq<Header.Column>, textKey: string)
    requires Resolved(data)
    ensures
      var merges := FlattenData(data, startRow, startColumn, item, leaves, textKey).merges;
      && HeightsMatch(merges, Groups(data))
      && RegionsWithin(merges, startColumn, startRow, startRow + LeafCount(data) - 1)
      && Stacked(merges)
    decreases data
  {
    if |data| > 0 {
      assert RegionsFit(data, startRow, startColumn, item, leaves, textKey) by {
        assert NodeResolved(data[0]);
        if IsGroup(data[0]) {
          var labelled := item[FieldAt(leaves, startColumn) := Label(data[0], textKey)];
          FlattenDataRegions(data[0].children, startRow, startColumn + 1, labelled, leaves, textKey);
          FlattenDataRegions(data[1..], startRow + LeafCount(data[0].children), startColumn, labelled, leaves, textKey);
          RegionsGroupStep(data, startRow, startColumn, item, leaves, textKey);
        } else {
          FlattenDataRegions(data[1..], startRow + 1, startColumn, item, leaves, textKey);
          RegionsRecordStep(data, startRow, startColumn, item, leaves, textKey);
        }
      }
    }
  }

  /** The label of a group stays in the context for the siblings after it: a
      record that follows a group and does not set that key itself shows the
      group's label. */
  lemma LabelLeaksToNextSibling(data: seq<DataNode>, startRow: int, startColumn: int, item: Record,
                                leaves: seq<Header.Column>, textKey: string)
    requires |data| >= 2 && IsGroup(data[0]) && !IsGroup(data[1])
    requires FieldAt(leaves, startColumn) !in data[1].fields
    ensures
      var records := FlattenData(data, startRow, startColumn, item, leaves, textKey).records;
      var k := LeafCount(data[0].children);
      k < |records| && FieldAt(leaves, startColumn) in records[k] &&
      records[k][FieldAt(leaves, startColumn)] == Label(data[0], textKey)
  {
    var value := data[0];
    var labelled := item[FieldAt(leaves, startColumn) := Label(value, textKey)];
    var inner := FlattenData(value.children, startRow, startColumn + 1, labelled, leaves, textKey);
    var restRow := startRow + SpanOf(value) - 1 + 1;
    var rest := FlattenData(data[1..], restRow, startColumn, labelled, leaves, textKey);
    var records := FlattenData(data, startRow, startColumn, item, leaves, textKey).records;
    assert records == inner.records + rest.records;
    FlattenDataCount(value.children, startRow, startColumn + 1, labelled, leaves, textKey);
    assert data[1..][0] == data[1];
    UnfoldRecord(data[1..], restRow, startColumn, labelled, leaves, textKey);
    assert records[|inner.records|] == rest.records[0] == labelled + data[1].fields;
  }

}
