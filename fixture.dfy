/** The sheet of the repository's export test, worked through the model:
    a three-column address group, a three-column user-info group and a
    created_at column over one record, the 湖北 province tree of eight
    records and one more record.  The data records keep only the keys the
    merge layout reads (`name`) and, for the two top-level records, the
    address keys. */
module Fixture {
  import opened Values
  import opened Header
  import opened HeaderLayout
  import DataTree

  function Leaf(field: string, name: string): HeaderNode
  {
    HeaderNode(field, name, map[], [], 0, 0, 0)
  }

  function Branch(field: string, name: string, children: seq<HeaderNode>): HeaderNode
  {
    HeaderNode(field, name, map[], children, 0, 0, 0)
  }

  const FixtureHeader: seq<HeaderNode> := [
    Branch("address", "地址", [Leaf("province", "省"), Leaf("city", "市"), Leaf("district", "区")]),
    Branch("userinfo", "用户信息", [Leaf("name", "姓名"), Leaf("sex", "性别"), Leaf("birthday", "生日")]),
    Leaf("created_at", "创建时间")
  ]

  function Person(name: string): DataTree.DataNode
  {
    DataTree.DataNode(map["name" := Str(name)], [])
  }

  function Group(name: string, children: seq<DataTree.DataNode>): DataTree.DataNode
  {
    DataTree.DataNode(map["name" := Str(name)], children)
  }

  const Wuhan: DataTree.DataNode :=
    Group("武汉市", [
      Group("武昌区", [Person("李四"), Person("王五"), Person("赵六")]),
      Group("汉口区", [Person("周七"), Person("王八")]),
      Group("江夏区", [Person("王九")])
    ])

  const Xianning: DataTree.DataNode :=
    Group("咸宁市", [Group("咸安区", [Person("张六"), Person("王七")])])

  const Hubei: DataTree.DataNode := Group("湖北", [Wuhan, Xianning])

  const FixtureData: seq<DataTree.DataNode> := [
    DataTree.DataNode(map["province" := Str("北京"), "city" := Str("北京"), "name" := Str("张三")], []),
    Hubei,
    DataTree.DataNode(map["province" := Str("广州"), "city" := Str("深圳"), "name" := Str("小丽")], [])
  ]

  /** A leaf after the first pass: one column, one row, one level. */
  function Unit(n: HeaderNode): HeaderNode
  {
    n.(colSpan := 1, rowSpan := 1, depth := 1)
  }

  /** Proof step, not a property: `Sum` of three elements unfolded. */
  lemma SumOfThree(s: seq<int>)
    requires |s| == 3
    ensures Sum(s) == s[0] + s[1] + s[2]
  {
    var t := s[1..];
    var u := t[1..];
    assert Sum(u[1..]) == 0;
    assert Sum(u) == s[2];
    assert Sum(t) == s[1] + Sum(u);
  }

  /** Proof step, not a property: `Max` of three elements unfolded. */
  lemma MaxOfThree(s: seq<int>)
    requires |s| == 3
    ensures Max(s) == s[0] || Max(s) == s[1] || Max(s) == s[2]
    ensures Max(s) >= s[0] && Max(s) >= s[1] && Max(s) >= s[2]
  {
  }

  /** Proof step, not a property: the second pass over a list whose
      largest depth is `m`, unfolded at one position. */
  lemma StretchAt(hs: seq<HeaderNode>, k: int, m: int)
    requires 0 <= k < |hs| && MaxDepth(hs) == m
    ensures StretchLeaves(hs)[k] == if IsBranch(hs[k]) then hs[k] else hs[k].(rowSpan := m)
  {
  }

  /** Three sibling leaves resolve to one column, one row and one level
      each. */
  lemma ResolveThreeLeaves(cs: seq<HeaderNode>)
    requires |cs| == 3 && !IsBranch(cs[0]) && !IsBranch(cs[1]) && !IsBranch(cs[2])
    ensures var r := ResolveHeader(cs);
      r[0] == Unit(cs[0]) && r[1] == Unit(cs[1]) && r[2] == Unit(cs[2])
  {
    var first := FirstPass(cs);
    assert first[0] == Unit(cs[0]) && first[1] == Unit(cs[1]) && first[2] == Unit(cs[2]) by {
      assert AnnotateNode(cs[0]) == Unit(cs[0]) && AnnotateNode(cs[1]) == Unit(cs[1]) && AnnotateNode(cs[2]) == Unit(cs[2]);
    }
    assert MaxDepth(first) == 1 by {
      assert Depths(first)[0] == 1 && Depths(first)[1] == 1 && Depths(first)[2] == 1;
      MaxOfThree(Depths(first));
    }
    StretchAt(first, 0, 1);
    StretchAt(first, 1, 1);
    StretchAt(first, 2, 1);
  }

  /** The first pass gives a branch over three leaves three columns, one row
      and two levels. */
  lemma BranchOverThreeLeaves(n: HeaderNode)
    requires |n.children| == 3
    requires !IsBranch(n.children[0]) && !IsBranch(n.children[1]) && !IsBranch(n.children[2])
    ensures var a := AnnotateNode(n);
      IsBranch(a) && a.colSpan == 3 && a.rowSpan == 1 && a.depth == 2 && UnitLeaves(a.children)
  {
    var c := ResolveHeader(n.children);
    assert |c| == 3 && c[0] == Unit(n.children[0]) && c[1] == Unit(n.children[1]) && c[2] == Unit(n.children[2]) by {
      ResolveThreeLeaves(n.children);
    }
    assert SumColSpan(c) == 3 by {
      assert ColSpans(c)[0] == 1 && ColSpans(c)[1] == 1 && ColSpans(c)[2] == 1;
      SumOfThree(ColSpans(c));
    }
    assert MaxDepth(c) == 1 by {
      assert Depths(c)[0] == 1 && Depths(c)[1] == 1 && Depths(c)[2] == 1;
      MaxOfThree(Depths(c));
    }
    assert UnitLeaves(c) by {
      forall k | 0 <= k < |c| ensures !IsBranch(c[k]) && c[k].colSpan == 1 && c[k].rowSpan == 1 {
        assert k == 0 || k == 1 || k == 2;
      }
    }
    assert AnnotateNode(n) == n.(children := c, colSpan := 3, rowSpan := 1, depth := 2);
  }

  /** Leaves one column wide and one row tall. */
  predicate UnitLeaves(cs: seq<HeaderNode>)
  {
    forall k :: 0 <= k < |cs| ==> !IsBranch(cs[k]) && cs[k].colSpan == 1 && cs[k].rowSpan == 1
  }

  /** The fixture header's shape: two branches over three leaves each, then
      a leaf. */
  predicate TwoGroupsAndLeaf(h: seq<HeaderNode>)
  {
    && |h| == 3 && |h[0].children| == 3 && |h[1].children| == 3 && !IsBranch(h[2])
    && !IsBranch(h[0].children[0]) && !IsBranch(h[0].children[1]) && !IsBranch(h[0].children[2])
    && !IsBranch(h[1].children[0]) && !IsBranch(h[1].children[1]) && !IsBranch(h[1].children[2])
  }

  /** The first pass over that shape. */
  lemma FirstPassOfShape(h: seq<HeaderNode>)
    requires TwoGroupsAndLeaf(h)
    ensures var first := FirstPass(h);
      && IsBranch(first[0]) && first[0].colSpan == 3 && first[0].rowSpan == 1 && first[0].depth == 2
      && IsBranch(first[1]) && first[1].colSpan == 3 && first[1].rowSpan == 1 && first[1].depth == 2
      && first[2] == Unit(h[2]) && !IsBranch(first[2])
      && UnitLeaves(first[0].children) && UnitLeaves(first[1].children)
  {
    BranchOverThreeLeaves(h[0]);
    BranchOverThreeLeaves(h[1]);
    var first := FirstPass(h);
    assert first[0] == AnnotateNode(h[0]) && first[1] == AnnotateNode(h[1]);
    assert first[2] == AnnotateNode(h[2]);
  }

  /** Any header of that shape resolves to two 3-wide branches of depth 2
      and a leaf stretched to 2 rows, and the sheet reserves 2 header rows. */
  lemma TwoGroupsAndLeafSpans(h: seq<HeaderNode>)
    requires TwoGroupsAndLeaf(h)
    ensures
      var r := ResolveHeader(h);
      && r[0].colSpan == 3 && r[0].rowSpan == 1 && r[0].depth == 2
      && r[1].colSpan == 3 && r[1].rowSpan == 1 && r[1].depth == 2
      && r[2].colSpan == 1 && r[2].rowSpan == 2 && r[2].depth == 1
      && HeaderRow(r) == Some(2)
      && IsBranch(r[0]) && IsBranch(r[1]) && !IsBranch(r[2])
      && UnitLeaves(r[0].children) && UnitLeaves(r[1].children)
  {
    FirstPassOfShape(h);
    var first := FirstPass(h);
    assert Depths(first)[0] == 2 && Depths(first)[1] == 2 && Depths(first)[2] == 1;
    MaxOfThree(Depths(first));
    var r := StretchLeaves(first);
    StretchAt(first, 0, 2);
    StretchAt(first, 1, 2);
    StretchAt(first, 2, 2);
    assert RowSpans(r)[0] == 1 && RowSpans(r)[1] == 1 && RowSpans(r)[2] == 2;
    MaxOfThree(RowSpans(r));
  }

  /** Cells no wider and no taller than one grid cell ask for no merge. */
  lemma {:induction false} UnitCellsNoMerges(cells: seq<Column>, row: int, col: int)
    requires forall k :: 0 <= k < |cells| ==> cells[k].colSpan == 1 && cells[k].rowSpan == 1
    ensures RowMerges(cells, row, col) == []
    decreases |cells|
  {
    if |cells| > 0 {
      UnitCellsNoMerges(cells[1..], row, col + 1);
    }
  }

  /** A list of leaves and branches over unit leaves puts only unit cells in
      the row below. */
  lemma {:induction false} BelowUnitLeaves(hs: seq<HeaderNode>)
    requires forall k :: 0 <= k < |hs| ==> !IsBranch(hs[k]) || UnitLeaves(hs[k].children)
    ensures forall j :: 0 <= j < |Below(hs)| ==> Below(hs)[j].colSpan == 1 && Below(hs)[j].rowSpan == 1
    decreases |hs|
  {
    if |hs| > 0 {
      var p := hs[..|hs| - 1];
      var v := hs[|hs| - 1];
      assert forall k :: 0 <= k < |p| ==> p[k] == hs[k];
      BelowUnitLeaves(p);
      if IsBranch(v) {
        BelowWithoutBranch(v.children);
      }
    }
  }

  /** A row of two 3-wide cells and a 2-tall one, written from column
      `col`. */
  lemma TopRowMerges(cells: seq<Column>, row: int, col: int)
    requires |cells| == 3
    requires cells[0].colSpan == 3 && cells[0].rowSpan == 1 && cells[1].colSpan == 3 && cells[1].rowSpan == 1
    requires cells[2].colSpan == 1 && cells[2].rowSpan == 2
    ensures RowMerges(cells, row, col)
         == [Rect(col, row + 1, col + 2, row + 1), Rect(col + 3, row + 1, col + 5, row + 1),
             Rect(col + 6, row + 1, col + 6, row + 2)]
  {
    var t := cells[1..];
    var u := t[1..];
    assert RowMerges(u, row, col + 6) == [Rect(col + 6, row + 1, col + 6, row + 2)] + RowMerges(u[1..], row, col + 7);
    assert RowMerges(t, row, col + 3) == [Rect(col + 3, row + 1, col + 5, row + 1)] + RowMerges(u, row, col + 6);
  }

  /** buildSheetHeader's merges for a header of that shape: the two groups
      across their three columns and the leaf down its two rows; the second
      row of leaves asks for none. */
  lemma TwoGroupsAndLeafMerges(h: seq<HeaderNode>)
    requires TwoGroupsAndLeaf(h)
    ensures HeaderMerges(FlattenHeaderData(ResolveHeader(h), 0))
         == [Rect(1, 1, 3, 1), Rect(4, 1, 6, 1), Rect(7, 1, 7, 2)]
  {
    TwoGroupsAndLeafSpans(h);
    var r := ResolveHeader(h);
    FlattenHeaderDataShape(r, 0);
    assert HasBranch(r) by {
      assert IsBranch(r[0]);
    }
    var top := Project(r);
    assert top[0] == GetHeaderFields(r[0]) && top[1] == GetHeaderFields(r[1]) && top[2] == GetHeaderFields(r[2]);
    TopRowMerges(top, 0, 1);
    BelowUnitLeaves(r);
    UnitCellsNoMerges(Below(r), 1, 1);
    var t := [(0, top), (1, Below(r))];
    assert HeaderMerges(t[1..][1..]) == [];
  }

  lemma FixtureHeaderSpans()
    ensures
      var r := ResolveHeader(FixtureHeader);
      && r[0].colSpan == 3 && r[0].rowSpan == 1 && r[0].depth == 2
      && r[2].colSpan == 1 && r[2].rowSpan == 2
      && HeaderRow(r) == Some(2)
  {
    TwoGroupsAndLeafSpans(FixtureHeader);
  }

  lemma FixtureHeaderMerges()
    ensures HeaderMerges(FlattenHeaderData(ResolveHeader(FixtureHeader), 0))
         == [Rect(1, 1, 3, 1), Rect(4, 1, 6, 1), Rect(7, 1, 7, 2)]
  {
    TwoGroupsAndLeafMerges(FixtureHeader);
  }

  // ---------------------------------------------------------------------
  // The data tree
  // ---------------------------------------------------------------------

  predicate AllRecords(ns: seq<DataTree.DataNode>)
  {
    forall k :: 0 <= k < |ns| ==> !DataTree.IsGroup(ns[k])
  }

  /** A group whose children are all records. */
  predicate GroupOfRecords(n: DataTree.DataNode)
  {
    DataTree.IsGroup(n) && AllRecords(n.children)
  }

  lemma {:induction false} SumOfOnes(s: seq<int>)
    requires forall k :: 0 <= k < |s| ==> s[k] == 1
    ensures Sum(s) == |s|
  {
    if |s| > 0 {
      SumOfOnes(s[1..]);
    }
  }

  /** resolveDataMerge gives a group of records a span of its record count,
      and its children stay records. */
  lemma ResolveGroupOfRecords(n: DataTree.DataNode)
    requires GroupOfRecords(n)
    ensures var r := DataTree.ResolveDataNode(n);
      GroupOfRecords(r) && DataTree.SpanOf(r) == |n.children|
  {
    var c := DataTree.ResolveData(n.children);
    forall k | 0 <= k < |c|
      ensures !DataTree.IsGroup(c[k]) && DataTree.Spans(c)[k] == 1
    {
      assert c[k] == DataTree.ResolveDataNode(n.children[k]);
    }
    SumOfOnes(DataTree.Spans(c));
  }

  /** A run of records adds no merge region. */
  lemma {:induction false} RecordsAddNoRegion(ns: seq<DataTree.DataNode>, row: int, col: int, item: Record,
                                              leaves: seq<Column>, textKey: string)
    requires AllRecords(ns)
    ensures DataTree.FlattenData(ns, row, col, item, leaves, textKey).merges == []
    decreases ns
  {
    if |ns| > 0 {
      DataTree.UnfoldRecord(ns, row, col, item, leaves, textKey);
      RecordsAddNoRegion(ns[1..], row + 1, col, item, leaves, textKey);
    }
  }

  /** The regions of a list of groups in one column, each directly below the
      previous one. */
  function Stack(ns: seq<DataTree.DataNode>, row: int, col: int): seq<Rect>
  {
    if |ns| == 0 then []
    else
      var span := DataTree.SpanOf(ns[0]);
      [Rect(col, row, col, row + span - 1)] + Stack(ns[1..], row + span, col)
  }

  lemma StackOfThree(ns: seq<DataTree.DataNode>, row: int, col: int)
    requires |ns| == 3
    ensures
      var a, b, c := DataTree.SpanOf(ns[0]), DataTree.SpanOf(ns[1]), DataTree.SpanOf(ns[2]);
      Stack(ns, row, col)
        == [Rect(col, row, col, row + a - 1), Rect(col, row + a, col, row + a + b - 1),
            Rect(col, row + a + b, col, row + a + b + c - 1)]
  {
    var a, b, c := DataTree.SpanOf(ns[0]), DataTree.SpanOf(ns[1]), DataTree.SpanOf(ns[2]);
    var t := ns[1..];
    var u := t[1..];
    assert Stack(u[1..], row + a + b + c, col) == [];
    assert Stack(u, row + a + b, col) == [Rect(col, row + a + b, col, row + a + b + c - 1)];
    assert Stack(t, row + a, col) == [Rect(col, row + a, col, row + a + b - 1)] + Stack(u, row + a + b, col);
  }

  /** A list of groups of records lays its regions out as the stack. */
  lemma {:induction false} GroupsOfRecordsStack(ns: seq<DataTree.DataNode>, row: int, col: int, item: Record,
                                                leaves: seq<Column>, textKey: string)
    requires forall k :: 0 <= k < |ns| ==> GroupOfRecords(ns[k])
    ensures DataTree.FlattenData(ns, row, col, item, leaves, textKey).merges == Stack(ns, row, col)
    decreases ns
  {
    if |ns| > 0 {
      var labelled := item[DataTree.FieldAt(leaves, col) := DataTree.Label(ns[0], textKey)];
      var inner := DataTree.FlattenData(ns[0].children, row, col + 1, labelled, leaves, textKey);
      var next := row + DataTree.SpanOf(ns[0]) - 1 + 1;
      var rest := DataTree.FlattenData(ns[1..], next, col, labelled, leaves, textKey);
      DataTree.UnfoldGroupAt(ns, row, col, item, leaves, textKey, labelled, inner, rest);
      RecordsAddNoRegion(ns[0].children, row, col + 1, labelled, leaves, textKey);
      GroupsOfRecordsStack(ns[1..], next, col, labelled, leaves, textKey);
    }
  }

  /** A group of groups of records: its children keep their record counts as
      spans, and it spans their sum. */
  lemma ResolveGroupOfGroups(n: DataTree.DataNode)
    requires DataTree.IsGroup(n) && forall k :: 0 <= k < |n.children| ==> GroupOfRecords(n.children[k])
    ensures var r := DataTree.ResolveDataNode(n);
      && DataTree.IsGroup(r) && |r.children| == |n.children|
      && DataTree.SpanOf(r) == Sum(DataTree.Spans(r.children))
      && forall k :: 0 <= k < |r.children| ==>
           GroupOfRecords(r.children[k]) && DataTree.SpanOf(r.children[k]) == |n.children[k].children|
  {
    var c := DataTree.ResolveData(n.children);
    forall k | 0 <= k < |c|
      ensures GroupOfRecords(c[k]) && DataTree.SpanOf(c[k]) == |n.children[k].children|
    {
      assert c[k] == DataTree.ResolveDataNode(n.children[k]);
      ResolveGroupOfRecords(n.children[k]);
    }
  }

  /** 武汉市 spans 6 rows; its districts stack in column 3 from row 4. */
  lemma WuhanLayout(item: Record, leaves: seq<Column>, textKey: string)
    ensures var w := DataTree.ResolveDataNode(Wuhan);
      && DataTree.IsGroup(w) && DataTree.SpanOf(w) == 6
      && DataTree.FlattenData(w.children, 4, 3, item, leaves, textKey).merges
         == [Rect(3, 4, 3, 6), Rect(3, 7, 3, 8), Rect(3, 9, 3, 9)]
  {
    WuhanSpans();
    var w := DataTree.ResolveDataNode(Wuhan);
    ThreeGroupsOfRecords(w.children, 4, 3, item, leaves, textKey);
  }

  /** 武汉市's districts resolve to spans 3, 2 and 1, and 武汉市 to 6. */
  lemma WuhanSpans()
    ensures var w := DataTree.ResolveDataNode(Wuhan);
      var ds := w.children;
      && DataTree.IsGroup(w) && DataTree.SpanOf(w) == 6
      && |ds| == 3 && GroupOfRecords(ds[0]) && GroupOfRecords(ds[1]) && GroupOfRecords(ds[2])
      && DataTree.SpanOf(ds[0]) == 3 && DataTree.SpanOf(ds[1]) == 2 && DataTree.SpanOf(ds[2]) == 1
  {
    ResolveGroupOfGroups(Wuhan);
    var w := DataTree.ResolveDataNode(Wuhan);
    var ds := w.children;
    assert DataTree.Spans(ds)[0] == 3 && DataTree.Spans(ds)[1] == 2 && DataTree.Spans(ds)[2] == 1;
    SumOfThree(DataTree.Spans(ds));
  }

  /** Three groups of records stack their regions in one column. */
  lemma ThreeGroupsOfRecords(ds: seq<DataTree.DataNode>, row: int, col: int, item: Record,
                             leaves: seq<Column>, textKey: string)
    requires |ds| == 3 && forall k :: 0 <= k < 3 ==> GroupOfRecords(ds[k])
    ensures
      var a, b, c := DataTree.SpanOf(ds[0]), DataTree.SpanOf(ds[1]), DataTree.SpanOf(ds[2]);
      DataTree.FlattenData(ds, row, col, item, leaves, textKey).merges
        == [Rect(col, row, col, row + a - 1), Rect(col, row + a, col, row + a + b - 1),
            Rect(col, row + a + b, col, row + a + b + c - 1)]
  {
    GroupsOfRecordsStack(ds, row, col, item, leaves, textKey);
    StackOfThree(ds, row, col);
  }

  /** 咸宁市 spans 2 rows; its one district fills column 3 from row 10. */
  lemma XianningLayout(item: Record, leaves: seq<Column>, textKey: string)
    ensures var x := DataTree.ResolveDataNode(Xianning);
      && DataTree.IsGroup(x) && DataTree.SpanOf(x) == 2
      && DataTree.FlattenData(x.children, 10, 3, item, leaves, textKey).merges == [Rect(3, 10, 3, 11)]
  {
    ResolveGroupOfGroups(Xianning);
    var x := DataTree.ResolveDataNode(Xianning);
    var ds := x.children;
    assert DataTree.Spans(ds) == [2];
    GroupsOfRecordsStack(ds, 10, 3, item, leaves, textKey);
  }

  /** Proof step, not a property: `Sum` of two elements unfolded. */
  lemma SumOfTwo(s: seq<int>)
    requires |s| == 2
    ensures Sum(s) == s[0] + s[1]
  {
    assert Sum(s[1..][1..]) == 0;
  }

  /** Proof step, not a property: the span a resolved group stores,
      unfolded one step. */
  lemma ResolvedGroupSpan(n: DataTree.DataNode)
    requires DataTree.IsGroup(n)
    ensures var r := DataTree.ResolveDataNode(n);
      r.children == DataTree.ResolveData(n.children) && DataTree.SpanOf(r) == Sum(DataTree.Spans(r.children))
  {
  }

  /** Two cities in column 2 from row 4: the first city's region, its
      districts' regions, then the second city's region and its districts'. */
  lemma TwoCities(cs: seq<DataTree.DataNode>, item: Record, leaves: seq<Column>, textKey: string,
                  first: Record, second: Record, districtsA: seq<Rect>, districtsB: seq<Rect>)
    requires |cs| == 2 && DataTree.IsGroup(cs[0]) && DataTree.IsGroup(cs[1])
    requires DataTree.SpanOf(cs[0]) == 6 && DataTree.SpanOf(cs[1]) == 2
    requires first == item[DataTree.FieldAt(leaves, 2) := DataTree.Label(cs[0], textKey)]
    requires second == first[DataTree.FieldAt(leaves, 2) := DataTree.Label(cs[1], textKey)]
    requires DataTree.FlattenData(cs[0].children, 4, 3, first, leaves, textKey).merges == districtsA
    requires DataTree.FlattenData(cs[1].children, 10, 3, second, leaves, textKey).merges == districtsB
    ensures DataTree.FlattenData(cs, 4, 2, item, leaves, textKey).merges
         == [Rect(2, 4, 2, 9)] + districtsA + ([Rect(2, 10, 2, 11)] + districtsB)
  {
    var tail := cs[1..];
    var rest := DataTree.FlattenData(tail, 10, 2, first, leaves, textKey);
    assert rest.merges == [Rect(2, 10, 2, 11)] + districtsB by {
      var end := DataTree.FlattenData(tail[1..], 12, 2, second, leaves, textKey);
      assert end.merges == [];
      var inner := DataTree.FlattenData(cs[1].children, 10, 3, second, leaves, textKey);
      DataTree.UnfoldGroupAt(tail, 10, 2, first, leaves, textKey, second, inner, end);
    }
    var inner := DataTree.FlattenData(cs[0].children, 4, 3, first, leaves, textKey);
    DataTree.UnfoldGroupAt(cs, 4, 2, item, leaves, textKey, first, inner, rest);
  }

  /** 湖北 spans 8 rows; its cities stack in column 2 from row 4, each
      followed by its districts. */
  lemma HubeiLayout(item: Record, leaves: seq<Column>, textKey: string)
    ensures var h := DataTree.ResolveDataNode(Hubei);
      && DataTree.IsGroup(h) && DataTree.SpanOf(h) == 8
      && DataTree.FlattenData(h.children, 4, 2, item, leaves, textKey).merges
         == [Rect(2, 4, 2, 9)] + [Rect(3, 4, 3, 6), Rect(3, 7, 3, 8), Rect(3, 9, 3, 9)]
            + ([Rect(2, 10, 2, 11)] + [Rect(3, 10, 3, 11)])
  {
    var h := DataTree.ResolveDataNode(Hubei);
    var cs := h.children;
    ResolvedGroupSpan(Hubei);
    var w, x := cs[0], cs[1];
    assert w == DataTree.ResolveDataNode(Wuhan) && x == DataTree.ResolveDataNode(Xianning);
    var first := item[DataTree.FieldAt(leaves, 2) := DataTree.Label(w, textKey)];
    var second := first[DataTree.FieldAt(leaves, 2) := DataTree.Label(x, textKey)];
    WuhanLayout(first, leaves, textKey);
    XianningLayout(second, leaves, textKey);
    assert DataTree.SpanOf(h) == 8 by {
      assert DataTree.Spans(cs)[0] == 6 && DataTree.Spans(cs)[1] == 2;
      SumOfTwo(DataTree.Spans(cs));
    }
    TwoCities(cs, item, leaves, textKey, first, second,
              [Rect(3, 4, 3, 6), Rect(3, 7, 3, 8), Rect(3, 9, 3, 9)], [Rect(3, 10, 3, 11)]);
  }

  /** The fixture sheet: the data starts at row 3 (start_row 1 below a
      2-row header); 湖北 takes rows 4 to 11 of column 1 and its cities and
      districts stack to its right, in pre-order. */
  lemma FixtureDataMerges(leaves: seq<Column>)
    ensures DataTree.FlattenData(DataTree.ResolveData(FixtureData), 3, 1, map[], leaves, "name").merges
         == [Rect(1, 4, 1, 11), Rect(2, 4, 2, 9), Rect(3, 4, 3, 6), Rect(3, 7, 3, 8), Rect(3, 9, 3, 9),
             Rect(2, 10, 2, 11), Rect(3, 10, 3, 11)]
  {
    var r := DataTree.ResolveData(FixtureData);
    var h := r[1];
    assert h == DataTree.ResolveDataNode(Hubei);
    assert r[0] == DataTree.ResolveDataNode(FixtureData[0]) && r[2] == DataTree.ResolveDataNode(FixtureData[2]);
    assert !DataTree.IsGroup(r[0]) && !DataTree.IsGroup(r[2]);
    var labelled := map[][DataTree.FieldAt(leaves, 1) := DataTree.Label(h, "name")];
    HubeiLayout(labelled, leaves, "name");
    var tail := r[1..];
    var inner := DataTree.FlattenData(h.children, 4, 2, labelled, leaves, "name");
    var rest := DataTree.FlattenData(tail[1..], 12, 1, labelled, leaves, "name");
    assert AllRecords(tail[1..]);
    RecordsAddNoRegion(tail[1..], 12, 1, labelled, leaves, "name");
    DataTree.UnfoldGroupAt(tail, 4, 1, map[], leaves, "name", labelled, inner, rest);
    DataTree.UnfoldRecord(r, 3, 1, map[], leaves, "name");
  }
}
