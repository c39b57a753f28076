/** The column-header tree: the span resolver (`resolveHeaderMerge`), the
    leaf-column list (`flattenHeader`, `getHeaderFields`) and the number of
    header rows `build` reserves above the data. */
module Header {
  import opened Values

  /** One header node: the caller's `field`, `name`, `config` and `children`,
      and the three keys the resolver writes, `_merge_col` (colSpan),
      `_merge_row` (rowSpan) and `_row` (depth). Before resolution the three
      annotations hold whatever the caller left there; the resolver overwrites
      all of them. A missing `config` is the empty map. */
  datatype HeaderNode = HeaderNode(
    field: string,
    name: string,
    config: map<string, Value>,
    children: seq<HeaderNode>,
    colSpan: int,
    rowSpan: int,
    depth: int)

  /** What `getHeaderFields` keeps of a node: everything but its children. */
  datatype Column = Column(
    field: string,
    name: string,
    config: map<string, Value>,
    colSpan: int,
    rowSpan: int,
    depth: int)

  /** A node is a branch when its `children` list is present and non-empty
      (PHP truthiness: an empty array counts as no children). */
  predicate IsBranch(n: HeaderNode)
  {
    |n.children| > 0
  }

  /** `array_column($hs, '_merge_col')`, `'_merge_row'` and `'_row'`. */
  function ColSpans(hs: seq<HeaderNode>): seq<int>
  {
    seq(|hs|, k requires 0 <= k < |hs| => hs[k].colSpan)
  }

  function RowSpans(hs: seq<HeaderNode>): seq<int>
  {
    seq(|hs|, k requires 0 <= k < |hs| => hs[k].rowSpan)
  }

  function Depths(hs: seq<HeaderNode>): seq<int>
  {
    seq(|hs|, k requires 0 <= k < |hs| => hs[k].depth)
  }

  function SumColSpan(hs: seq<HeaderNode>): int
  {
    Sum(ColSpans(hs))
  }

  function MaxDepth(hs: seq<HeaderNode>): int
    requires |hs| > 0
  {
    Max(Depths(hs))
  }

  // ---------------------------------------------------------------------
  // resolveHeaderMerge
  // ---------------------------------------------------------------------

  /** The body of the first loop of resolveHeaderMerge for one node: a branch
      is resolved below first, then spans the sum of its children's columns,
      one row, and one level more than its deepest child; a leaf is 1/1/1. */
  function AnnotateNode(n: HeaderNode): HeaderNode
    decreases n, 2
  {
    if IsBranch(n) then
      var children := ResolveHeader(n.children);
      n.(children := children, colSpan := SumColSpan(children), rowSpan := 1,
         depth := MaxDepth(children) + 1)
    else
      n.(colSpan := 1, rowSpan := 1, depth := 1)
  }

  function FirstPass(hs: seq<HeaderNode>): seq<HeaderNode>
    decreases hs, 0
  {
    seq(|hs|, k requires 0 <= k < |hs| => AnnotateNode(hs[k]))
  }

  /** The second loop: every leaf of the sibling list gets rowSpan = the
      largest depth in that list. */
  function StretchLeaves(hs: seq<HeaderNode>): seq<HeaderNode>
  {
    if |hs| == 0 then hs
    else
      var m := MaxDepth(hs);
      seq(|hs|, k requires 0 <= k < |hs| => if IsBranch(hs[k]) then hs[k] else hs[k].(rowSpan := m))
  }

  /** The header forest as resolveHeaderMerge leaves it. */
  function ResolveHeader(hs: seq<HeaderNode>): (r: seq<HeaderNode>)
    decreases hs, 1
    ensures |r| == |hs|
  {
    StretchLeaves(FirstPass(hs))
  }

  /** Setting a node's row span leaves the depths of its list alone. */
  lemma DepthsIgnoreRowSpan(hs: seq<HeaderNode>, j: int, rowSpan: int)
    requires 0 <= j < |hs|
    ensures Depths(hs[j := hs[j].(rowSpan := rowSpan)]) == Depths(hs)
  {
    var t := hs[j := hs[j].(rowSpan := rowSpan)];
    assert forall k :: 0 <= k < |hs| ==> Depths(t)[k] == Depths(hs)[k];
  }

  /** resolveHeaderMerge: PHP passes the array by reference and rewrites it
      element by element; arrays are values in PHP, so this is an in/out
      parameter. */
  method ResolveHeaderMerge(header: seq<HeaderNode>) returns (out: seq<HeaderNode>)
    ensures out == ResolveHeader(header)
    decreases header
  {
    out := header;
    var i := 0;
    while i < |out|
      invariant 0 <= i <= |out| == |header|
      invariant forall k :: 0 <= k < i ==> out[k] == AnnotateNode(header[k])
      invariant forall k :: i <= k < |out| ==> out[k] == header[k]
    {
      var value := out[i];
      if |value.children| > 0 {
        var children := ResolveHeaderMerge(value.children);
        value := value.(children := children, colSpan := Sum(ColSpans(children)), rowSpan := 1,
                        depth := Max(Depths(children)) + 1);
      } else {
        value := value.(colSpan := 1, rowSpan := 1, depth := 1);
      }
      out := out[i := value];
      i := i + 1;
    }
    assert out == FirstPass(header);
    out := StretchLeafRows(out);
  }

  /** The second loop of resolveHeaderMerge: every leaf of the list is
      stretched down to the largest depth among the list. */
  method StretchLeafRows(hs: seq<HeaderNode>) returns (out: seq<HeaderNode>)
    ensures out == StretchLeaves(hs)
  {
    out := hs;
    ghost var tallest := if |hs| == 0 then 0 else Max(Depths(hs));
    var j := 0;
    while j < |out|
      invariant 0 <= j <= |out| == |hs|
      invariant Depths(out) == Depths(hs)
      invariant forall k :: 0 <= k < j ==> out[k] == if IsBranch(hs[k]) then hs[k] else hs[k].(rowSpan := tallest)
      invariant forall k :: j <= k < |out| ==> out[k] == hs[k]
    {
      if |out[j].children| == 0 {
        DepthsIgnoreRowSpan(out, j, Max(Depths(out)));
        out := out[j := out[j].(rowSpan := Max(Depths(out)))];
      }
      j := j + 1;
    }
  }

  // ---------------------------------------------------------------------
  // What a resolved header looks like
  // ---------------------------------------------------------------------

  /** The annotations of one node of a resolved sibling list whose largest
      depth is `siblingDepth`. */
  predicate NodeResolved(n: HeaderNode, siblingDepth: int)
    decreases n, 0
  {
    if IsBranch(n) then
      && Resolved(n.children)
      && n.colSpan == SumColSpan(n.children)
      && n.rowSpan == 1
      && n.depth == MaxDepth(n.children) + 1
    else
      && n.colSpan == 1
      && n.depth == 1
      && n.rowSpan == siblingDepth
  }

  /** The span invariant of a header tree, at every level: a leaf spans one
      column and is one level deep but stretches down to the deepest sibling;
      a branch spans its children's columns, one row, and one level more than
      its deepest child. */
  predicate Resolved(hs: seq<HeaderNode>)
    decreases hs, 1
  {
    forall k :: 0 <= k < |hs| ==> NodeResolved(hs[k], MaxDepth(hs))
  }

  /** The same tree as written by the caller, annotations aside. */
  predicate SameShape(a: seq<HeaderNode>, b: seq<HeaderNode>)
    decreases a
  {
    && |a| == |b|
    && forall k :: 0 <= k < |a| ==>
         && a[k].field == b[k].field
         && a[k].name == b[k].name
         && a[k].config == b[k].config
         && SameShape(a[k].children, b[k].children)
  }

  lemma {:induction false} ResolveHeaderIsResolved(hs: seq<HeaderNode>)
    ensures Resolved(ResolveHeader(hs))
    ensures SameShape(ResolveHeader(hs), hs)
    decreases hs
  {
    var first := FirstPass(hs);
    var r := ResolveHeader(hs);
    if |hs| > 0 {
      assert Depths(r) == Depths(first);
      forall k | 0 <= k < |hs|
        ensures NodeResolved(r[k], MaxDepth(r))
        ensures r[k].field == hs[k].field && r[k].name == hs[k].name && r[k].config == hs[k].config
        ensures SameShape(r[k].children, hs[k].children)
      {
        assert first[k] == AnnotateNode(hs[k]);
        if IsBranch(hs[k]) {
          assert r[k] == first[k];
          ResolveHeaderIsResolved(hs[k].children);
        } else {
          assert r[k] == first[k].(rowSpan := MaxDepth(first));
        }
      }
    }
  }

  lemma {:induction false} ResolveHeaderKeepsResolved(hs: seq<HeaderNode>)
    requires Resolved(hs)
    ensures ResolveHeader(hs) == hs
    decreases hs
  {
    var first := FirstPass(hs);
    if |hs| > 0 {
      forall k | 0 <= k < |hs|
        ensures first[k].depth == hs[k].depth
        ensures IsBranch(hs[k]) ==> first[k] == hs[k]
        ensures !IsBranch(hs[k]) ==> first[k] == hs[k].(rowSpan := 1)
      {
        assert first[k] == AnnotateNode(hs[k]);
        if IsBranch(hs[k]) {
          assert Resolved(hs[k].children);
          ResolveHeaderKeepsResolved(hs[k].children);
        }
      }
      assert Depths(first) == Depths(hs);
      var r := StretchLeaves(first);
      forall k | 0 <= k < |hs|
        ensures r[k] == hs[k]
      {
        if !IsBranch(hs[k]) {
          assert r[k] == first[k].(rowSpan := MaxDepth(first));
        }
      }
    }
  }

  /** Running the resolver on a resolved header changes nothing. */
  lemma ResolveHeaderIdempotent(hs: seq<HeaderNode>)
    ensures ResolveHeader(ResolveHeader(hs)) == ResolveHeader(hs)
  {
    ResolveHeaderIsResolved(hs);
    ResolveHeaderKeepsResolved(ResolveHeader(hs));
  }

  /** Resolution is a function of the tree's shape: whatever annotations the
      caller's arrays already carry are ignored. */
  lemma {:induction false} ResolveHeaderIgnoresAnnotations(a: seq<HeaderNode>, b: seq<HeaderNode>)
    requires SameShape(a, b)
    ensures ResolveHeader(a) == ResolveHeader(b)
    decreases a
  {
    var fa, fb := FirstPass(a), FirstPass(b);
    forall k | 0 <= k < |a|
      ensures fa[k] == fb[k]
    {
      assert fa[k] == AnnotateNode(a[k]) && fb[k] == AnnotateNode(b[k]);
      if !IsBranch(a[k]) {
        assert a[k].children == [] == b[k].children;
      } else {
        ResolveHeaderIgnoresAnnotations(a[k].children, b[k].children);
      }
    }
    assert fa == fb;
  }

  /** A resolved annotation is the only one a tree of that shape can carry. */
  lemma ResolvedIsUnique(a: seq<HeaderNode>, b: seq<HeaderNode>)
    requires Resolved(a) && Resolved(b) && SameShape(a, b)
    ensures a == b
  {
    ResolveHeaderKeepsResolved(a);
    ResolveHeaderKeepsResolved(b);
    ResolveHeaderIgnoresAnnotations(a, b);
  }

  /** Every span and depth is at least one, and a branch is at least two deep,
      so a leaf and a branch never carry the same depth. */
  lemma {:induction false} ResolvedSpansPositive(hs: seq<HeaderNode>)
    requires Resolved(hs)
    ensures forall k :: 0 <= k < |hs| ==>
      && hs[k].colSpan >= 1 && hs[k].rowSpan >= 1 && hs[k].depth >= 1
      && (IsBranch(hs[k]) ==> hs[k].depth >= 2 && hs[k].colSpan >= |hs[k].children|)
    decreases hs
  {
    forall k | 0 <= k < |hs|
      ensures hs[k].colSpan >= 1 && hs[k].rowSpan >= 1 && hs[k].depth >= 1
      ensures IsBranch(hs[k]) ==> hs[k].depth >= 2 && hs[k].colSpan >= |hs[k].children|
    {
      if IsBranch(hs[k]) {
        var c := hs[k].children;
        ResolvedSpansPositive(c);
        SumOfPositives(ColSpans(c));
        assert Depths(c)[0] == c[0].depth;
      } else {
        assert Depths(hs)[k] == hs[k].depth;
      }
    }
  }

  // ---------------------------------------------------------------------
  // build: the number of header rows
  // ---------------------------------------------------------------------

  /** `max(array_column($header, '_merge_row'))` in build: the rows reserved
      for the header. PHP's max throws on an empty header. */
  function HeaderRow(header: seq<HeaderNode>): Option<int>
  {
    if |header| == 0 then None else Some(Max(RowSpans(header)))
  }

  /** The header height is the largest top-level rowSpan, not the depth of the
      tree: it equals the deepest top-level depth only when some top-level
      node is a leaf, and is 1 when every top-level node is a branch. */
  lemma HeaderRowOfResolved(header: seq<HeaderNode>)
    requires Resolved(header)
    ensures HeaderRow(header).None? <==> |header| == 0
    ensures (exists k :: 0 <= k < |header| && !IsBranch(header[k])) ==>
      HeaderRow(header) == Some(MaxDepth(header))
    ensures |header| > 0 && (forall k :: 0 <= k < |header| ==> IsBranch(header[k])) ==>
      HeaderRow(header) == Some(1)
  {
    if |header| > 0 {
      ResolvedSpansPositive(header);
      var spans := RowSpans(header);
      var m := MaxDepth(header);
      assert m >= 1 by {
        assert Depths(header)[0] == header[0].depth;
      }
      forall j | 0 <= j < |spans|
        ensures spans[j] == if IsBranch(header[j]) then 1 else m
      {
        assert NodeResolved(header[j], m);
      }
      var hr := Max(spans);
      if exists k :: 0 <= k < |header| && !IsBranch(header[k]) {
        var k :| 0 <= k < |header| && !IsBranch(header[k]);
        assert spans[k] == m;
      }
    }
  }

  // ---------------------------------------------------------------------
  // flattenHeader / getHeaderFields
  // ---------------------------------------------------------------------

  function GetHeaderFields(n: HeaderNode): Column
  {
    Column(n.field, n.name, n.config, n.colSpan, n.rowSpan, n.depth)
  }

  /** flattenHeader: walks the siblings left to right, bumping a column
      counter for every node and a row counter for every branch, recursing
      into branches and emitting leaves. The counters are passed down but
      never reach the output. */
  function FlattenHeader(header: seq<HeaderNode>, startRow: int, startColumn: int): seq<Column>
    decreases header
  {
    if |header| == 0 then []
    else
      var column := startColumn + 1;
      if IsBranch(header[0]) then
        var row := startRow + 1;
        FlattenHeader(header[0].children, row, column) + FlattenHeader(header[1..], row, column)
      else
        [GetHeaderFields(header[0])] + FlattenHeader(header[1..], startRow, column)
  }

  /** The foreach of flattenHeader, with its two counters. */
  method FlattenHeaderLoop(header: seq<HeaderNode>, startRow: int, startColumn: int) returns (out: seq<Column>)
    ensures out == FlattenHeader(header, startRow, startColumn)
    decreases header
  {
    out := [];
    var row, column := startRow, startColumn;
    var i := 0;
    while i < |header|
      invariant 0 <= i <= |header|
      invariant out + FlattenHeader(header[i..], row, column) == FlattenHeader(header, startRow, startColumn)
    {
      var value := header[i];
      assert header[i..][0] == value && header[i..][1..] == header[i + 1..];
      column := column + 1;
      if |value.children| > 0 {
        row := row + 1;
        var result := FlattenHeaderLoop(value.children, row, column);
        assert out + result + FlattenHeader(header[i + 1..], row, column) == FlattenHeader(header, startRow, startColumn);
        out := out + result;
      } else {
        assert out + [GetHeaderFields(value)] + FlattenHeader(header[i + 1..], row, column)
          == FlattenHeader(header, startRow, startColumn);
        out := out + [GetHeaderFields(value)];
      }
      i := i + 1;
    }
  }

  /** Every node of the forest, each before its descendants, siblings left to
      right. */
  function PreOrder(hs: seq<HeaderNode>): seq<HeaderNode>
    decreases hs
  {
    if |hs| == 0 then [] else [hs[0]] + PreOrder(hs[0].children) + PreOrder(hs[1..])
  }

  function Childless(ns: seq<HeaderNode>): seq<HeaderNode>
  {
    if |ns| == 0 then [] else (if IsBranch(ns[0]) then [] else [ns[0]]) + Childless(ns[1..])
  }

  function Project(ns: seq<HeaderNode>): seq<Column>
  {
    seq(|ns|, k requires 0 <= k < |ns| => GetHeaderFields(ns[k]))
  }

  lemma {:induction false} ChildlessAppend(a: seq<HeaderNode>, b: seq<HeaderNode>)
    ensures Childless(a + b) == Childless(a) + Childless(b)
  {
    if |a| > 0 {
      var head := if IsBranch(a[0]) then [] else [a[0]];
      assert (a + b)[0] == a[0];
      assert (a + b)[1..] == a[1..] + b;
      ChildlessAppend(a[1..], b);
      calc {
        Childless(a + b);
        head + Childless(a[1..] + b);
        head + (Childless(a[1..]) + Childless(b));
        (head + Childless(a[1..])) + Childless(b);
      }
    } else {
      assert a + b == b;
    }
  }

  lemma ProjectAppend(a: seq<HeaderNode>, b: seq<HeaderNode>)
    ensures Project(a + b) == Project(a) + Project(b)
  {
  }

  /** flattenHeader lists exactly the childless nodes, in depth-first
      left-to-right order, and never a branch. */
  lemma {:induction false} FlattenHeaderIsLeavesInOrder(hs: seq<HeaderNode>, startRow: int, startColumn: int)
    ensures FlattenHeader(hs, startRow, startColumn) == Project(Childless(PreOrder(hs)))
    decreases hs
  {
    if |hs| > 0 {
      var n := hs[0];
      var below, rest := PreOrder(n.children), PreOrder(hs[1..]);
      ChildlessAppend([n] + below, rest);
      ChildlessAppend([n], below);
      var row := if IsBranch(n) then startRow + 1 else startRow;
      FlattenHeaderIsLeavesInOrder(n.children, row, startColumn + 1);
      FlattenHeaderIsLeavesInOrder(hs[1..], row, startColumn + 1);
      ProjectAppend(Childless([n]) + Childless(below), Childless(rest));
      ProjectAppend(Childless([n]), Childless(below));
      if !IsBranch(n) {
        assert below == [];
      }
    }
  }

  /** The row and column counters flattenHeader is called with (build passes
      the header height) do not change its result. */
  lemma FlattenHeaderIgnoresCounters(hs: seq<HeaderNode>, r1: int, c1: int, r2: int, c2: int)
    ensures FlattenHeader(hs, r1, c1) == FlattenHeader(hs, r2, c2)
  {
    FlattenHeaderIsLeavesInOrder(hs, r1, c1);
    FlattenHeaderIsLeavesInOrder(hs, r2, c2);
  }

  lemma {:induction false} FlattenHeaderOfResolvedSiblings(hs: seq<HeaderNode>, m: int, startRow: int, startColumn: int)
    requires forall k :: 0 <= k < |hs| ==> NodeResolved(hs[k], m)
    ensures |FlattenHeader(hs, startRow, startColumn)| == SumColSpan(hs)
    ensures forall j :: 0 <= j < |FlattenHeader(hs, startRow, startColumn)| ==>
      FlattenHeader(hs, startRow, startColumn)[j].colSpan == 1 &&
      FlattenHeader(hs, startRow, startColumn)[j].depth == 1
    decreases hs
  {
    if |hs| > 0 {
      var n := hs[0];
      assert ColSpans(hs) == [n.colSpan] + ColSpans(hs[1..]);
      FlattenHeaderOfResolvedSiblings(hs[1..], m, if IsBranch(n) then startRow + 1 else startRow, startColumn + 1);
      if IsBranch(n) {
        assert Resolved(n.children);
        FlattenHeaderOfResolvedSiblings(n.children, MaxDepth(n.children), startRow + 1, startColumn + 1);
      }
    }
  }

  /** As many leaf columns as the top-level nodes span, each one column wide
      and one level deep. */
  lemma FlattenHeaderOfResolved(hs: seq<HeaderNode>, startRow: int, startColumn: int)
    requires Resolved(hs)
    ensures |FlattenHeader(hs, startRow, startColumn)| == SumColSpan(hs)
    ensures forall j :: 0 <= j < |FlattenHeader(hs, startRow, startColumn)| ==>
      FlattenHeader(hs, startRow, startColumn)[j].colSpan == 1 &&
      FlattenHeader(hs, startRow, startColumn)[j].depth == 1
  {
    if |hs| > 0 {
      FlattenHeaderOfResolvedSiblings(hs, MaxDepth(hs), startRow, startColumn);
    }
  }
}
