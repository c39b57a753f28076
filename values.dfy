/** Values shared by the header and data flatteners: the scalar cell values a
    record holds, the merge rectangles handed to the renderer, and the two
    array built-ins (`max`, `array_sum`) the span arithmetic is written with. */
module Values {

  datatype Option<+T> = None | Some(value: T)

  /** A scalar stored under a key of a record. `Null` is what PHP yields for a
      missing key. */
  datatype Value = Null | Int(i: int) | Str(s: string)

  /** A data record: field key to value (PHP string-keyed array). */
  type Record = map<string, Value>

  /** The keys the resolvers write into the trees (constants of class Export). */
  const RowKey: string := "_row"
  const MergeRowKey: string := "_merge_row"
  const MergeColKey: string := "_merge_col"
  const DataChildrenKey: string := "children"

  /** A 1-indexed, inclusive merge region `[col, row, col2, row2]`. */
  datatype Rect = Rect(col: int, row: int, col2: int, row2: int)

  /** A `setCellValue([col, row], value)` call: where a value is written. */
  datatype Cell = Cell(col: int, row: int, value: Value)

  /** `$record[$key]`, which is null when the key is absent. */
  function Get(r: Record, key: string): Value
  {
    if key in r then r[key] else Null
  }

  /** PHP `max($list)` on a non-empty list of integers (on an empty list PHP
      throws, so callers check emptiness first). */
  function Max(s: seq<int>): (m: int)
    requires |s| > 0
    ensures m in s
    ensures forall k :: 0 <= k < |s| ==> s[k] <= m
  {
    if |s| == 1 then s[0]
    else
      var rest := Max(s[1..]);
      assert forall k :: 1 <= k < |s| ==> s[k] == s[1..][k - 1];
      if s[0] >= rest then s[0] else rest
  }

  /** PHP `array_sum($list)`. */
  function Sum(s: seq<int>): int
  {
    if |s| == 0 then 0 else s[0] + Sum(s[1..])
  }

  lemma {:induction false} SumOfPositives(s: seq<int>)
    requires forall k :: 0 <= k < |s| ==> s[k] >= 1
    ensures Sum(s) >= |s|
  {
    if |s| > 0 {
      SumOfPositives(s[1..]);
    }
  }
}
