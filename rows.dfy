/**
 * The rows a list screen draws: the loop over [PageStart, PageEnd) of the
 * view, without its text and styles.
 */
module Rows {
  import opened BrowserModel

  /**
   * One drawn row: the list index, the number printed in front of it, whether
   * it carries the cursor marker, and whether it is row 0 (which the version
   * list badges as the latest version).
   */
  datatype Row = Row(index: nat, number: nat, marked: bool, first: bool)

  /** The row the view draws for list index `i`. */
  function RowAt(m: Model, i: nat): Row {
    Row(i, i + 1, i == m.cursor, i == 0)
  }

  /** The rows drawn for a list of `total` entries, top to bottom. */
  method VisibleRows(m: Model, total: nat) returns (rows: seq<Row>)
    ensures |rows| == if m.PageEnd(total) < m.PageStart() then 0 else m.PageEnd(total) - m.PageStart()
    ensures forall j :: 0 <= j < |rows| ==> rows[j] == RowAt(m, m.PageStart() + j)
    ensures forall j :: 0 <= j < |rows| ==> rows[j].index < total
    ensures m.cursor < total ==> 1 <= |rows| <= PageSize
    ensures m.cursor < total ==> forall j :: 0 <= j < |rows| ==> (rows[j].marked <==> j == m.CursorInPage())
    ensures m.cursor >= total ==> forall j :: 0 <= j < |rows| ==> !rows[j].marked
  {
    var start := m.PageStart();
    var end := m.PageEnd(total);
    rows := [];
    var i := start;
    while i < end
      invariant i == start || start < i <= end
      invariant |rows| == i - start
      invariant forall j :: 0 <= j < |rows| ==> rows[j] == RowAt(m, start + j)
    {
      rows := rows + [RowAt(m, i)];
      i := i + 1;
    }
  }
}
