/** Properties of the page window derived from the cursor. */
module PaginationLemmas {
  import opened BrowserModel

  function Min(a: int, b: int): int {
    if a <= b then a else b
  }

  /** The page start is the only multiple of the page size within one page of the cursor. */
  lemma PageStartUnique(m: Model, start: nat)
    requires start % PageSize == 0
    requires start <= m.cursor < start + PageSize
    ensures start == m.PageStart()
  {
  }

  /**
   * For a cursor inside a list of `total` rows, the displayed window
   * [PageStart, PageEnd) holds the cursor, lies inside the list and has
   * between 1 and PageSize rows.
   */
  lemma PageWindow(m: Model, total: nat)
    requires m.cursor < total
    ensures m.PageEnd(total) == Min(m.PageStart() + PageSize, total)
    ensures m.PageStart() <= m.cursor < m.PageEnd(total) <= total
    ensures 1 <= m.PageEnd(total) - m.PageStart() <= PageSize
  {
  }

  /** Number of pages the pagination line reports for `total` rows. */
  function PageCount(total: nat): nat {
    (total + PageSize - 1) / PageSize
  }

  /** The "Page p of n" line never shows a page past the last one. */
  lemma CurrentPageWithinCount(m: Model, total: nat)
    requires m.cursor < total
    ensures m.CurrentPage() + 1 <= PageCount(total)
  {
  }

  /** The cursor one row below the last row of a page is the first row of the next page. */
  lemma CrossingPageBoundary(m: Model)
    requires m.CursorInPage() == PageSize - 1
    ensures m.(cursor := m.cursor + 1).PageStart() == m.PageStart() + PageSize
    ensures m.(cursor := m.cursor + 1).CursorInPage() == 0
  {
  }

  /** Twenty-five rows with the cursor on row 23: rows 20..24 are shown and the cursor is the fourth of them. */
  lemma TwentyFiveRowsCursorAt23(m: Model)
    requires m.cursor == 23
    ensures m.PageStart() == 20 && m.PageEnd(25) == 25 && m.CursorInPage() == 3
  {
  }
}
