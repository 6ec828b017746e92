/** calc_margin and calc_page_lines of immersion.py (immersion.py:26-36). Python integers
    are unbounded, so nothing wraps; the rows and the margin may be negative. The halving
    `int(x / 2)` divides as a float and truncates toward zero. */
module PyGeometry {
  import opened Geometry

  /** int(x / 2): x halved and truncated toward zero. */
  function TruncHalf(x: int): (r: int)
    ensures x >= 0 ==> 0 <= r && 2 * r <= x <= 2 * r + 1
    ensures x < 0 ==> r <= 0 && 2 * r - 1 <= x <= 2 * r
  {
    if x >= 0 then x / 2 else -((-x) / 2)
  }

  /** The window height calc_margin works with: the requested rows, or the terminal height
      less both minimum margins when none was requested (immersion.py:27). */
  function WantedRows(rows: int, minMargin: int, termRows: int): int
  {
    if rows > 0 then rows else termRows - minMargin * 2
  }

  /** calc_margin (immersion.py:26-28): half of what the shown lines leave of the terminal,
      but never less than the minimum margin. */
  function CalcMargin(rows: int, minMargin: int, lineCount: nat, termRows: int): (m: int)
    ensures m >= minMargin
    ensures var shown := Min(WantedRows(rows, minMargin, termRows), lineCount);
      m > minMargin && shown <= termRows ==> termRows - 1 <= 2 * m + shown <= termRows
  {
    Max(TruncHalf(termRows - Min(WantedRows(rows, minMargin, termRows), lineCount)), minMargin)
  }

  /** When the shown lines fill the terminal or more, the margin is the minimum margin:
      the difference is negative and truncates toward zero. main.cpp's size_t subtraction
      wraps instead (Geometry.OversizedRowsWrap). */
  lemma OversizedRowsMinMargin(rows: int, minMargin: int, lineCount: nat, termRows: int)
    requires minMargin >= 0
    requires Min(WantedRows(rows, minMargin, termRows), lineCount) >= termRows
    ensures CalcMargin(rows, minMargin, lineCount, termRows) == minMargin
  {
  }

  /** A 24-row terminal, 10 requested rows and 100 lines: margins of 7 rows each. */
  lemma TenInTwentyFour()
    ensures CalcMargin(10, 2, 100, 24) == 7
  {
  }

  /** calc_page_lines (immersion.py:30-36): the page size and the bottom line, the first
      line of the last page. */
  function CalcPageLines(displayLines: nat, rows: int): (r: (int, nat))
    ensures r.0 + r.1 == displayLines
    ensures r.0 <= displayLines
    ensures displayLines <= rows ==> r.1 == 0
  {
    if displayLines > rows then
      var pageLines := Min(displayLines, rows);
      (pageLines, displayLines - pageLines)
    else (displayLines, 0)
  }

  /** Everything fits on one page unless there are more lines than rows; then a page is
      `rows` lines. */
  lemma PageLinesSplit(displayLines: nat, rows: int)
    ensures displayLines <= rows ==> CalcPageLines(displayLines, rows) == (displayLines, 0)
    ensures displayLines > rows ==> CalcPageLines(displayLines, rows).0 == rows
  {
  }

  /** 100 display lines in 20 rows: pages of 20 lines, the last one starting at line 80. */
  lemma HundredInTwenty()
    ensures CalcPageLines(100, 20) == (20, 80)
  {
  }

  /** Negative rows (the margins exceed the terminal) give a negative page, and the bottom
      line then lies past the last display line. */
  lemma NegativeRowsPage(displayLines: nat, rows: int)
    requires rows < 0
    ensures CalcPageLines(displayLines, rows).0 == rows
    ensures CalcPageLines(displayLines, rows).1 > displayLines
  {
  }
}
