/** calc_margin and calc_page_lines of main.cpp (main.cpp:324-337): the vertical margin
    that centres the text in the terminal, and how many display lines a page shows. Every
    quantity is a size_t, so subtraction and doubling wrap modulo 2^64; line counts are sizes
    of vectors and are taken as they are. */
module Geometry {
  import opened Scan

  /** A size_t. */
  type U64 = x: int | 0 <= x < W64

  /** size_t subtraction. */
  function Sub64(a: U64, b: U64): (r: U64)
    ensures b <= a ==> r == a - b
    ensures a < b ==> r == a - b + W64
  {
    (a - b) % W64
  }

  /** size_t addition. */
  function Add64(a: U64, b: U64): (r: U64)
    ensures a + b < W64 ==> r == a + b
    ensures a + b >= W64 ==> r == a + b - W64
  {
    (a + b) % W64
  }

  /** A size_t doubled, as in `min_margin * 2`. */
  function Twice(a: U64): (r: U64)
    ensures 2 * a < W64 ==> r == 2 * a
    ensures 2 * a >= W64 ==> r == 2 * a - W64
  {
    (2 * a) % W64
  }

  function Min(a: int, b: int): int { if a <= b then a else b }
  function Max(a: int, b: int): int { if a >= b then a else b }

  /** The window height calc_margin works with: the requested rows, or the terminal
      height less both minimum margins when none was requested (main.cpp:325). */
  function WantedRows(termRows: U64, rows: U64, minMargin: U64): U64
  {
    if rows > 0 then rows else Sub64(termRows, Twice(minMargin))
  }

  /** calc_margin (main.cpp:324-327): half of what the shown lines leave of the terminal,
      but never less than the minimum margin. */
  function CalcMargin(termRows: U64, rows: U64, minMargin: U64, lineCount: nat): (m: U64)
    ensures m >= minMargin
    ensures var shown := Min(WantedRows(termRows, rows, minMargin), lineCount);
      shown <= termRows ==> termRows <= 2 * m + shown + 1
    ensures var shown := Min(WantedRows(termRows, rows, minMargin), lineCount);
      shown <= termRows && m > minMargin ==> 2 * m + shown <= termRows
  {
    var shown := Min(WantedRows(termRows, rows, minMargin), lineCount);
    Max(Sub64(termRows, shown) / 2, minMargin)
  }

  /** When the requested rows and the lines both exceed the terminal height, the size_t
      subtraction wraps: the two margins and the shown lines add up to at least 2^64 - 1 rows. */
  lemma OversizedRowsWrap(termRows: U64, rows: U64, minMargin: U64, lineCount: nat)
    requires termRows < rows && termRows < lineCount
    ensures 2 * CalcMargin(termRows, rows, minMargin, lineCount) + Min(rows, lineCount) >= W64 - 1
  {
    var shown := Min(rows, lineCount);
    assert WantedRows(termRows, rows, minMargin) == rows;
    assert Sub64(termRows, shown) == termRows - shown + W64;
  }

  /** A page of display lines and the first line of the last page. */
  datatype Page = Page(lines: nat, bottom: nat)

  /** What calc_page_lines (main.cpp:329-337) returns and stores through bottom_line. */
  function PageLines(displayLines: nat, rows: U64): (p: Page)
  {
    if displayLines > rows then
      var lines := Min(displayLines, rows);
      Page(lines, displayLines - lines)
    else Page(displayLines, 0)
  }

  /** A page and the lines above the last page make up all display lines; everything fits
      on one page unless there are more lines than rows, and then a page is `rows` lines. */
  lemma PageLinesSplit(displayLines: nat, rows: U64)
    ensures PageLines(displayLines, rows).lines + PageLines(displayLines, rows).bottom == displayLines
    ensures displayLines <= rows ==> PageLines(displayLines, rows) == Page(displayLines, 0)
    ensures displayLines > rows ==> PageLines(displayLines, rows).lines == rows
  {
  }

  /** 100 display lines in 20 rows: pages of 20 lines, the last one starting at line 80. */
  lemma HundredInTwenty()
    ensures PageLines(100, 20) == Page(20, 80)
  {
  }

  /** calc_page_lines (main.cpp:329-337): returns the page size and writes the bottom line
      through its reference parameter. */
  method CalcPageLines(displayLines: nat, rows: U64) returns (pageLines: nat, bottomLine: nat)
    ensures Page(pageLines, bottomLine) == PageLines(displayLines, rows)
    ensures pageLines + bottomLine == displayLines
    ensures displayLines <= rows ==> bottomLine == 0
  {
    pageLines := displayLines;
    bottomLine := 0;
    if displayLines > rows {
      pageLines := Min(displayLines, rows);
      bottomLine := displayLines - pageLines;
    }
  }
}
