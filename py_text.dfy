/** The character-level helpers of immersion.py: column_len, is_invalid_start_char, columns
    and max_colums. Python strings are sequences of code points, modelled as `seq<char>`;
    unicodedata.east_asian_width is a parameter `wide` that says whether a character's
    width class is W, F or A. */
module PyText {

  /** A Python call either returns a value or raises IndexError. */
  datatype Raised<+T> = Returned(value: T) | IndexError

  /** The backspace that forms an overstrike pair. */
  const BACKSPACE: char := 8 as char

  /** column_len (immersion.py:38-40): two columns for the wide, full-width and ambiguous
      width classes, one for every other character. */
  function ColumnLen(wide: char -> bool, c: char): (r: nat)
    ensures r == 1 || r == 2
    ensures r == 2 <==> wide(c)
  {
    if wide(c) then 2 else 1
  }

  /** The characters that may not open a line. */
  const CLOSING: set<char> := {'.', ',', ';', '?', '!', '。', '，', '？', '！', '･'}

  /** is_invalid_start_char (immersion.py:42-43). */
  function IsInvalidStartChar(c: char): (r: bool)
    ensures r ==> c != ' '
  {
    c == '.' || c == ',' || c == ';' || c == '?' || c == '!' || c == '。' || c == '，' || c == '？' || c == '！' || c == '･'
  }

  /** Exactly the ten closing characters may not open a line. */
  lemma InvalidStartIsClosing(c: char)
    ensures IsInvalidStartChar(c) <==> c in CLOSING
  {
  }

  /** The width of a line as column_len measures its characters. */
  function VisibleColumns(wide: char -> bool, line: seq<char>): (r: nat)
    ensures |line| <= r <= 2 * |line|
  {
    if line == [] then 0 else VisibleColumns(wide, line[..|line| - 1]) + ColumnLen(wide, line[|line| - 1])
  }

  /** The width columns computes: two for each letter A, F and W, one for anything else. */
  function LetterColumns(line: seq<char>): nat
  {
    if line == [] then 0
    else LetterColumns(line[..|line| - 1]) + (if line[|line| - 1] in {'A', 'F', 'W'} then 2 else 1)
  }

  /** columns (immersion.py:10-18). It fetches the width class of each character but then
      tests the character itself against 'A', 'F' and 'W'. */
  method Columns(wide: char -> bool, line: seq<char>) returns (cols: nat)
    ensures cols == LetterColumns(line)
  {
    cols := 0;
    for i := 0 to |line|
      invariant cols == LetterColumns(line[..i])
    {
      var c := line[i];
      var w := wide(c);
      if c == 'A' || c == 'F' || c == 'W' {
        cols := cols + 2;
      } else {
        cols := cols + 1;
      }
      assert line[..i + 1][..i] == line[..i];
    }
    assert line[..|line|] == line;
  }

  /** columns is the length of the line plus the number of letters A, F and W in it. */
  lemma {:induction false} LetterColumnsCount(line: seq<char>)
    ensures LetterColumns(line) == |line| + |set k | 0 <= k < |line| && line[k] in {'A', 'F', 'W'}|
  {
    if line != [] {
      var n := |line| - 1;
      var init := line[..n];
      LetterColumnsCount(init);
      var before := set k | 0 <= k < n && init[k] in {'A', 'F', 'W'};
      var all := set k | 0 <= k < |line| && line[k] in {'A', 'F', 'W'};
      assert before == set k | 0 <= k < n && line[k] in {'A', 'F', 'W'};
      if line[n] in {'A', 'F', 'W'} {
        assert all == before + {n};
      } else {
        assert all == before;
      }
    }
  }

  /** columns is the width column_len would measure if the letters A, F and W, and only
      they, were wide. */
  lemma {:induction false} LetterColumnsAsWidth(line: seq<char>)
    ensures LetterColumns(line) == VisibleColumns(c => c in {'A', 'F', 'W'}, line)
  {
    if line != [] {
      LetterColumnsAsWidth(line[..|line| - 1]);
    }
  }

  /** A single wide character: columns counts one column where column_len counts two, and
      a single narrow 'A' the other way round. */
  lemma ColumnsMisreadsWidth(wide: char -> bool)
    requires wide('あ') && !wide('A')
    ensures LetterColumns("あ") == 1 && VisibleColumns(wide, "あ") == 2
    ensures LetterColumns("A") == 2 && VisibleColumns(wide, "A") == 1
  {
    assert "あ"[..0] == [];
    assert "A"[..0] == [];
  }

  /** columns as evidently intended: the sum of column_len over the line. */
  method VisibleWidth(wide: char -> bool, line: seq<char>) returns (cols: nat)
    ensures cols == VisibleColumns(wide, line)
  {
    cols := 0;
    for i := 0 to |line|
      invariant cols == VisibleColumns(wide, line[..i])
    {
      cols := cols + ColumnLen(wide, line[i]);
      assert line[..i + 1][..i] == line[..i];
    }
    assert line[..|line|] == line;
  }

  /** max_colums (immersion.py:20-24): the widest line, 0 for no lines, each line measured
      by the corrected columns. */
  method MaxColumns(wide: char -> bool, lines: seq<seq<char>>) returns (cols: nat)
    ensures forall i :: 0 <= i < |lines| ==> VisibleColumns(wide, lines[i]) <= cols
    ensures |lines| == 0 ==> cols == 0
    ensures |lines| > 0 ==> exists i :: 0 <= i < |lines| && cols == VisibleColumns(wide, lines[i])
  {
    cols := 0;
    ghost var w := 0;
    for k := 0 to |lines|
      invariant forall i :: 0 <= i < k ==> VisibleColumns(wide, lines[i]) <= cols
      invariant k == 0 ==> cols == 0
      invariant w <= k && (k > 0 ==> w < k && cols == VisibleColumns(wide, lines[w]))
    {
      var c := VisibleWidth(wide, lines[k]);
      if c > cols {
        cols, w := c, k;
      }
    }
  }
}
